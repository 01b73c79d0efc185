/** The LLM client: a backend field that starts as Ollama or Groq and falls back from Groq to
    Ollama for good on an HTTP error or a value error. The two HTTP transports are oracles
    held by a `Network` object that records every request sent. */
module Llm {
  import opened Wrappers
  import opened Text

  datatype Backend = Ollama | Groq

  /** The name a backend is selected by. */
  function BackendName(b: Backend): string {
    match b
    case Ollama => "ollama"
    case Groq => "groq"
  }

  /** The constructor's `assert backend in {"ollama", "groq"}`: None for any other name. */
  function ParseBackend(name: string): (r: Option<Backend>)
    ensures r.Some? ==> BackendName(r.value) == name
    ensures r.None? ==> name != "ollama" && name != "groq"
  {
    if name == "ollama" then Some(Ollama)
    else if name == "groq" then Some(Groq)
    else None
  }

  /** Every backend is accepted under its own name. */
  lemma ParseBackendName(b: Backend)
    ensures ParseBackend(BackendName(b)) == Some(b)
  {
    match b
    case Ollama =>
    case Groq =>
      assert "groq" != "ollama" by {
        assert "groq"[0] != "ollama"[0];
      }
  }

  /** The exception classes `generate` tells apart. */
  datatype Failure =
    | HttpError(msg: string)   // requests.exceptions.HTTPError, from raise_for_status
    | ValueError(msg: string)  // ValueError, including a JSON body that does not decode
    | OtherError(msg: string)  // anything else: connection errors, timeouts, a reply of the wrong shape

  /** What the Ollama transport gives back: the JSON body's optional "response" field. */
  datatype OllamaReply = OllamaBody(response: Option<string>) | OllamaRaised(failure: Failure)

  /** What the Groq transport gives back: the first choice's message content. */
  datatype GroqReply = GroqContent(content: string) | GroqRaised(failure: Failure)

  /** One HTTP request: which API, the prompt and the token budget. */
  datatype Request = Request(backend: Backend, prompt: string, maxTokens: int)

  /** One `generate` call: the client's backend when it started, the prompt, the budget and
      what it returned. */
  datatype Generation = Generation(start: Backend, prompt: string, maxTokens: int, reply: string)

  /** The message prefix of every failure `generate` turns into text. */
  const ErrorPrefix: string := "Error generating response: "

  function ErrorText(f: Failure): (r: string)
    ensures StartsWith(r, ErrorPrefix)
  {
    ErrorPrefix + f.msg
  }

  /** The text `_generate_ollama` yields, with its exception turned into the error text by the
      outer handler; a body without "response" gives "". */
  function OllamaText(r: OllamaReply): string {
    match r
    case OllamaBody(resp) => resp.GetOr("")
    case OllamaRaised(f) => ErrorText(f)
  }

  /** The failures after which Groq hands over to Ollama. */
  predicate FallsBack(f: Failure) {
    f.HttpError? || f.ValueError?
  }

  /** What one `generate` call does: the backend afterwards, the requests sent and the text.
      `key` is GROQ_API_KEY; `base` is the number of requests sent before; the transports
      answer the request with index `i` with `ollamaAt(i)` and `groqAt(i)`. */
  datatype Step = Step(backend: Backend, requests: seq<Request>, text: string)

  function GenerateStep(backend: Backend, key: string, base: nat,
                        ollamaAt: nat -> OllamaReply, groqAt: nat -> GroqReply,
                        prompt: string, maxTokens: int): (r: Step)
    // An instance on Ollama stays there and sends only to Ollama.
    ensures backend == Ollama ==> r.backend == Ollama && r.requests == [Request(Ollama, prompt, maxTokens)]
    // Groq hands over exactly on a missing key, an HTTP error or a value error.
    ensures backend == Groq ==>
              (r.backend == Ollama <==>
                 key == "" || (groqAt(base).GroqRaised? && FallsBack(groqAt(base).failure)))
    // One or two requests, each with the caller's prompt and budget; the last one goes to
    // the backend the instance has afterwards.
    ensures 1 <= |r.requests| <= 2
    ensures forall q :: q in r.requests ==> q.prompt == prompt && q.maxTokens == maxTokens
    ensures r.requests[|r.requests| - 1].backend == r.backend
    // Two requests only on a fallback after Groq itself answered with an error.
    ensures |r.requests| == 2 ==> r.requests == [Request(Groq, prompt, maxTokens), Request(Ollama, prompt, maxTokens)]
    // A Groq failure that does not fall back becomes the error text.
    ensures backend == Groq && key != "" && groqAt(base).GroqRaised? && !FallsBack(groqAt(base).failure) ==>
              r.text == ErrorText(groqAt(base).failure)
    // A Groq success is its content, stripped.
    ensures backend == Groq && key != "" && groqAt(base).GroqContent? ==> r.text == Strip(groqAt(base).content)
    // Whatever Ollama says is what the call returns, when it is asked last.
    ensures r.backend == Ollama ==> r.text == OllamaText(ollamaAt(base + |r.requests| - 1))
  {
    match backend
    case Ollama =>
      Step(Ollama, [Request(Ollama, prompt, maxTokens)], OllamaText(ollamaAt(base)))
    case Groq =>
      if key == "" then
        Step(Ollama, [Request(Ollama, prompt, maxTokens)], OllamaText(ollamaAt(base)))
      else
        match groqAt(base)
        case GroqContent(c) =>
          Step(Groq, [Request(Groq, prompt, maxTokens)], Strip(c))
        case GroqRaised(f) =>
          if FallsBack(f) then
            Step(Ollama, [Request(Groq, prompt, maxTokens), Request(Ollama, prompt, maxTokens)],
                 OllamaText(ollamaAt(base + 1)))
          else
            Step(Groq, [Request(Groq, prompt, maxTokens)], ErrorText(f))
  }

  /** A failing transport never escapes `generate`: when the transport asked last raised, the
      text is the error text for what it raised. */
  lemma GenerateNeverRaises(backend: Backend, key: string, base: nat,
                            ollamaAt: nat -> OllamaReply, groqAt: nat -> GroqReply,
                            prompt: string, maxTokens: int)
    ensures var r := GenerateStep(backend, key, base, ollamaAt, groqAt, prompt, maxTokens);
            var last := base + |r.requests| - 1;
            && (r.backend == Ollama && ollamaAt(last).OllamaRaised? ==>
                  r.text == ErrorText(ollamaAt(last).failure) && StartsWith(r.text, ErrorPrefix))
            && (r.backend == Groq && groqAt(last).GroqRaised? ==>
                  r.text == ErrorText(groqAt(last).failure) && StartsWith(r.text, ErrorPrefix))
  {
    var r := GenerateStep(backend, key, base, ollamaAt, groqAt, prompt, maxTokens);
    if r.backend == Groq {
      assert backend == Groq && key != "" && |r.requests| == 1;
    }
  }

  /** The HTTP side: GROQ_API_KEY, the two transports as oracles, and the requests sent so far.
      `generations` is a ghost record of every `generate` call made through any client. */
  class Network {
    const groqApiKey: string
    const ollamaAt: nat -> OllamaReply
    const groqAt: nat -> GroqReply
    var sent: seq<Request>
    ghost var generations: seq<Generation>

    constructor(groqApiKey: string, ollamaAt: nat -> OllamaReply, groqAt: nat -> GroqReply)
      ensures this.groqApiKey == groqApiKey && this.ollamaAt == ollamaAt && this.groqAt == groqAt
      ensures sent == [] && generations == []
    {
      this.groqApiKey := groqApiKey;
      this.ollamaAt := ollamaAt;
      this.groqAt := groqAt;
      sent := [];
      generations := [];
    }

    /** The POST to OLLAMA_URL with `num_predict` set to the budget. */
    method PostOllama(prompt: string, maxTokens: int) returns (reply: OllamaReply)
      modifies this
      ensures sent == old(sent) + [Request(Ollama, prompt, maxTokens)]
      ensures reply == ollamaAt(|old(sent)|)
      ensures generations == old(generations)
    {
      reply := ollamaAt(|sent|);
      sent := sent + [Request(Ollama, prompt, maxTokens)];
    }

    /** The POST to the Groq chat-completions endpoint with `max_tokens` set to the budget. */
    method PostGroq(prompt: string, maxTokens: int) returns (reply: GroqReply)
      modifies this
      ensures sent == old(sent) + [Request(Groq, prompt, maxTokens)]
      ensures reply == groqAt(|old(sent)|)
      ensures generations == old(generations)
    {
      reply := groqAt(|sent|);
      sent := sent + [Request(Groq, prompt, maxTokens)];
    }
  }

  /** `LLM`: one client, whose `backend` field `generate` may switch from Groq to Ollama. */
  class LLM {
    var backend: Backend
    const net: Network

    constructor(b: Backend, net: Network)
      ensures backend == b && this.net == net
    {
      backend := b;
      this.net := net;
    }

    /** `generate(prompt, max_tokens)`: never raises; see `GenerateStep` for what it does. */
    method Generate(prompt: string, maxTokens: int) returns (text: string)
      modifies this, net
      ensures var r := GenerateStep(old(backend), net.groqApiKey, |old(net.sent)|,
                                    net.ollamaAt, net.groqAt, prompt, maxTokens);
              backend == r.backend && net.sent == old(net.sent) + r.requests && text == r.text
      ensures old(backend) == Ollama ==> backend == Ollama
      ensures net.generations == old(net.generations) + [Generation(old(backend), prompt, maxTokens, text)]
    {
      ghost var start := backend;
      if backend == Ollama {
        var reply := net.PostOllama(prompt, maxTokens);
        text := OllamaText(reply);
      } else if net.groqApiKey == "" {
        // _generate_groq raises ValueError before sending anything.
        backend := Ollama;
        var reply := net.PostOllama(prompt, maxTokens);
        text := OllamaText(reply);
      } else {
        var g := net.PostGroq(prompt, maxTokens);
        match g
        case GroqContent(c) =>
          text := Strip(c);
        case GroqRaised(f) =>
          if FallsBack(f) {
            backend := Ollama;
            var reply := net.PostOllama(prompt, maxTokens);
            text := OllamaText(reply);
          } else {
            text := ErrorText(f);
          }
      }
      net.generations := net.generations + [Generation(start, prompt, maxTokens, text)];
    }
  }

  /** `LLM(backend)`: a fresh client on the named backend, or null when the constructor's
      assertion rejects the name. */
  method NewLLM(name: string, net: Network) returns (llm: LLM?)
    ensures llm == null <==> ParseBackend(name).None?
    ensures llm != null ==> fresh(llm) && llm.backend == ParseBackend(name).value && llm.net == net
  {
    var b := ParseBackend(name);
    if b.None? {
      return null;
    }
    llm := new LLM(b.value, net);
  }
}
