/** The chat page: the message list, the input box and the loading flag, and what sending a
    message does to them. The emoji and Arabic helpers are the landing page's (ChatPage.js
    repeats them character for character). */
module ChatView {
  import opened Wrappers
  import opened Text
  import opened AppView

  datatype Role = User | Assistant

  /** One entry of `messages`: `{ role, content }`. */
  datatype ChatMessage = ChatMessage(role: Role, content: string)

  datatype Direction = Ltr | Rtl

  const ErrorReply: string := "Error. Please try again."
  const ChatBackend: string := "groq"

  /** The `dir` of a rendered message. */
  function DirectionOf(m: ChatMessage): (r: Direction)
    ensures r == Rtl <==> m.role == Assistant && exists i :: 0 <= i < |m.content| && IsArabicChar(m.content[i])
    ensures m.role == User ==> r == Ltr
  {
    if m.role == Assistant && IsArabic(m.content) then Rtl else Ltr
  }

  /** The body of the `POST /chat` request: `{ question, backend }`. */
  datatype ChatRequest = ChatRequest(question: string, backend: string)

  /** The conversation so far alternates: each question is followed by its one answer, and
      no question is blank. */
  predicate Conversation(messages: seq<ChatMessage>) {
    && |messages| % 2 == 0
    && forall i :: 0 <= i < |messages| ==>
         && messages[i].role == (if i % 2 == 0 then User else Assistant)
         && (i % 2 == 0 ==> JsTrim(messages[i].content) != [])
  }

  /** The state of `ChatPage`. */
  class ChatPage {
    var messages: seq<ChatMessage>
    var input: string
    var loading: bool

    ghost predicate Valid()
      reads this
    {
      Conversation(messages) && !loading
    }

    /** The first render: no messages, an empty box, not loading. */
    constructor()
      ensures messages == [] && input == [] && !loading
      ensures Valid()
    {
      messages := [];
      input := [];
      loading := false;
    }

    /** Typing into the box. */
    method SetInput(text: string)
      modifies this
      ensures input == text && messages == old(messages) && loading == old(loading)
    {
      input := text;
    }

    /** `sendMessage`: `chat` stands for the request to the backend, giving the `response`
        field of its answer, or nothing when the request or its JSON fails. Returns the request
        sent, if any. */
    method SendMessage(chat: ChatRequest -> Option<string>) returns (sent: Option<ChatRequest>)
      requires Valid()
      modifies this
      ensures Valid()
      // A blank box sends nothing and changes nothing.
      ensures JsTrim(old(input)) == [] ==>
                sent.None? && messages == old(messages) && input == old(input)
      // Otherwise the question goes to the backend as typed, the box is cleared, and the
      // question and exactly one answer are appended.
      ensures JsTrim(old(input)) != [] ==>
                && sent == Some(ChatRequest(old(input), ChatBackend))
                && input == []
                && messages == old(messages) + [ChatMessage(User, old(input)),
                                                ChatMessage(Assistant, chat(sent.value).GetOr(ErrorReply))]
    {
      if JsTrim(input) == [] {
        return None;
      }
      var question := input;
      var request := ChatRequest(question, ChatBackend);
      ghost var before := messages;
      ConversationGrows(before, question, chat(request).GetOr(ErrorReply));
      messages := messages + [ChatMessage(User, question)];
      loading := true;
      input := [];
      var answer := chat(request);
      var reply := ErrorReply;
      if answer.Some? {
        reply := answer.value;
      }
      messages := messages + [ChatMessage(Assistant, reply)];
      assert messages == before + [ChatMessage(User, question), ChatMessage(Assistant, reply)];
      loading := false;
      sent := Some(request);
    }
  }

  /** A question and its answer extend a conversation. */
  lemma ConversationGrows(messages: seq<ChatMessage>, question: string, answer: string)
    requires Conversation(messages) && JsTrim(question) != []
    ensures Conversation(messages + [ChatMessage(User, question), ChatMessage(Assistant, answer)])
  {
    var m := messages + [ChatMessage(User, question), ChatMessage(Assistant, answer)];
    assert forall i :: 0 <= i < |messages| ==> m[i] == messages[i];
    assert m[|messages|] == ChatMessage(User, question);
    assert m[|messages| + 1] == ChatMessage(Assistant, answer);
  }

  /** In a conversation the questions are rendered left to right, and an answer right to left
      exactly when it has an Arabic letter. */
  lemma ConversationDirections(messages: seq<ChatMessage>)
    requires Conversation(messages)
    ensures forall i :: 0 <= i < |messages| && i % 2 == 0 ==> DirectionOf(messages[i]) == Ltr
    ensures forall i :: 0 <= i < |messages| && i % 2 == 1 ==> (DirectionOf(messages[i]) == Rtl <==> IsArabic(messages[i].content))
  {
  }
}
