/** The byte layout of stored embeddings and the lazily loaded embedding model. A vector is a
    sequence of 4-byte words, one per float32 component; no float arithmetic is modelled. */
module Embeddings {
  import opened Wrappers

  /** One float32 component, as the four bytes `tobytes()` writes for it. */
  datatype Word = Word(b0: bv8, b1: bv8, b2: bv8, b3: bv8)

  /** EMBED_DIM. */
  const EmbedDim: nat := 384

  /** EMBEDDING_MODEL. */
  const EmbeddingModel: string := "all-MiniLM-L6-v2"

  function WordBytes(w: Word): seq<bv8> {
    [w.b0, w.b1, w.b2, w.b3]
  }

  /** `vec.tobytes()`: the words' bytes, one word after the other. */
  function ToBytes(v: seq<Word>): (r: seq<bv8>)
    ensures |r| == 4 * |v|
  {
    if v == [] then [] else WordBytes(v[0]) + ToBytes(v[1..])
  }

  /** The first `n` words of a buffer, read from offset 0. */
  function FromBytes(b: seq<bv8>, n: nat): (r: seq<Word>)
    requires 4 * n <= |b|
    ensures |r| == n
  {
    if n == 0 then [] else [Word(b[0], b[1], b[2], b[3])] + FromBytes(b[4..], n - 1)
  }

  /** `np.frombuffer(blob, dtype=np.float32, count=EMBED_DIM)`: fails (None) when the blob
      holds fewer than EMBED_DIM words, otherwise reads exactly EMBED_DIM of them. */
  function BytesToVec(blob: seq<bv8>): (r: Option<seq<Word>>)
    ensures r.Some? <==> |blob| >= 4 * EmbedDim
    ensures r.Some? ==> |r.value| == EmbedDim
  {
    if |blob| < 4 * EmbedDim then None else Some(FromBytes(blob, EmbedDim))
  }

  /** Reading words back from an encoding, whatever follows it, gives the words. */
  lemma {:induction false} FromBytesToBytes(v: seq<Word>, extra: seq<bv8>)
    ensures FromBytes(ToBytes(v) + extra, |v|) == v
  {
    if v != [] {
      var rest := ToBytes(v[1..]) + extra;
      var b := ToBytes(v) + extra;
      assert b == WordBytes(v[0]) + rest;
      assert b[4..] == rest;
      assert b[0] == v[0].b0 && b[1] == v[0].b1 && b[2] == v[0].b2 && b[3] == v[0].b3;
      FromBytesToBytes(v[1..], extra);
    }
  }

  /** Encoding the words read from a buffer of exactly that many words gives the buffer. */
  lemma {:induction false} ToBytesFromBytes(b: seq<bv8>, n: nat)
    requires |b| == 4 * n
    ensures ToBytes(FromBytes(b, n)) == b
  {
    if n > 0 {
      ToBytesFromBytes(b[4..], n - 1);
      var w := FromBytes(b, n);
      assert w[1..] == FromBytes(b[4..], n - 1);
      assert b == b[..4] + b[4..];
    }
  }

  /** Only the first `n` words' bytes are read. */
  lemma {:induction false} FromBytesPrefix(b: seq<bv8>, extra: seq<bv8>, n: nat)
    requires 4 * n <= |b|
    ensures FromBytes(b + extra, n) == FromBytes(b, n)
  {
    if n > 0 {
      assert (b + extra)[4..] == b[4..] + extra;
      FromBytesPrefix(b[4..], extra, n - 1);
    }
  }

  /** Round trip: a stored EMBED_DIM-word embedding decodes to the same words. */
  lemma DecodeEmbedding(v: seq<Word>)
    requires |v| == EmbedDim
    ensures BytesToVec(ToBytes(v)) == Some(v)
  {
    FromBytesToBytes(v, []);
    assert ToBytes(v) + [] == ToBytes(v);
  }

  /** Bytes past the first 4·EMBED_DIM are ignored. */
  lemma BytesToVecIgnoresTail(blob: seq<bv8>, extra: seq<bv8>)
    requires |blob| >= 4 * EmbedDim
    ensures BytesToVec(blob + extra) == BytesToVec(blob)
  {
    FromBytesPrefix(blob, extra, EmbedDim);
  }

  /** The other direction: a blob of exactly 4·EMBED_DIM bytes is the encoding of its decoding. */
  lemma EncodeDecoded(blob: seq<bv8>)
    requires |blob| == 4 * EmbedDim
    ensures BytesToVec(blob).Some? && ToBytes(BytesToVec(blob).value) == blob
  {
    ToBytesFromBytes(blob, EmbedDim);
  }

  /** A loaded sentence-transformer; `encode` is what the model computes for a text. */
  class SentenceModel {
    const name: string
    const encode: string -> seq<Word>

    constructor(name: string, encode: string -> seq<Word>)
      ensures this.name == name && this.encode == encode
    {
      this.name := name;
      this.encode := encode;
    }
  }

  /** The module-level `_model` slot of embeddings.py. `weights` is what loading
      EMBEDDING_MODEL produces, supplied from outside. */
  class ModelSlot {
    var model: SentenceModel?
    const weights: string -> seq<Word>

    constructor(weights: string -> seq<Word>)
      ensures model == null && this.weights == weights
    {
      model := null;
      this.weights := weights;
    }

    /** `get_model()`: loads the model the first time only; later calls return the same
        instance. */
    method GetModel() returns (m: SentenceModel)
      modifies this
      ensures old(model) != null ==> m == old(model)
      ensures old(model) == null ==> fresh(m) && m.name == EmbeddingModel && m.encode == weights
      ensures model == m
    {
      if model == null {
        model := new SentenceModel(EmbeddingModel, weights);
      }
      m := model;
    }

    /** `embed(text)`: the model's vector for the text, as bytes. */
    method Embed(text: string) returns (bytes: seq<bv8>)
      modifies this
      ensures model != null && (old(model) != null ==> model == old(model))
      ensures bytes == ToBytes(model.encode(text))
      ensures |bytes| == 4 * |model.encode(text)|
    {
      var m := GetModel();
      bytes := ToBytes(m.encode(text));
    }
  }
}
