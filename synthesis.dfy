/** What the text-to-speech call hands back, and how the session turns it
    into one byte string (audio_streaming/consumers.py:115-138).

    The Python code probes the response object: `read` first, then
    `__iter__`, and only then `bytes(response)`. A response is therefore
    described here by the capabilities it has and what using each one would
    do; which of them the session uses is the point of `Normalize`. */
module Synthesis {

  import opened Wrappers
  import opened Strings

  type byte = x: int | 0 <= x < 256

  /** The outcome of calling a method of the response: bytes, or an
      exception with its message. */
  datatype Attempt = Produced(bytes: seq<byte>) | Raised(message: string)

  /** One value yielded by iterating the response. */
  datatype Item = BytesItem(data: seq<byte>) | OtherItem(typeName: string)

  /** Iterating the response: the values it yields, then the exception it
      raises, if any. */
  datatype Iteration = Iteration(items: seq<Item>, fault: Option<string>)

  /** `read` is present when the response has a `read` attribute, `iter`
      when it has `__iter__`; `conversion` is what `bytes(response)` does. */
  datatype Response = Response(read: Option<Attempt>, iter: Option<Iteration>, conversion: Attempt)

  /** The arguments of `text_to_speech.convert`. */
  datatype Request = Request(text: string, voiceId: string, modelId: string)

  /** The call itself either raises or returns a response. */
  datatype ConvertOutcome = ConvertRaised(message: string) | Returned(response: Response)

  datatype Joined = Joined(bytes: seq<byte>) | JoinFault(message: string)

  /** Audio bytes; a fault of the join branch (reported as `audio_error`);
      or any other fault of normalisation (reported, like a fault of the
      call, as `audio_generation_error`). */
  datatype Normalized = Audio(bytes: seq<byte>) | JoinFailed(message: string) | Faulted(message: string)

  /** A Python `bytes` value: it has no `read`, iterating it yields ints,
      and `bytes()` of it is itself. */
  function BytesObject(b: seq<byte>): Response
  {
    Response(None, Some(Iteration(seq(|b|, _ => OtherItem("int")), None)), Produced(b))
  }

  /** A response that yields the given byte chunks and then stops. */
  function ChunkStream(chunks: seq<seq<byte>>): Iteration
  {
    Iteration(seq(|chunks|, i requires 0 <= i < |chunks| => BytesItem(chunks[i])), None)
  }

  function Flatten(chunks: seq<seq<byte>>): seq<byte>
  {
    if |chunks| == 0 then [] else Flatten(chunks[..|chunks| - 1]) + chunks[|chunks| - 1]
  }

  /** Index of the first value that is not bytes-like. */
  function FirstNonBytes(items: seq<Item>): (r: Option<nat>)
    ensures r.Some? ==> r.value < |items| && items[r.value].OtherItem?
    ensures r.Some? ==> forall j :: 0 <= j < r.value ==> items[j].BytesItem?
    ensures r.None? <==> forall j :: 0 <= j < |items| ==> items[j].BytesItem?
  {
    if |items| == 0 then None
    else if items[0].OtherItem? then Some(0)
    else match FirstNonBytes(items[1..])
      case None => None
      case Some(k) => Some(k + 1)
  }

  /** The bytes of the bytes-like values, in order. */
  function Concat(items: seq<Item>): seq<byte>
  {
    if |items| == 0 then []
    else Concat(items[..|items| - 1]) + (if items[|items| - 1].BytesItem? then items[|items| - 1].data else [])
  }

  /** The TypeError message `bytes.join` raises for a value that is not bytes-like. */
  function TypeErrorText(index: nat, typeName: string): string
  {
    "sequence item " + NatToString(index) + ": expected a bytes-like object, " + typeName + " found"
  }

  /** `b''.join(chunk for chunk in response)`. The join first collects the
      whole generator, so an exception raised while iterating wins over a
      value of the wrong type. */
  function Join(it: Iteration): Joined
  {
    if it.fault.Some? then JoinFault(it.fault.value)
    else match FirstNonBytes(it.items)
      case Some(i) => JoinFault(TypeErrorText(i, it.items[i].typeName))
      case None => Joined(Concat(it.items))
  }

  /** The join as the session runs it, one chunk at a time. */
  method JoinItems(it: Iteration) returns (r: Joined)
    ensures r == Join(it)
  {
    if it.fault.Some? {
      return JoinFault(it.fault.value);
    }
    var items := it.items;
    var acc: seq<byte> := [];
    var i := 0;
    while i < |items|
      invariant 0 <= i <= |items|
      invariant forall j :: 0 <= j < i ==> items[j].BytesItem?
      invariant acc == Concat(items[..i])
    {
      match items[i] {
        case OtherItem(t) =>
          return JoinFault(TypeErrorText(i, t));
        case BytesItem(b) =>
          assert items[..i + 1][..i] == items[..i];
          acc := acc + b;
      }
      i := i + 1;
    }
    assert items[..i] == items;
    return Joined(acc);
  }

  function FromAttempt(a: Attempt): Normalized
  {
    match a
    case Produced(b) => Audio(b)
    case Raised(m) => Faulted(m)
  }

  /** Lines 125-138: `read()` if the response has it, else the join if it
      is iterable, else `bytes(response)`. */
  function Normalize(r: Response): Normalized
  {
    if r.read.Some? then FromAttempt(r.read.value)
    else if r.iter.Some? then
      match Join(r.iter.value)
      case Joined(b) => Audio(b)
      case JoinFault(m) => JoinFailed(m)
    else FromAttempt(r.conversion)
  }

  /** A readable response is drained with `read()`: whatever iterating it
      or converting it would do plays no part. */
  lemma ReadWins(r: Response, iter: Option<Iteration>, conversion: Attempt)
    requires r.read.Some?
    ensures Normalize(r) == Normalize(Response(r.read, iter, conversion))
    ensures Normalize(r) == FromAttempt(r.read.value)
  {
  }

  /** Without `read`, an iterable response is joined and `bytes()` of it is
      never attempted. */
  lemma IterBeatsConversion(r: Response, conversion: Attempt)
    requires r.read.None? && r.iter.Some?
    ensures Normalize(r) == Normalize(Response(None, r.iter, conversion))
    ensures Normalize(r).Audio? <==> Join(r.iter.value).Joined?
  {
  }

  /** `bytes(response)` is reached only by a response with neither `read`
      nor `__iter__`; an `audio_error` from the join only by an iterable
      one without `read`. */
  lemma NormalizeSources(r: Response)
    ensures r.read.None? && r.iter.None? ==> Normalize(r) == FromAttempt(r.conversion)
    ensures Normalize(r).JoinFailed? ==> r.read.None? && r.iter.Some?
  {
  }

  /** A stream of byte chunks joins to their concatenation. */
  lemma {:induction false} JoinChunkStream(chunks: seq<seq<byte>>)
    ensures Join(ChunkStream(chunks)) == Joined(Flatten(chunks))
  {
    ConcatChunks(chunks);
  }

  lemma {:induction false} ConcatChunks(chunks: seq<seq<byte>>)
    ensures Concat(ChunkStream(chunks).items) == Flatten(chunks)
  {
    if |chunks| > 0 {
      var items := ChunkStream(chunks).items;
      var front := chunks[..|chunks| - 1];
      assert items[..|items| - 1] == ChunkStream(front).items;
      ConcatChunks(front);
    }
  }

  /** A raw `bytes` result takes the join branch, where joining its ints
      fails; only the empty byte string gets through, as empty audio. */
  lemma RawBytesResult(b: seq<byte>)
    ensures |b| == 0 ==> Normalize(BytesObject(b)) == Audio([])
    ensures |b| > 0 ==> Normalize(BytesObject(b)) == JoinFailed("sequence item 0: expected a bytes-like object, int found")
  {
    var it := BytesObject(b).iter.value;
    if |b| > 0 {
      assert it.items[0] == OtherItem("int");
      assert FirstNonBytes(it.items) == Some(0);
      IntItemErrorText();
      assert Join(it) == JoinFault(TypeErrorText(0, "int"));
    } else {
      assert it.items == [];
    }
  }

  lemma IntItemErrorText()
    ensures TypeErrorText(0, "int") == "sequence item 0: expected a bytes-like object, int found"
  {
    assert NatToString(0) == "0";
    var head := "sequence item " + "0" + ": expected a bytes-like object, ";
    assert head == "sequence item 0: expected a bytes-like object, ";
    assert head + "int" == "sequence item 0: expected a bytes-like object, int";
  }
}
