/**
 The frame codec: a JSON object travels as a 4-byte big-endian length
 followed by that many bytes of compact JSON.  Decoding pops one frame off
 the front of a receive buffer that accumulates whatever the socket
 delivered.
 */
module Framing {
  import opened Wrappers
  import opened Bytes
  import opened Json

  const HeaderSize: int := 4

  /** The largest declared payload length for which `4 + len` still fits in
      a signed 32-bit `int`, the type the decoder compares against. */
  const MaxFrameLen: int := IntMax - HeaderSize

  /** A frame around an arbitrary payload. */
  function Frame(payload: seq<Byte>): seq<Byte>
    requires |payload| < Two32
  {
    Be32(|payload|) + payload
  }

  /** `packJson`: the header carries the payload size cast to quint32,
      followed by the compact serialisation of the object. */
  function PackJson(c: JsonCodec, o: JsonObject): (frame: seq<Byte>)
    ensures |frame| == HeaderSize + |c.serialize(o)|
    ensures frame[HeaderSize..] == c.serialize(o)
    ensures |c.serialize(o)| < Two32 ==> ReadBe32(frame) == |c.serialize(o)|
  {
    var payload := c.serialize(o);
    Be32RoundTrip(|payload| % Two32);
    Be32(|payload| % Two32) + payload
  }

  /** The declared payload length of the frame at the front of `b`. */
  function DeclaredLen(b: seq<Byte>): nat
    requires |b| >= HeaderSize
  {
    ReadBe32(b)
  }

  /** Every header the decoder can reach from the front of `b`, frame after
      frame, declares a length for which `4 + len` fits in an `int`. */
  predicate HeadersFit(b: seq<Byte>)
    decreases |b|
  {
    |b| < HeaderSize ||
    (DeclaredLen(b) <= MaxFrameLen &&
     (|b| < HeaderSize + DeclaredLen(b) || HeadersFit(b[HeaderSize + DeclaredLen(b)..])))
  }

  /** A whole frame (header and declared payload) is at the front of `b`. */
  predicate FrameReady(b: seq<Byte>)
  {
    |b| >= HeaderSize && |b| >= HeaderSize + DeclaredLen(b)
  }

  /** The payload of the frame at the front of `b`. */
  function FramePayload(b: seq<Byte>): seq<Byte>
    requires FrameReady(b)
  {
    b[HeaderSize..HeaderSize + DeclaredLen(b)]
  }

  /** What follows the frame at the front of `b`. */
  function AfterFrame(b: seq<Byte>): (rest: seq<Byte>)
    requires FrameReady(b)
    ensures |rest| <= |b| - HeaderSize
    ensures rest == b[|b| - |rest|..]
  {
    b[HeaderSize + DeclaredLen(b)..]
  }

  /** The outcome of one `tryExtractOne` call: its boolean result, the
      buffer afterwards, and `docOut` afterwards. */
  datatype Extraction = Extraction(ok: bool, buffer: seq<Byte>, doc: Doc)

  /** `tryExtractOne`.  Answers false without touching anything while the
      header or the payload is incomplete; once a whole frame is present it
      removes exactly that frame, and reports true (storing the document)
      only when the payload parses. */
  function TryExtractOne(c: JsonCodec, buffer: seq<Byte>, docOut: Doc): (r: Extraction)
    requires |buffer| >= HeaderSize ==> DeclaredLen(buffer) <= MaxFrameLen
    ensures !FrameReady(buffer) ==> r == Extraction(false, buffer, docOut)
    ensures FrameReady(buffer) ==>
              && r.buffer == AfterFrame(buffer)
              && (r.ok <==> c.parse(FramePayload(buffer)).Some?)
              && (r.ok ==> r.doc == c.parse(FramePayload(buffer)).value)
              && (!r.ok ==> r.doc == docOut)
  {
    if |buffer| < HeaderSize then Extraction(false, buffer, docOut)
    else
      var len := DeclaredLen(buffer);
      if |buffer| < HeaderSize + len then Extraction(false, buffer, docOut)
      else
        match c.parse(buffer[HeaderSize..HeaderSize + len])
        case None => Extraction(false, buffer[HeaderSize + len..], docOut)
        case Some(doc) => Extraction(true, buffer[HeaderSize + len..], doc)
  }

  /** Decoding a packed object followed by anything gives back the object and
      leaves exactly what followed. */
  lemma ExtractPacked(c: JsonCodec, o: JsonObject, rest: seq<Byte>, docOut: Doc)
    requires RoundTrips(c)
    requires |c.serialize(o)| <= MaxFrameLen
    ensures TryExtractOne(c, PackJson(c, o) + rest, docOut) == Extraction(true, rest, ObjectDoc(o))
  {
    var p := c.serialize(o);
    var b := PackJson(c, o) + rest;
    assert b[..HeaderSize] == PackJson(c, o)[..HeaderSize];
    assert DeclaredLen(b) == |p|;
    assert b[HeaderSize..HeaderSize + |p|] == p;
    assert b[HeaderSize + |p|..] == rest;
  }

  /** Byte by byte: every proper prefix of a frame is "not ready", so nothing
      is consumed before the last byte of the frame has arrived. */
  lemma ExtractPrefixNotReady(c: JsonCodec, payload: seq<Byte>, k: nat, docOut: Doc)
    requires |payload| <= MaxFrameLen
    requires k < |Frame(payload)|
    ensures TryExtractOne(c, Frame(payload)[..k], docOut) == Extraction(false, Frame(payload)[..k], docOut)
  {
    var f := Frame(payload);
    Be32RoundTrip(|payload|);
    if k >= HeaderSize {
      assert f[..k][..HeaderSize] == f[..HeaderSize];
      assert DeclaredLen(f[..k]) == |payload|;
    }
  }

  /** A frame whose payload does not parse is consumed whole and reported as
      a failure, not as "not ready"; what followed it is left in place. */
  lemma ExtractMalformed(c: JsonCodec, payload: seq<Byte>, rest: seq<Byte>, docOut: Doc)
    requires |payload| <= MaxFrameLen
    requires c.parse(payload).None?
    ensures TryExtractOne(c, Frame(payload) + rest, docOut) == Extraction(false, rest, docOut)
  {
    var b := Frame(payload) + rest;
    Be32RoundTrip(|payload|);
    assert b[..HeaderSize] == Be32(|payload|);
    assert b[HeaderSize..HeaderSize + |payload|] == payload;
    assert b[HeaderSize + |payload|..] == rest;
  }

  /** Removing the front frame keeps every reachable header within bounds. */
  lemma ExtractKeepsHeadersFit(c: JsonCodec, buffer: seq<Byte>, docOut: Doc)
    requires HeadersFit(buffer)
    ensures HeadersFit(TryExtractOne(c, buffer, docOut).buffer)
  {
  }

  /** What a drain loop leaves behind: the documents extracted, in wire
      order, and the remaining buffer. */
  datatype Drained = Drained(docs: seq<Doc>, buffer: seq<Byte>)

  /** `while (tryExtractOne(buffer, doc)) { ... }`: extracts documents until
      the first call that answers false.  That call may itself have consumed
      a malformed frame, and any frames after it stay buffered. */
  function Drain(c: JsonCodec, buffer: seq<Byte>): Drained
    requires HeadersFit(buffer)
    decreases |buffer|
  {
    var e := TryExtractOne(c, buffer, NullDoc);
    ExtractKeepsHeadersFit(c, buffer, NullDoc);
    if !e.ok then Drained([], e.buffer)
    else
      var more := Drain(c, e.buffer);
      Drained([e.doc] + more.docs, more.buffer)
  }

  /** The drain loop leaves a buffer whose every header is still within the
      `int` bound. */
  lemma {:induction false} DrainKeepsHeadersFit(c: JsonCodec, buffer: seq<Byte>)
    requires HeadersFit(buffer)
    ensures HeadersFit(Drain(c, buffer).buffer)
    decreases |buffer|
  {
    var e := TryExtractOne(c, buffer, NullDoc);
    ExtractKeepsHeadersFit(c, buffer, NullDoc);
    if e.ok {
      DrainKeepsHeadersFit(c, e.buffer);
    }
  }

  /** `d` is what remains of `a` after bytes were removed from its front. */
  predicate IsSuffix(d: seq<Byte>, a: seq<Byte>)
  {
    |d| <= |a| && d == a[|a| - |d|..]
  }

  /** The drain loop only ever removes bytes from the front: what it leaves
      is a suffix of its input. */
  lemma {:induction false} DrainLeavesSuffix(c: JsonCodec, buffer: seq<Byte>)
    requires HeadersFit(buffer)
    ensures IsSuffix(Drain(c, buffer).buffer, buffer)
    decreases |buffer|
  {
    var e := TryExtractOne(c, buffer, NullDoc);
    ExtractKeepsHeadersFit(c, buffer, NullDoc);
    ExtractLeavesSuffix(c, buffer, NullDoc);
    if e.ok {
      DrainLeavesSuffix(c, e.buffer);
      DrainSuffixStep(c, buffer);
    } else {
      DrainSuffixStop(c, buffer);
    }
  }

  /** The last step of `DrainLeavesSuffix`: the extraction that answers false. */
  lemma DrainSuffixStop(c: JsonCodec, buffer: seq<Byte>)
    requires HeadersFit(buffer)
    requires !TryExtractOne(c, buffer, NullDoc).ok
    requires IsSuffix(TryExtractOne(c, buffer, NullDoc).buffer, buffer)
    ensures IsSuffix(Drain(c, buffer).buffer, buffer)
  {
  }

  /** The inductive step of `DrainLeavesSuffix`. */
  lemma DrainSuffixStep(c: JsonCodec, buffer: seq<Byte>)
    requires HeadersFit(buffer)
    requires TryExtractOne(c, buffer, NullDoc).ok
    requires HeadersFit(TryExtractOne(c, buffer, NullDoc).buffer)
    requires IsSuffix(TryExtractOne(c, buffer, NullDoc).buffer, buffer)
    requires IsSuffix(Drain(c, TryExtractOne(c, buffer, NullDoc).buffer).buffer, TryExtractOne(c, buffer, NullDoc).buffer)
    ensures IsSuffix(Drain(c, buffer).buffer, buffer)
  {
    var e := TryExtractOne(c, buffer, NullDoc);
    SuffixOfSuffix(buffer, e.buffer, Drain(c, e.buffer).buffer);
  }

  /** One extraction removes bytes from the front only. */
  lemma ExtractLeavesSuffix(c: JsonCodec, buffer: seq<Byte>, docOut: Doc)
    requires |buffer| >= HeaderSize ==> DeclaredLen(buffer) <= MaxFrameLen
    ensures IsSuffix(TryExtractOne(c, buffer, docOut).buffer, buffer)
  {
    if !FrameReady(buffer) {
      assert buffer[0..] == buffer;
    }
  }

  /** A suffix of a suffix is a suffix. */
  lemma SuffixOfSuffix(a: seq<Byte>, b: seq<Byte>, d: seq<Byte>)
    requires IsSuffix(b, a) && IsSuffix(d, b)
    ensures IsSuffix(d, a)
  {
    assert a[|a| - |b|..][|b| - |d|..] == a[|a| - |d|..];
  }

  /** The packed frames of `os`, back to back, as successive writes put them
      on the wire. */
  function PackAll(c: JsonCodec, os: seq<JsonObject>): seq<Byte>
  {
    if os == [] then [] else PackJson(c, os[0]) + PackAll(c, os[1..])
  }

  /** Every object of `os` serialises to a payload the decoder can frame. */
  predicate AllFit(c: JsonCodec, os: seq<JsonObject>)
  {
    forall i :: 0 <= i < |os| ==> |c.serialize(os[i])| <= MaxFrameLen
  }

  /** The object documents of `os`, in order. */
  function ObjectDocs(os: seq<JsonObject>): seq<Doc>
  {
    if os == [] then [] else [ObjectDoc(os[0])] + ObjectDocs(os[1..])
  }

  /** A packed object in front of a buffer adds exactly that object in front
      of what the buffer alone drains to. */
  lemma DrainPacked(c: JsonCodec, o: JsonObject, rest: seq<Byte>)
    requires RoundTrips(c)
    requires |c.serialize(o)| <= MaxFrameLen
    requires HeadersFit(rest)
    ensures HeadersFit(PackJson(c, o) + rest)
    ensures Drain(c, PackJson(c, o) + rest) == Drained([ObjectDoc(o)] + Drain(c, rest).docs, Drain(c, rest).buffer)
  {
    var b := PackJson(c, o) + rest;
    ExtractPacked(c, o, rest, NullDoc);
    assert b[..HeaderSize] == PackJson(c, o)[..HeaderSize];
    assert DeclaredLen(b) == |c.serialize(o)|;
    assert b[HeaderSize + DeclaredLen(b)..] == rest;
  }

  /** Multi-frame round trip: draining the frames of `os` followed by `rest`
      yields the objects of `os` in wire order, then whatever `rest` yields. */
  lemma {:induction false} DrainPackedAll(c: JsonCodec, os: seq<JsonObject>, rest: seq<Byte>)
    requires RoundTrips(c)
    requires AllFit(c, os)
    requires HeadersFit(rest)
    ensures HeadersFit(PackAll(c, os) + rest)
    ensures Drain(c, PackAll(c, os) + rest) == Drained(ObjectDocs(os) + Drain(c, rest).docs, Drain(c, rest).buffer)
    decreases |os|
  {
    if os == [] {
      assert PackAll(c, os) + rest == rest;
    } else {
      AllFitTail(c, os);
      DrainPackedAll(c, os[1..], rest);
      DrainPackedCons(c, os, rest);
    }
  }

  lemma AllFitTail(c: JsonCodec, os: seq<JsonObject>)
    requires AllFit(c, os) && os != []
    ensures AllFit(c, os[1..]) && |c.serialize(os[0])| <= MaxFrameLen
  {
    forall i | 0 <= i < |os[1..]| ensures |c.serialize(os[1..][i])| <= MaxFrameLen {
      assert os[1..][i] == os[i + 1];
    }
  }

  /** The inductive step of `DrainPackedAll`: one more frame in front. */
  lemma DrainPackedCons(c: JsonCodec, os: seq<JsonObject>, rest: seq<Byte>)
    requires RoundTrips(c)
    requires os != [] && |c.serialize(os[0])| <= MaxFrameLen
    requires HeadersFit(rest)
    requires HeadersFit(PackAll(c, os[1..]) + rest)
    requires Drain(c, PackAll(c, os[1..]) + rest) == Drained(ObjectDocs(os[1..]) + Drain(c, rest).docs, Drain(c, rest).buffer)
    ensures HeadersFit(PackAll(c, os) + rest)
    ensures Drain(c, PackAll(c, os) + rest) == Drained(ObjectDocs(os) + Drain(c, rest).docs, Drain(c, rest).buffer)
  {
    var tail := PackAll(c, os[1..]) + rest;
    DrainPacked(c, os[0], tail);
    ConcatAssoc(PackJson(c, os[0]), PackAll(c, os[1..]), rest);
    ConcatAssoc([ObjectDoc(os[0])], ObjectDocs(os[1..]), Drain(c, rest).docs);
  }

  lemma ConcatAssoc<T>(a: seq<T>, b: seq<T>, d: seq<T>)
    ensures (a + b) + d == a + (b + d)
  {
  }

  /** A single frame drains to its object and leaves nothing. */
  lemma DrainOnePacked(c: JsonCodec, o: JsonObject)
    requires RoundTrips(c)
    requires |c.serialize(o)| <= MaxFrameLen
    ensures HeadersFit(PackJson(c, o))
    ensures Drain(c, PackJson(c, o)) == Drained([ObjectDoc(o)], [])
  {
    DrainNotReady(c, []);
    DrainPacked(c, o, []);
    assert PackJson(c, o) + [] == PackJson(c, o);
  }

  /** Two frames back to back come out as the two objects in order, and the
      buffer is left empty. */
  lemma DrainTwoFrames(c: JsonCodec, o1: JsonObject, o2: JsonObject)
    requires RoundTrips(c)
    requires |c.serialize(o1)| <= MaxFrameLen && |c.serialize(o2)| <= MaxFrameLen
    ensures HeadersFit(PackJson(c, o1) + PackJson(c, o2))
    ensures Drain(c, PackJson(c, o1) + PackJson(c, o2)) == Drained([ObjectDoc(o1), ObjectDoc(o2)], [])
  {
    DrainOnePacked(c, o2);
    DrainPacked(c, o1, PackJson(c, o2));
    assert [ObjectDoc(o1)] + [ObjectDoc(o2)] == [ObjectDoc(o1), ObjectDoc(o2)];
  }

  /** A buffer without a whole frame at its front drains to nothing and is
      kept as it is. */
  lemma DrainNotReady(c: JsonCodec, buffer: seq<Byte>)
    requires HeadersFit(buffer)
    requires !FrameReady(buffer)
    ensures Drain(c, buffer) == Drained([], buffer)
  {
  }

  /** A malformed frame ends the drain: its bytes are gone, nothing is
      extracted, and every frame behind it stays in the buffer. */
  lemma DrainStopsAtMalformed(c: JsonCodec, payload: seq<Byte>, rest: seq<Byte>)
    requires |payload| <= MaxFrameLen
    requires c.parse(payload).None?
    requires HeadersFit(rest)
    ensures HeadersFit(Frame(payload) + rest)
    ensures Drain(c, Frame(payload) + rest) == Drained([], rest)
  {
    var b := Frame(payload) + rest;
    ExtractMalformed(c, payload, rest, NullDoc);
    Be32RoundTrip(|payload|);
    assert b[..HeaderSize] == Be32(|payload|);
    assert b[HeaderSize + DeclaredLen(b)..] == rest;
  }

  /** Whole frames followed by a trailing partial frame: the objects in wire
      order, and the partial frame stays buffered. */
  lemma DrainPackedThenPartial(c: JsonCodec, os: seq<JsonObject>, partial: seq<Byte>)
    requires RoundTrips(c)
    requires AllFit(c, os)
    requires HeadersFit(partial) && !FrameReady(partial)
    ensures HeadersFit(PackAll(c, os) + partial)
    ensures Drain(c, PackAll(c, os) + partial) == Drained(ObjectDocs(os), partial)
  {
    DrainPackedAll(c, os, partial);
    DrainNotReady(c, partial);
    assert ObjectDocs(os) + [] == ObjectDocs(os);
  }

  /** Whole frames followed by a malformed one: the objects before it in wire
      order, and everything after the malformed frame stays buffered. */
  lemma DrainPackedThenMalformed(c: JsonCodec, os: seq<JsonObject>, bad: seq<Byte>, rest: seq<Byte>)
    requires RoundTrips(c)
    requires AllFit(c, os)
    requires |bad| <= MaxFrameLen && c.parse(bad).None?
    requires HeadersFit(rest)
    ensures HeadersFit(PackAll(c, os) + (Frame(bad) + rest))
    ensures Drain(c, PackAll(c, os) + (Frame(bad) + rest)) == Drained(ObjectDocs(os), rest)
  {
    DrainStopsAtMalformed(c, bad, rest);
    DrainPackedAll(c, os, Frame(bad) + rest);
    assert ObjectDocs(os) + [] == ObjectDocs(os);
  }

  /** A frame whose payload parses, whatever the document, adds that document
      in front of what the rest drains to. */
  lemma DrainParsed(c: JsonCodec, payload: seq<Byte>, rest: seq<Byte>)
    requires |payload| <= MaxFrameLen
    requires c.parse(payload).Some?
    requires HeadersFit(rest)
    ensures HeadersFit(Frame(payload) + rest)
    ensures Drain(c, Frame(payload) + rest) == Drained([c.parse(payload).value] + Drain(c, rest).docs, Drain(c, rest).buffer)
  {
    var b := Frame(payload) + rest;
    Be32RoundTrip(|payload|);
    assert b[..HeaderSize] == Be32(|payload|);
    assert b[HeaderSize..HeaderSize + |payload|] == payload;
    assert b[HeaderSize + |payload|..] == rest;
  }

  /** Any parsed frame followed by a packed object drains to both documents,
      in order, leaving nothing behind. */
  lemma DrainParsedThenPacked(c: JsonCodec, payload: seq<Byte>, o: JsonObject)
    requires RoundTrips(c)
    requires |payload| <= MaxFrameLen && c.parse(payload).Some?
    requires |c.serialize(o)| <= MaxFrameLen
    ensures HeadersFit(Frame(payload) + PackJson(c, o))
    ensures Drain(c, Frame(payload) + PackJson(c, o)) == Drained([c.parse(payload).value, ObjectDoc(o)], [])
  {
    DrainOnePacked(c, o);
    DrainParsed(c, payload, PackJson(c, o));
    assert [c.parse(payload).value] + [ObjectDoc(o)] == [c.parse(payload).value, ObjectDoc(o)];
  }
}
