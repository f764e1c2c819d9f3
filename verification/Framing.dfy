/**
 The length-prefixed read loop shared by client_socket_read_cb and work_server_socket_read_cb: a
 four-byte little-endian length, then that many bytes, as often as a whole frame is buffered.

 Drain is the loop as far as framing goes; DrainParsed is the loop with its early return.
 */
module Framing {
  type Byte = n: nat | n < 256

  const HEAD: nat := 4
  const BUFFER: nat := 1024

  /** Messages shorter than the buffer they are read into; longer ones overrun it. */
  predicate AllShort(msgs: seq<seq<Byte>>) {
    forall i | 0 <= i < |msgs| :: |msgs[i]| < BUFFER
  }

  predicate NulFree(msg: seq<Byte>) {
    forall i | 0 <= i < |msg| :: msg[i] != 0
  }

  /** A sender's Head: an int as it lies in memory. */
  function EncodeLength(n: int): (r: seq<Byte>)
    requires -0x8000_0000 <= n < 0x8000_0000
    ensures |r| == HEAD
  {
    var u := if n < 0 then n + 0x1_0000_0000 else n;
    [(u % 256) as Byte, (u / 256 % 256) as Byte, (u / 65536 % 256) as Byte, (u / 16777216) as Byte]
  }

  /** The int at the front of buf, as two's complement. */
  function DecodeLength(buf: seq<Byte>): (r: int)
    requires |buf| >= HEAD
    ensures -0x8000_0000 <= r < 0x8000_0000
  {
    var u := buf[0] as int + 256 * buf[1] as int + 65536 * buf[2] as int + 16777216 * buf[3] as int;
    if u >= 0x8000_0000 then u - 0x1_0000_0000 else u
  }

  function Encode(msg: seq<Byte>): seq<Byte>
    requires |msg| < BUFFER
  {
    EncodeLength(|msg|) + msg
  }

  function EncodeAll(msgs: seq<seq<Byte>>): seq<Byte>
    requires AllShort(msgs)
  {
    if msgs == [] then [] else Encode(msgs[0]) + EncodeAll(msgs[1..])
  }

  /** std::string(buffer): the bytes up to the first NUL. */
  function CString(bytes: seq<Byte>): (r: seq<Byte>) {
    if bytes == [] || bytes[0] == 0 then [] else [bytes[0]] + CString(bytes[1..])
  }

  /** The messages as the receiver sees them. */
  function Texts(msgs: seq<seq<Byte>>): seq<seq<Byte>> {
    seq(|msgs|, i requires 0 <= i < |msgs| => CString(msgs[i]))
  }

  /** An int where the source computes with it as a size_t. */
  function SizeT(n: int): nat
    requires -0x8000_0000 <= n
  {
    if n < 0 then n + 0x1_0000_0000_0000_0000 else n
  }

  /** How many bytes bufferevent_read takes behind the header: what the length says, or all there are. */
  function Taken(buf: seq<Byte>): (n: nat)
    requires |buf| >= HEAD
    ensures n <= |buf| - HEAD
  {
    var length := SizeT(DecodeLength(buf));
    if length < |buf| - HEAD then length else |buf| - HEAD
  }

  /** The loop takes a frame: its guards let it, and what it takes does not overrun the buffer. */
  predicate HasFrame(buf: seq<Byte>) {
    |buf| >= HEAD && |buf| >= SizeT(HEAD + DecodeLength(buf)) && Taken(buf) < BUFFER
  }

  function FrameLength(buf: seq<Byte>): (n: nat)
    requires HasFrame(buf)
    ensures HEAD <= n <= |buf|
  {
    HEAD + Taken(buf)
  }

  /**
   A frame of a length from 0 on is taken when it is there; one of -4 to -1 passes the guard, which
   wraps round, and takes everything; below that the loop waits for good.
   */
  lemma FrameCases(buf: seq<Byte>)
    requires |buf| >= HEAD
    ensures var d := DecodeLength(buf);
      && (d >= 0 ==> (HasFrame(buf) <==> d < BUFFER && HEAD + d <= |buf|))
      && (d >= 0 && HasFrame(buf) ==> FrameLength(buf) == HEAD + d)
      && (d < 0 <= HEAD + d ==> (HasFrame(buf) <==> |buf| < HEAD + BUFFER))
      && (d < 0 <= HEAD + d && HasFrame(buf) ==> FrameLength(buf) == |buf|)
      && (HEAD + d < 0 ==> !HasFrame(buf))
  {
  }

  /** The messages taken off the buffer by one run of the loop, in order, and what stays in it. */
  function Drain(buf: seq<Byte>): (seq<seq<Byte>>, seq<Byte>)
    decreases |buf|
  {
    if !HasFrame(buf) then ([], buf) else
      var n := FrameLength(buf);
      var (rest, left) := Drain(buf[n..]);
      ([CString(buf[HEAD..n])] + rest, left)
  }

  /** Everything taken off when the bytes arrive in the given pieces, the loop running after each. */
  function Feed(buf: seq<Byte>, arrivals: seq<seq<Byte>>): (seq<seq<Byte>>, seq<Byte>)
    decreases |arrivals|
  {
    if arrivals == [] then ([], buf) else
      var (first, left) := Drain(buf + arrivals[0]);
      var (rest, left') := Feed(left, arrivals[1..]);
      (first + rest, left')
  }

  function Concat(pieces: seq<seq<Byte>>): seq<Byte> {
    if pieces == [] then [] else pieces[0] + Concat(pieces[1..])
  }

  /** Every length that can be sent is read as it was sent. */
  lemma DecodeEncode(n: int, tail: seq<Byte>)
    requires -0x8000_0000 <= n < 0x8000_0000
    ensures DecodeLength(EncodeLength(n) + tail) == n
  {
    var e := EncodeLength(n) + tail;
    var u := if n < 0 then n + 0x1_0000_0000 else n;
    assert e[0] as int == u % 256 && e[1] as int == u / 256 % 256;
    assert e[2] as int == u / 65536 % 256 && e[3] as int == u / 16777216;
    assert u / 65536 == u / 256 / 256 && u / 16777216 == u / 65536 / 256;
  }

  /** A message as a C string: all of it if it has no NUL, else exactly the bytes before the first one. */
  lemma {:induction false} CStringIs(bytes: seq<Byte>)
    ensures var n := |CString(bytes)|;
      && n <= |bytes| && CString(bytes) == bytes[..n] && NulFree(bytes[..n])
      && (n < |bytes| ==> bytes[n] == 0)
  {
    if bytes != [] && bytes[0] != 0 {
      CStringIs(bytes[1..]);
      var n := |CString(bytes)|;
      assert bytes[..n] == [bytes[0]] + bytes[1..][..n - 1];
    }
  }

  lemma {:induction false} CStringWhole(bytes: seq<Byte>)
    ensures |CString(bytes)| <= |bytes|
    ensures CString(bytes) == bytes <==> NulFree(bytes)
  {
    if bytes != [] {
      CStringWhole(bytes[1..]);
      if bytes[0] != 0 {
        assert CString(bytes)[1..] == CString(bytes[1..]);
        if NulFree(bytes[1..]) {
          assert forall i | 0 < i < |bytes| :: bytes[i] == bytes[1..][i - 1];
        }
      }
    }
  }

  lemma DecodePrefix(buf: seq<Byte>, more: seq<Byte>)
    requires |buf| >= HEAD
    ensures DecodeLength(buf + more) == DecodeLength(buf)
  {
    assert forall i | 0 <= i < HEAD :: (buf + more)[i] == buf[i];
  }

  /** More bytes behind a buffered frame leave the frame as it is. */
  lemma FrameStays(buf: seq<Byte>, more: seq<Byte>)
    requires HasFrame(buf) && DecodeLength(buf) >= 0
    ensures HasFrame(buf + more) && FrameLength(buf + more) == FrameLength(buf)
    ensures (buf + more)[HEAD..FrameLength(buf)] == buf[HEAD..FrameLength(buf)]
    ensures (buf + more)[FrameLength(buf)..] == buf[FrameLength(buf)..] + more
  {
    DecodePrefix(buf, more);
    FrameCases(buf);
    FrameCases(buf + more);
  }

  /** The loop meets no length from -4 to -1 with bytes behind it. */
  predicate WellSized(buf: seq<Byte>)
    decreases |buf|
  {
    if |buf| < HEAD then true
    else if DecodeLength(buf) < 0 then HEAD + DecodeLength(buf) < 0 || |buf| == HEAD
    else if !HasFrame(buf) then true
    else WellSized(buf[FrameLength(buf)..])
  }

  /** Behind a frame the stream is as well sized as it was. */
  lemma WellSizedStep(buf: seq<Byte>, more: seq<Byte>)
    requires WellSized(buf + more) && HasFrame(buf)
    ensures if DecodeLength(buf) < 0 then more == [] && FrameLength(buf) == |buf|
      else WellSized(buf[FrameLength(buf)..] + more)
  {
    DecodePrefix(buf, more);
    FrameCases(buf);
    if DecodeLength(buf) >= 0 {
      FrameStays(buf, more);
    }
  }

  /** Draining in two goes takes off what draining once takes off. */
  lemma {:induction false} DrainConcat(buf: seq<Byte>, more: seq<Byte>)
    requires WellSized(buf + more)
    ensures Drain(buf + more) == (Drain(buf).0 + Drain(Drain(buf).1 + more).0, Drain(Drain(buf).1 + more).1)
    ensures WellSized(Drain(buf).1 + more)
    decreases |buf|
  {
    if !HasFrame(buf) {
      assert [] + Drain(buf + more).0 == Drain(buf + more).0;
      return;
    }
    WellSizedStep(buf, more);
    if DecodeLength(buf) < 0 {
      DrainsAll(buf);
      NothingMore(buf, more);
    } else {
      FrameStays(buf, more);
      DrainConcat(buf[FrameLength(buf)..], more);
      DrainConcatStep(buf, more);
    }
  }

  lemma DrainConcatStep(buf: seq<Byte>, more: seq<Byte>)
    requires HasFrame(buf) && HasFrame(buf + more) && FrameLength(buf + more) == FrameLength(buf)
    requires (buf + more)[HEAD..FrameLength(buf)] == buf[HEAD..FrameLength(buf)]
    requires (buf + more)[FrameLength(buf)..] == buf[FrameLength(buf)..] + more
    requires var rest := buf[FrameLength(buf)..];
      Drain(rest + more) == (Drain(rest).0 + Drain(Drain(rest).1 + more).0, Drain(Drain(rest).1 + more).1)
    ensures Drain(buf).1 == Drain(buf[FrameLength(buf)..]).1
    ensures Drain(buf + more) == (Drain(buf).0 + Drain(Drain(buf).1 + more).0, Drain(Drain(buf).1 + more).1)
  {
    DrainStep(buf);
    DrainStep(buf + more);
    hide HasFrame, FrameLength, Drain, CString;
    var n := FrameLength(buf);
    var rest := buf[n..];
    Prepend(CString(buf[HEAD..n]), Drain(rest).0, Drain(Drain(rest).1 + more).0);
  }

  lemma DrainStep(buf: seq<Byte>)
    requires HasFrame(buf)
    ensures var n := FrameLength(buf);
      Drain(buf) == ([CString(buf[HEAD..n])] + Drain(buf[n..]).0, Drain(buf[n..]).1)
  {
  }

  lemma Prepend<T>(a: T, b: seq<T>, c: seq<T>)
    ensures [a] + (b + c) == ([a] + b) + c
  {
  }

  lemma DrainsAll(buf: seq<Byte>)
    requires HasFrame(buf) && FrameLength(buf) == |buf|
    ensures Drain(buf).1 == []
  {
    assert |buf[|buf|..]| == 0;
  }

  lemma NothingMore(buf: seq<Byte>, more: seq<Byte>)
    requires |more| == 0 && Drain(buf).1 == []
    ensures Drain(buf + more) == (Drain(buf).0 + Drain(Drain(buf).1 + more).0, Drain(Drain(buf).1 + more).1)
    ensures WellSized(Drain(buf).1 + more)
  {
    var none := Drain(buf).1 + more;
    assert |none| == 0 && Drain(none).0 == [] && Drain(none).1 == none;
    hide Drain;
    assert buf + more == buf;
    assert Drain(buf).0 + Drain(none).0 == Drain(buf).0;
    assert Drain(none).1 == Drain(buf).1;
  }

  /** After a run of the loop no whole frame is left. */
  lemma {:induction false} DrainIsComplete(buf: seq<Byte>)
    ensures !HasFrame(Drain(buf).1)
    decreases |buf|
  {
    if HasFrame(buf) {
      DrainIsComplete(buf[FrameLength(buf)..]);
    }
  }

  /** However well sized bytes are cut into arrivals, the loop takes off what it would of all at once. */
  lemma {:induction false} FeedIsDrain(buf: seq<Byte>, arrivals: seq<seq<Byte>>)
    requires !HasFrame(buf) && WellSized(buf + Concat(arrivals))
    ensures Feed(buf, arrivals) == Drain(buf + Concat(arrivals))
    decreases |arrivals|
  {
    hide HasFrame, WellSized;
    if arrivals == [] {
      assert buf + [] == buf;
    } else {
      hide Drain;
      FeedOne(buf, arrivals);
      var left := Drain(buf + arrivals[0]).1;
      assert buf + Concat(arrivals) == buf + arrivals[0] + Concat(arrivals[1..]);
      DrainIsComplete(buf + arrivals[0]);
      DrainConcat(buf + arrivals[0], Concat(arrivals[1..]));
      FeedIsDrain(left, arrivals[1..]);
    }
  }

  lemma FeedOne(buf: seq<Byte>, arrivals: seq<seq<Byte>>)
    requires arrivals != []
    ensures var d := Drain(buf + arrivals[0]);
      Feed(buf, arrivals) == (d.0 + Feed(d.1, arrivals[1..]).0, Feed(d.1, arrivals[1..]).1)
  {
  }

  /** Where the stream is not well sized: behind the header that takes everything. */
  lemma {:induction false} CutBehind(buf: seq<Byte>) returns (k: nat)
    requires !WellSized(buf)
    ensures k < |buf| && Drain(buf[..k]).1 == []
    ensures |Drain(buf).0| <= |Drain(buf[..k]).0|
    ensures |Drain(buf).0| == |Drain(buf[..k]).0| ==> Drain(buf).1 == []
    decreases |buf|
  {
    hide Drain, WellSized, HasFrame, CString, DecodeLength, FrameLength;
    IllSized(buf);
    if DecodeLength(buf) < 0 {
      OnlyHeader(buf);
      return HEAD;
    }
    var j := CutBehind(buf[FrameLength(buf)..]);
    k := FrameLength(buf) + j;
    CutStep(buf, j);
    DrainStep(buf);
  }

  lemma IllSized(buf: seq<Byte>)
    requires !WellSized(buf)
    ensures |buf| >= HEAD
    ensures DecodeLength(buf) < 0 ==> |buf| > HEAD && HEAD + DecodeLength(buf) >= 0
    ensures DecodeLength(buf) >= 0 ==> HasFrame(buf) && !WellSized(buf[FrameLength(buf)..])
  {
  }

  lemma CutStep(buf: seq<Byte>, j: nat)
    requires HasFrame(buf) && DecodeLength(buf) >= 0 && FrameLength(buf) + j <= |buf|
    ensures var n := FrameLength(buf);
      var rest := Drain(buf[n..][..j]);
      Drain(buf[..n + j]) == ([CString(buf[HEAD..n])] + rest.0, rest.1)
  {
    var n := FrameLength(buf);
    var part := buf[..n + j];
    assert part + buf[n + j..] == buf && part[n..] == buf[n..][..j] && part[HEAD..n] == buf[HEAD..n];
    DecodePrefix(part, buf[n + j..]);
    FrameCases(part);
    FrameCases(buf);
    DrainStep(part);
    hide Drain;
  }

  lemma OnlyHeader(buf: seq<Byte>)
    requires |buf| > HEAD && DecodeLength(buf) < 0 <= HEAD + DecodeLength(buf)
    ensures |Drain(buf[..HEAD]).0| == 1 && Drain(buf[..HEAD]).1 == []
    ensures if HasFrame(buf) then |Drain(buf).0| == 1 && Drain(buf).1 == [] else Drain(buf).0 == []
  {
    var head := buf[..HEAD];
    assert head + buf[HEAD..] == buf;
    DecodePrefix(head, buf[HEAD..]);
    FrameCases(head);
    FrameCases(buf);
    assert head[HEAD..] == [] && buf[|buf|..] == [];
    var none: seq<Byte> := [];
    assert !HasFrame(none) && Drain(none) == ([], none);
  }

  ghost predicate SameFrames(bytes: seq<Byte>) {
    forall a {:trigger Concat(a)} | Concat(a) == bytes :: Feed([], a) == Drain(bytes)
  }

  /**
   The frames extracted, and the bytes left, are the same however the bytes arrive, exactly when the
   stream is well sized.
   */
  lemma FramesExact(bytes: seq<Byte>)
    ensures SameFrames(bytes) <==> WellSized(bytes)
  {
    var none: seq<Byte> := [];
    if WellSized(bytes) {
      forall a | Concat(a) == bytes ensures Feed([], a) == Drain(bytes) {
        assert none + Concat(a) == Concat(a);
        FeedIsDrain(none, a);
      }
    } else {
      var k := CutBehind(bytes);
      FeedInTwo(bytes, k);
      DrainsNothing(bytes[k..]);
    }
  }

  lemma FeedInTwo(bytes: seq<Byte>, k: nat)
    requires k < |bytes| && Drain(bytes[..k]).1 == []
    ensures var a := [bytes[..k], bytes[k..]];
      Concat(a) == bytes && Feed([], a) == (Drain(bytes[..k]).0 + Drain(bytes[k..]).0, Drain(bytes[k..]).1)
  {
    hide Drain, HasFrame;
    var head, tail := bytes[..k], bytes[k..];
    var a := [head, tail];
    var last := [tail];
    assert a[1..] == last && head + tail == bytes;
    FeedLast(tail);
    FeedOne([], a);
    assert [] + head == head;
  }

  lemma FeedLast(bytes: seq<Byte>)
    ensures Concat([bytes]) == bytes && Feed([], [bytes]) == Drain(bytes)
  {
    hide Drain, HasFrame;
    var last := [bytes];
    var none: seq<Byte> := [];
    assert |last[1..]| == 0;
    assert Concat(last[1..]) == none && bytes + none == bytes && none + bytes == bytes;
    FeedOne(none, last);
    assert Drain(bytes).0 + [] == Drain(bytes).0;
  }

  lemma DrainsNothing(buf: seq<Byte>)
    ensures Drain(buf).0 == [] ==> Drain(buf).1 == buf
  {
  }

  lemma {:induction false} EncodedWellSized(msgs: seq<seq<Byte>>)
    requires AllShort(msgs)
    ensures WellSized(EncodeAll(msgs))
  {
    if msgs != [] {
      FirstFrame(msgs);
      EncodedWellSized(msgs[1..]);
    }
  }

  lemma {:induction false} DrainEncoded(msgs: seq<seq<Byte>>)
    requires AllShort(msgs)
    ensures Drain(EncodeAll(msgs)) == (Texts(msgs), [])
  {
    hide Drain, HasFrame, CString;
    if msgs == [] {
      DrainNone();
      assert Texts(msgs) == [];
    } else {
      FirstFrame(msgs);
      DrainStep(EncodeAll(msgs));
      DrainEncoded(msgs[1..]);
      TextsFirst(msgs);
    }
  }

  lemma DrainNone()
    ensures Drain([]) == ([], [])
  {
  }

  lemma TextsFirst(msgs: seq<seq<Byte>>)
    requires msgs != []
    ensures Texts(msgs) == [CString(msgs[0])] + Texts(msgs[1..])
  {
  }

  lemma FrameOf(msg: seq<Byte>, tail: seq<Byte>)
    requires |msg| < BUFFER
    ensures var buf := Encode(msg) + tail;
      && HasFrame(buf) && FrameLength(buf) == HEAD + |msg| && DecodeLength(buf) >= 0
      && buf[HEAD..FrameLength(buf)] == msg && buf[FrameLength(buf)..] == tail
  {
    var buf := Encode(msg) + tail;
    assert buf == EncodeLength(|msg|) + (msg + tail);
    DecodeEncode(|msg|, msg + tail);
    FrameCases(buf);
  }

  /** An encoded stream begins with the frame of its first message. */
  lemma FirstFrame(msgs: seq<seq<Byte>>)
    requires AllShort(msgs) && msgs != []
    ensures var buf := EncodeAll(msgs);
      && HasFrame(buf) && DecodeLength(buf) >= 0
      && buf[HEAD..FrameLength(buf)] == msgs[0]
      && AllShort(msgs[1..]) && buf[FrameLength(buf)..] == EncodeAll(msgs[1..])
  {
    FrameOf(msgs[0], EncodeAll(msgs[1..]));
  }

  /**
   The frames extracted do not depend on how the bytes arrive: for any cut of the encoded messages
   into arrivals they are the messages, each up to its first NUL, in order, with no byte left over.
   */
  lemma ChunkingDoesNotMatter(msgs: seq<seq<Byte>>, arrivals: seq<seq<Byte>>)
    requires AllShort(msgs)
    requires Concat(arrivals) == EncodeAll(msgs)
    ensures Feed([], arrivals) == (Texts(msgs), [])
  {
    assert [] + Concat(arrivals) == Concat(arrivals);
    EncodedWellSized(msgs);
    FeedIsDrain([], arrivals);
    DrainEncoded(msgs);
  }

  /** What was sent is what is received exactly when no message contains a NUL. */
  lemma TextsExact(msgs: seq<seq<Byte>>)
    ensures Texts(msgs) == msgs <==> forall i | 0 <= i < |msgs| :: NulFree(msgs[i])
  {
    forall i | 0 <= i < |msgs| ensures Texts(msgs)[i] == msgs[i] <==> NulFree(msgs[i]) {
      CStringWhole(msgs[i]);
    }
  }

  // ----- messages that do not parse

  /** The loop as it stands: it consumes a message that does not parse, and returns. */
  function DrainParsed(buf: seq<Byte>, parses: seq<Byte> -> bool): (seq<seq<Byte>>, seq<Byte>)
    decreases |buf|
  {
    if !HasFrame(buf) then ([], buf) else
      var n := FrameLength(buf);
      var msg := CString(buf[HEAD..n]);
      if !parses(msg) then ([], buf[n..]) else
        var (rest, left) := DrainParsed(buf[n..], parses);
        ([msg] + rest, left)
  }

  function FeedParsed(buf: seq<Byte>, arrivals: seq<seq<Byte>>, parses: seq<Byte> -> bool): (seq<seq<Byte>>, seq<Byte>)
    decreases |arrivals|
  {
    if arrivals == [] then ([], buf) else
      var (first, left) := DrainParsed(buf + arrivals[0], parses);
      var (rest, left') := FeedParsed(left, arrivals[1..], parses);
      (first + rest, left')
  }

  function Parsed(msgs: seq<seq<Byte>>, parses: seq<Byte> -> bool): seq<seq<Byte>> {
    if msgs == [] then [] else (if parses(msgs[0]) then [msgs[0]] else []) + Parsed(msgs[1..], parses)
  }

  lemma {:induction false} ParsedConcat(a: seq<seq<Byte>>, b: seq<seq<Byte>>, parses: seq<Byte> -> bool)
    ensures Parsed(a + b, parses) == Parsed(a, parses) + Parsed(b, parses)
  {
    if a == [] {
      assert a + b == b;
    } else {
      assert (a + b)[1..] == a[1..] + b;
      ParsedConcat(a[1..], b, parses);
    }
  }

  lemma {:induction false} ParsedNone(texts: seq<seq<Byte>>, parses: seq<Byte> -> bool)
    ensures Parsed(texts, parses) == [] <==> forall i | 0 <= i < |texts| :: !parses(texts[i])
  {
    if texts != [] {
      ParsedNone(texts[1..], parses);
      assert forall i | 0 < i < |texts| :: texts[i] == texts[1..][i - 1];
    }
  }

  /** One run of the loop on the first part of an encoded stream takes whole messages off it. */
  lemma {:induction false} DrainPrefix(buf: seq<Byte>, more: seq<Byte>, msgs: seq<seq<Byte>>, parses: seq<Byte> -> bool)
      returns (j: nat)
    requires AllShort(msgs) && buf + more == EncodeAll(msgs)
    ensures j <= |msgs| && DrainParsed(buf, parses).0 == Parsed(Texts(msgs)[..j], parses)
    ensures AllShort(msgs[j..]) && DrainParsed(buf, parses).1 + more == EncodeAll(msgs[j..])
    ensures HasFrame(DrainParsed(buf, parses).1) ==> j > 0 && !parses(Texts(msgs)[j - 1])
    decreases |buf|
  {
    if !HasFrame(buf) {
      assert msgs[0..] == msgs;
      return 0;
    }
    FirstFrame(msgs);
    DecodePrefix(buf, more);
    FrameStays(buf, more);
    var n, texts := FrameLength(buf), Texts(msgs);
    assert CString(buf[HEAD..n]) == texts[0];
    if !parses(texts[0]) {
      assert texts[..1] == [texts[0]];
      return 1;
    }
    var k := DrainPrefix(buf[n..], more, msgs[1..], parses);
    assert texts[1..] == Texts(msgs[1..]);
    assert texts[..k + 1][1..] == texts[1..][..k];
    assert msgs[1..][k..] == msgs[k + 1..];
    j := k + 1;
  }

  lemma TextsFrom(msgs: seq<seq<Byte>>, i: nat)
    requires i <= |msgs|
    ensures |Texts(msgs)| == |msgs| && Texts(msgs[i..]) == Texts(msgs)[i..]
  {
  }

  lemma JoinPrefixes(texts: seq<seq<Byte>>, i: nat, k: nat, parses: seq<Byte> -> bool)
    requires i + k <= |texts|
    ensures Parsed(texts[..i], parses) + Parsed(texts[i..][..k], parses) == Parsed(texts[..i + k], parses)
  {
    assert texts[..i + k] == texts[..i] + texts[i..][..k];
    ParsedConcat(texts[..i], texts[i..][..k], parses);
  }

  /**
   However an encoded stream is cut, whole messages are taken off it from the front, and if some are
   left the last one taken does not parse (or a whole frame was there to begin with).
   */
  lemma {:induction false} FeedPrefix(
      buf: seq<Byte>, arrivals: seq<seq<Byte>>, msgs: seq<seq<Byte>>, parses: seq<Byte> -> bool) returns (j: nat)
    requires AllShort(msgs) && buf + Concat(arrivals) == EncodeAll(msgs)
    ensures j <= |msgs| && AllShort(msgs[j..])
    ensures FeedParsed(buf, arrivals, parses) == (Parsed(Texts(msgs)[..j], parses), EncodeAll(msgs[j..]))
    ensures j < |msgs| ==> if j == 0 then HasFrame(buf) else !parses(Texts(msgs)[j - 1])
    decreases |arrivals|
  {
    hide HasFrame, DrainParsed, Parsed, Texts;
    if arrivals == [] {
      assert buf + [] == buf && msgs[0..] == msgs;
      assert Parsed(Texts(msgs)[..0], parses) == [] by {
        ParsedNone(Texts(msgs)[..0], parses);
      }
      if msgs != [] {
        FirstFrame(msgs);
      }
      return 0;
    }
    var rest, texts := Concat(arrivals[1..]), Texts(msgs);
    assert buf + Concat(arrivals) == (buf + arrivals[0]) + rest;
    var i := DrainPrefix(buf + arrivals[0], rest, msgs, parses);
    var left := DrainParsed(buf + arrivals[0], parses).1;
    var k := FeedPrefix(left, arrivals[1..], msgs[i..], parses);
    TextsFrom(msgs, i);
    assert msgs[i..][k..] == msgs[i + k..];
    JoinPrefixes(texts, i, k, parses);
    j := i + k;
  }

  /** The arrivals are the encoded messages, cut somehow. */
  predicate Cuts(arrivals: seq<seq<Byte>>, msgs: seq<seq<Byte>>)
    requires AllShort(msgs)
  {
    Concat(arrivals) == EncodeAll(msgs)
  }

  // What is delivered.

  ghost predicate SameDelivery(msgs: seq<seq<Byte>>, parses: seq<Byte> -> bool)
    requires AllShort(msgs)
  {
    forall a, b {:trigger Cuts(a, msgs), Cuts(b, msgs)} | Cuts(a, msgs) && Cuts(b, msgs) ::
      FeedParsed([], a, parses).0 == FeedParsed([], b, parses).0
  }

  /** No message that does not parse comes before one that does. */
  predicate GoodFirst(texts: seq<seq<Byte>>, parses: seq<Byte> -> bool) {
    forall i, j | 0 <= i < j < |texts| && parses(texts[j]) :: parses(texts[i])
  }

  lemma AllDelivered(msgs: seq<seq<Byte>>, arrivals: seq<seq<Byte>>, parses: seq<Byte> -> bool)
    requires AllShort(msgs) && GoodFirst(Texts(msgs), parses) && Cuts(arrivals, msgs)
    ensures FeedParsed([], arrivals, parses).0 == Parsed(Texts(msgs), parses)
  {
    var texts := Texts(msgs);
    assert [] + Concat(arrivals) == Concat(arrivals);
    var j := FeedPrefix([], arrivals, msgs, parses);
    assert !HasFrame([]);
    hide FeedParsed, Parsed, Texts, HasFrame, Cuts;
    if j < |texts| {
      RestUnparsed(texts, j, parses);
    } else {
      assert texts[..j] == texts;
    }
  }

  lemma RestUnparsed(texts: seq<seq<Byte>>, j: nat, parses: seq<Byte> -> bool)
    requires GoodFirst(texts, parses) && 0 < j < |texts| && !parses(texts[j - 1])
    ensures Parsed(texts[..j], parses) == Parsed(texts, parses)
  {
    hide Parsed;
    var rest := texts[j..];
    assert texts == texts[..j] + rest;
    ParsedConcat(texts[..j], rest, parses);
    forall i | 0 <= i < |rest| ensures !parses(rest[i]) {
      assert rest[i] == texts[j + i];
    }
    ParsedNone(rest, parses);
    assert Parsed(texts[..j], parses) + Parsed(rest, parses) == Parsed(texts[..j], parses);
  }

  /** Each message by itself. */
  function Frames(msgs: seq<seq<Byte>>): seq<seq<Byte>>
    requires AllShort(msgs)
  {
    if msgs == [] then [] else [Encode(msgs[0])] + Frames(msgs[1..])
  }

  lemma {:induction false} FramesDeliverAll(msgs: seq<seq<Byte>>, parses: seq<Byte> -> bool)
    requires AllShort(msgs)
    ensures Cuts(Frames(msgs), msgs)
    ensures FeedParsed([], Frames(msgs), parses).0 == Parsed(Texts(msgs), parses)
    decreases |msgs|
  {
    if msgs != [] {
      FramesDeliverAll(msgs[1..], parses);
      hide CString, Encode, DrainParsed, Parsed, HasFrame;
      var one := Encode(msgs[0]);
      OneFrame(msgs[0], parses);
      assert [] + one == one;
      assert Frames(msgs)[0] == one && Frames(msgs)[1..] == Frames(msgs[1..]);
      assert Texts(msgs)[0] == CString(msgs[0]) && Texts(msgs)[1..] == Texts(msgs[1..]);
      ParsedFirst(Texts(msgs), parses);
    }
  }

  lemma ParsedFirst(texts: seq<seq<Byte>>, parses: seq<Byte> -> bool)
    requires texts != []
    ensures Parsed(texts, parses) == (if parses(texts[0]) then [texts[0]] else []) + Parsed(texts[1..], parses)
  {
  }

  lemma OneFrame(msg: seq<Byte>, parses: seq<Byte> -> bool)
    requires |msg| < BUFFER
    ensures DrainParsed(Encode(msg), parses).0 == if parses(CString(msg)) then [CString(msg)] else []
    ensures DrainParsed(Encode(msg), parses).1 == []
  {
    hide DrainParsed, DecodeLength, CString, EncodeLength;
    var one := Encode(msg);
    DecodeEncode(|msg|, msg);
    FrameCases(one);
    assert one[HEAD..HEAD + |msg|] == msg;
    var none := one[HEAD + |msg|..];
    assert |none| == 0;
    assert HasFrame(one) && !HasFrame(none);
    hide HasFrame, Encode;
    DrainParsedStep(one, parses);
    DrainParsedStep(none, parses);
  }

  /** Everything at once: nothing behind the first message that does not parse is delivered. */
  lemma {:induction false} OnceDeliversLess(msgs: seq<seq<Byte>>, parses: seq<Byte> -> bool)
    requires AllShort(msgs) && !GoodFirst(Texts(msgs), parses)
    ensures DrainParsed(EncodeAll(msgs), parses).0 != Parsed(Texts(msgs), parses)
    decreases |msgs|
  {
    FirstFrame(msgs);
    DrainParsedStep(EncodeAll(msgs), parses);
    hide DrainParsed, HasFrame, EncodeAll, CString;
    var texts := Texts(msgs);
    assert texts[0] == CString(msgs[0]);
    var i, j :| 0 <= i < j < |texts| && parses(texts[j]) && !parses(texts[i]);
    if parses(texts[0]) {
      assert texts[1..] == Texts(msgs[1..]);
      assert texts[1..][i - 1] == texts[i] && texts[1..][j - 1] == texts[j];
      OnceDeliversLess(msgs[1..], parses);
      var got := DrainParsed(EncodeAll(msgs), parses).0;
      assert got[1..] == DrainParsed(EncodeAll(msgs[1..]), parses).0;
      assert Parsed(texts, parses)[1..] == Parsed(texts[1..], parses);
    } else {
      ParsedNone(texts, parses);
    }
  }

  lemma OnceIsDrain(msgs: seq<seq<Byte>>, parses: seq<Byte> -> bool)
    requires AllShort(msgs)
    ensures Cuts([EncodeAll(msgs)], msgs)
    ensures FeedParsed([], [EncodeAll(msgs)], parses) == DrainParsed(EncodeAll(msgs), parses)
  {
    var all := EncodeAll(msgs);
    var once := [all];
    assert once[1..] == [] && all + [] == all && [] + all == all;
    assert DrainParsed(all, parses).0 + [] == DrainParsed(all, parses).0;
  }

  /**
   What is delivered does not depend on how the bytes arrive exactly when no message that does not
   parse comes before one that does; it is then every message that parses.
   */
  lemma DeliveryExact(msgs: seq<seq<Byte>>, parses: seq<Byte> -> bool)
    requires AllShort(msgs)
    ensures SameDelivery(msgs, parses) <==> GoodFirst(Texts(msgs), parses)
    ensures GoodFirst(Texts(msgs), parses) ==>
      forall a {:trigger Cuts(a, msgs)} | Cuts(a, msgs) :: FeedParsed([], a, parses).0 == Parsed(Texts(msgs), parses)
  {
    if GoodFirst(Texts(msgs), parses) {
      forall a | Cuts(a, msgs) ensures FeedParsed([], a, parses).0 == Parsed(Texts(msgs), parses) {
        AllDelivered(msgs, a, parses);
      }
    } else {
      FramesDeliverAll(msgs, parses);
      OnceIsDrain(msgs, parses);
      OnceDeliversLess(msgs, parses);
      assert Cuts([EncodeAll(msgs)], msgs) && Cuts(Frames(msgs), msgs);
    }
  }

  // What is left in the buffer.

  ghost predicate NothingLeft(msgs: seq<seq<Byte>>, parses: seq<Byte> -> bool)
    requires AllShort(msgs)
  {
    forall a {:trigger Cuts(a, msgs)} | Cuts(a, msgs) :: FeedParsed([], a, parses).1 == []
  }

  predicate AllButLast(texts: seq<seq<Byte>>, parses: seq<Byte> -> bool) {
    forall i | 0 <= i < |texts| - 1 :: parses(texts[i])
  }

  /** A message that does not parse strands what arrived with it, until more arrives. */
  lemma {:induction false} BadMessageStrands(msgs: seq<seq<Byte>>, parses: seq<Byte> -> bool)
    requires AllShort(msgs) && !AllButLast(Texts(msgs), parses)
    ensures DrainParsed(EncodeAll(msgs), parses).1 != []
    decreases |msgs|
  {
    FirstFrame(msgs);
    var texts := Texts(msgs);
    var i :| 0 <= i < |texts| - 1 && !parses(texts[i]);
    if parses(texts[0]) {
      assert texts[1..] == Texts(msgs[1..]);
      assert texts[1..][i - 1] == texts[i];
      BadMessageStrands(msgs[1..], parses);
    } else {
      FirstFrame(msgs[1..]);
    }
  }

  /**
   However the bytes arrive nothing is left in the buffer, exactly when no message that does not
   parse is followed by another.
   */
  lemma LeftoverExact(msgs: seq<seq<Byte>>, parses: seq<Byte> -> bool)
    requires AllShort(msgs)
    ensures NothingLeft(msgs, parses) <==> AllButLast(Texts(msgs), parses)
  {
    if AllButLast(Texts(msgs), parses) {
      forall a | Cuts(a, msgs) ensures FeedParsed([], a, parses).1 == [] {
        assert [] + Concat(a) == Concat(a);
        var j := FeedPrefix([], a, msgs, parses);
        assert j == |msgs|;
      }
    } else {
      OnceIsDrain(msgs, parses);
      BadMessageStrands(msgs, parses);
      assert Cuts([EncodeAll(msgs)], msgs);
    }
  }

  /** A socket's input buffer, with the loop that empties it. */
  class Reader {
    var input: seq<Byte>

    constructor ()
      ensures input == []
    {
      input := [];
    }

    /** Bytes arrive, and the read callback runs; the messages it extracts and parses are returned. */
    method Arrive(bytes: seq<Byte>, parses: seq<Byte> -> bool) returns (msgs: seq<seq<Byte>>)
      modifies this
      ensures (msgs, input) == DrainParsed(old(input) + bytes, parses)
    {
      hide DrainParsed, HasFrame, CString, DecodeLength;
      input := input + bytes;
      ghost var all := DrainParsed(input, parses);
      msgs := [];
      while HasWholeFrame(input)
        invariant all.0 == msgs + DrainParsed(input, parses).0 && all.1 == DrainParsed(input, parses).1
        decreases |input|
      {
        DrainParsedStep(input, parses);
        var taken := Taken(input);
        var msg := CString(input[HEAD..HEAD + taken]);
        input := input[HEAD + taken..];
        if !parses(msg) {
          assert msgs + [] == msgs;
          return;
        }
        Regroup(msgs, msg, DrainParsed(input, parses).0);
        msgs := msgs + [msg];
      }
      DrainParsedStep(input, parses);
      assert msgs + [] == msgs;
    }
  }

  /** One round of the loop. */
  lemma DrainParsedStep(buf: seq<Byte>, parses: seq<Byte> -> bool)
    ensures !HasFrame(buf) ==> DrainParsed(buf, parses) == ([], buf)
    ensures HasFrame(buf) ==>
      && |buf| >= HEAD && FrameLength(buf) == HEAD + Taken(buf)
      && var n := FrameLength(buf);
      var msg := CString(buf[HEAD..n]);
      DrainParsed(buf, parses) ==
        if !parses(msg) then ([], buf[n..])
        else ([msg] + DrainParsed(buf[n..], parses).0, DrainParsed(buf[n..], parses).1)
  {
  }

  lemma Regroup<T>(a: seq<T>, b: T, c: seq<T>)
    ensures a + ([b] + c) == (a + [b]) + c
  {
  }

  /** The two guards at the head of the loop; where the buffer would be overrun the model stops. */
  predicate HasWholeFrame(input: seq<Byte>)
    ensures HasWholeFrame(input) == HasFrame(input)
  {
    if |input| < HEAD then false
    else if |input| < SizeT(HEAD + DecodeLength(input)) then false
    else Taken(input) < BUFFER
  }
}
