/**
 The text of a client's request, copied with strcpy into a cli_event: what the copy does to the
 event's own fields, byte by byte, and to the pool's memory around it, word by word.
 */
module EventText {
  import opened Arenas
  import opened Layouts
  import opened Words

  type Byte = n: nat | n < 256

  /** Where the fields of struct cli_event begin, and its size (LP64). */
  const C_INFO: nat := 16
  const ARR_TIME: nat := 1040
  const MSG_FLAG: nat := 1048
  const FINISH_FLAG: nat := 1049
  const EVENT_SIZE: nat := 1056

  // ----- the event's own fields

  /** strcpy: the text and a NUL, wherever that ends. */
  function Strcpy(bytes: seq<Byte>, at: nat, text: seq<Byte>): (r: seq<Byte>)
    requires at + |text| < |bytes|
    ensures |r| == |bytes|
  {
    bytes[..at] + text + [0] + bytes[at + |text| + 1..]
  }

  function SetTime(bytes: seq<Byte>, time: seq<Byte>): (r: seq<Byte>)
    requires |time| == WORD && ARR_TIME + WORD <= |bytes|
    ensures |r| == |bytes|
  {
    bytes[..ARR_TIME] + time + bytes[ARR_TIME + WORD..]
  }

  /** The request record of lines 680-683: the text first, the time after it. */
  function Recorded(bytes: seq<Byte>, text: seq<Byte>, time: seq<Byte>): (r: seq<Byte>)
    requires EVENT_SIZE <= |bytes| && C_INFO + |text| < |bytes| && |time| == WORD
  {
    SetTime(Strcpy(bytes, C_INFO, text), time)
  }

  /** The copy of a text of len bytes puts one of them at the given offset of the event. */
  predicate Covers(len: nat, offset: nat)
    requires C_INFO <= offset
  {
    offset < C_INFO + len
  }

  /** The finish flag stays clear exactly below 1034 bytes. */
  lemma FlagExact(bytes: seq<Byte>, text: seq<Byte>, time: seq<Byte>)
    requires EVENT_SIZE <= |bytes| && C_INFO + |text| < |bytes| && |time| == WORD
    requires bytes[FINISH_FLAG] == 0 && forall i | 0 <= i < |text| :: text[i] != 0
    ensures Recorded(bytes, text, time)[FINISH_FLAG] != 0 <==> Covers(|text|, FINISH_FLAG)
    ensures Covers(|text|, FINISH_FLAG) <==> |text| >= 1034
  {
  }

  /** What a resend writes to a server: head.length bytes from c_info on. */
  function Resent(bytes: seq<Byte>, len: nat): seq<Byte>
    requires C_INFO + len <= |bytes|
  {
    bytes[C_INFO..C_INFO + len]
  }

  ghost predicate ResentUnchanged(bytes: seq<Byte>, text: seq<Byte>)
    requires EVENT_SIZE <= |bytes| && C_INFO + |text| < |bytes|
  {
    forall time: seq<Byte> {:trigger Recorded(bytes, text, time)} | |time| == WORD ::
      Resent(Recorded(bytes, text, time), |text|) == text
  }

  /** The request is resent as it was, whatever the time, exactly up to the size of c_info. */
  lemma ResentExact(bytes: seq<Byte>, text: seq<Byte>)
    requires EVENT_SIZE <= |bytes| && C_INFO + |text| < |bytes|
    ensures ResentUnchanged(bytes, text) <==> |text| <= ARR_TIME - C_INFO
  {
    if |text| <= ARR_TIME - C_INFO {
      forall time: seq<Byte> | |time| == WORD ensures Resent(Recorded(bytes, text, time), |text|) == text {
        var record := Recorded(bytes, text, time);
        assert forall i | 0 <= i < |text| :: record[C_INFO + i] == text[i];
      }
    } else {
      var first: Byte := if text[ARR_TIME - C_INFO] == 0 then 1 else 0;
      var time: seq<Byte> := [first, 0, 0, 0, 0, 0, 0, 0];
      assert Resent(Recorded(bytes, text, time), |text|)[ARR_TIME - C_INFO] == first;
    }
  }

  // ----- the memory around it

  /** How many words a text of len bytes and its NUL take. */
  function TextWords(len: nat): nat {
    len / WORD + 1
  }

  /** A text of len bytes and its NUL lie in the payload of chunk a. */
  predicate TextFits(l: Layout, a: Addr, len: nat)
    requires a in l.chunks
  {
    OVERHEAD + C_INFO + WORD * TextWords(len) <= l.chunks[a].size
  }

  function Zeros(n: nat): (r: seq<nat>)
    ensures |r| == n
  {
    seq(n, _ => 0)
  }

  /** Zeros stored over a cell leave no other value in it. */
  lemma {:induction false} ZerosCover(m: Mem, at: Addr, n: nat, i: nat, f: Addr)
    requires i < n && !Apart(f, at + WORD * i)
    ensures var r := StoreAll(m, at, Zeros(n)); f in r ==> r[f] == 0
    decreases n
  {
    assert Zeros(n)[..n - 1] == Zeros(n - 1);
    if i < n - 1 {
      ZerosCover(m, at, n - 1, i, f);
    }
  }

  /** Whatever the text, the heap around it is as it was. */
  ghost predicate TextKeepsHeap(m: Mem, l: Layout, freeList: Addr, allocList: Addr, a: Addr, len: nat) {
    forall words {:trigger StoreAll(m, a + HEADER + C_INFO, words)} | |words| == TextWords(len) ::
      && Represents(StoreAll(m, a + HEADER + C_INFO, words), l, freeList, allocList)
      && ForeignKept(m, StoreAll(m, a + HEADER + C_INFO, words), l, a)
  }

  /** The copy leaves the heap in place exactly if it fits; otherwise it can run over the chunk's footer. */
  lemma TextExact(m: Mem, l: Layout, freeList: Addr, allocList: Addr, a: Addr, len: nat)
    requires Inv(l) && Represents(m, l, freeList, allocList) && a in l.live && a in l.chunks
    requires a + l.chunks[a].size != l.end && OVERHEAD + C_INFO + WORD <= l.chunks[a].size
    ensures TextKeepsHeap(m, l, freeList, allocList, a, len) <==> TextFits(l, a, len)
  {
    if TextFits(l, a, len) {
      forall words | |words| == TextWords(len)
        ensures Represents(StoreAll(m, a + HEADER + C_INFO, words), l, freeList, allocList)
        ensures ForeignKept(m, StoreAll(m, a + HEADER + C_INFO, words), l, a)
      {
        StoreAllKeepsHeap(m, l, freeList, allocList, a, C_INFO, words);
      }
    } else {
      FooterOverrun(m, l, freeList, allocList, a, len);
    }
  }

  lemma FooterOverrun(m: Mem, l: Layout, freeList: Addr, allocList: Addr, a: Addr, len: nat)
    requires Inv(l) && a in l.live && a in l.chunks && !TextFits(l, a, len)
    requires a + l.chunks[a].size != l.end && OVERHEAD + C_INFO + WORD <= l.chunks[a].size
    ensures !Represents(StoreAll(m, a + HEADER + C_INFO, Zeros(TextWords(len))), l, freeList, allocList)
  {
    var size, at, n := l.chunks[a].size, a + HEADER + C_INFO, TextWords(len);
    var i := (size - OVERHEAD - C_INFO) / WORD;
    var m' := StoreAll(m, at, Zeros(n));
    assert i < n && !Apart(a + size - FOOTER, at + WORD * i);
    ZerosCover(m, at, n, i, a + size - FOOTER);
    assert ChunkOk(l, a) && a != 0;
    assert !FooterAt(m', l, a) && !ChunkAt(m', l, a);
  }

  /** In the smallest chunk an event can have, that is exactly up to 1047 bytes. */
  lemma TextFitsExact(l: Layout, a: Addr, len: nat)
    requires a in l.chunks
    ensures l.chunks[a].size == 1104 ==> (TextFits(l, a, len) <==> len <= 1047)
    ensures l.chunks[a].size >= 1104 && len <= 1047 ==> TextFits(l, a, len)
  {
  }
}
