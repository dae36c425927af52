/**
 Output streams for saved states: one that writes into the caller's buffer up to its
 capacity, and one that grows without limit. Both keep a cursor that seeks can move back to
 fill in lengths.
 */
module Streams {
  import opened Bytes

  datatype Whence = Begin | Current | End

  datatype Op = Put(b: Byte) | Write(s: seq<Byte>) | Seek(off: int, whence: Whence)

  function Target(off: int, whence: Whence, cur: nat, end: nat): int {
    match whence case Begin => off case Current => off + cur case End => off + end
  }

  // ----- The capped stream -------------------------------------------------------------

  /** `end` is the high-water mark, `needed` the reported demand. */
  datatype Capped = Capped(bytes: seq<Byte>, cur: nat, end: nat, needed: nat, overflowed: bool)

  predicate CappedOk(m: Capped) {
    m.cur <= |m.bytes| && m.end <= |m.bytes| && (!m.overflowed ==> m.needed == m.end)
  }

  function CappedStore(m: Capped, s: seq<Byte>): Capped
    requires m.cur + |s| <= |m.bytes|
  {
    var m1 := m.(bytes := Splice(m.bytes, m.cur, s), cur := m.cur + |s|);
    if m1.cur > m.end then m1.(end := m1.cur, needed := m1.cur) else m1
  }

  function CappedStep(m: Capped, op: Op): Capped
    requires m.end <= |m.bytes|
  {
    match op
    case Put(b) =>
      if m.cur >= |m.bytes| then m.(overflowed := true, needed := m.needed + 1) else CappedStore(m, [b])
    case Write(s) =>
      if s == [] then m
      else if m.cur + |s| > |m.bytes| then m.(overflowed := true, needed := m.needed + m.cur + |s| - m.end)
      else CappedStore(m, s)
    case Seek(off, whence) =>
      var pos := Target(off, whence, m.cur, m.end);
      if 0 <= pos <= |m.bytes| then m.(cur := pos) else m
  }

  class MemOStream {
    const buf: array<Byte>
    var cur: nat
    var end: nat
    var needed: nat
    var overflowed: bool

    function Value(): Capped
      reads this, buf
    {
      Capped(buf[..], cur, end, needed, overflowed)
    }

    ghost predicate Valid()
      reads this, buf
    {
      CappedOk(Value())
    }

    constructor (buf: array<Byte>)
      ensures this.buf == buf && Value() == Capped(buf[..], 0, 0, 0, false) && Valid()
    {
      this.buf := buf;
      cur, end, needed, overflowed := 0, 0, 0, false;
    }

    method Overflow(b: Byte) returns (ok: bool)
      requires Valid()
      modifies this, buf
      ensures Valid() && Value() == CappedStep(old(Value()), Put(b))
      ensures ok <==> old(cur) < buf.Length
    {
      if cur >= buf.Length {
        overflowed := true;
        needed := needed + 1;
        return false;
      }
      ghost var before := buf[..];
      buf[cur] := b;
      assert buf[..] == Splice(before, cur, [b]);
      cur := cur + 1;
      if cur > end {
        end := cur;
        needed := end;
      }
      return true;
    }

    method Xsputn(s: seq<Byte>) returns (n: nat)
      requires Valid()
      modifies this, buf
      ensures Valid() && Value() == CappedStep(old(Value()), Write(s))
      ensures n == if old(cur) + |s| <= buf.Length then |s| else 0
    {
      if |s| == 0 {
        return 0;
      }
      if cur + |s| > buf.Length {
        overflowed := true;
        needed := needed + (cur + |s| - end);
        return 0;
      }
      Copy(buf, cur, s);
      cur := cur + |s|;
      if cur > end {
        end := cur;
        needed := end;
      }
      return |s|;
    }

    method Seekoff(off: int, whence: Whence) returns (pos: int)
      requires Valid()
      modifies this`cur
      ensures Valid() && Value() == CappedStep(old(Value()), Seek(off, whence))
      ensures pos == -1 || pos == cur == Target(off, whence, old(cur), end)
      ensures pos == -1 <==> !(0 <= Target(off, whence, old(cur), end) <= buf.Length)
    {
      pos := match whence case Begin => off case Current => off + cur case End => off + end;
      if pos < 0 || pos > buf.Length {
        return -1;
      }
      cur := pos;
    }
  }

  // ----- The growable stream -----------------------------------------------------------

  datatype Growing = Growing(data: seq<Byte>, cur: nat)

  predicate GrowingOk(g: Growing) {
    g.cur <= |g.data|
  }

  /** `data` with `s` written at `at`, longer if need be. */
  function Overlay(data: seq<Byte>, at: nat, s: seq<Byte>): (r: seq<Byte>)
    requires at <= |data|
    ensures |r| == if at + |s| > |data| then at + |s| else |data|
  {
    data[..at] + s + (if at + |s| < |data| then data[at + |s|..] else [])
  }

  predicate GrowingAccepts(g: Growing, op: Op) {
    op.Seek? ==> 0 <= Target(op.off, op.whence, g.cur, |g.data|) <= |g.data|
  }

  function GrowingStep(g: Growing, op: Op): Growing
    requires GrowingOk(g)
  {
    match op
    case Put(b) => Growing(Overlay(g.data, g.cur, [b]), g.cur + 1)
    case Write(s) => Growing(Overlay(g.data, g.cur, s), g.cur + |s|)
    case Seek(off, whence) => if GrowingAccepts(g, op) then g.(cur := Target(off, whence, g.cur, |g.data|)) else g
  }

  class GrowableOStream {
    var data: seq<Byte>
    var cur: nat

    function Value(): Growing
      reads this
    {
      Growing(data, cur)
    }

    constructor ()
      ensures Value() == Growing([], 0)
    {
      data, cur := [], 0;
    }

    /** Grow to at least `size` bytes, with zeros. */
    method Resize(size: nat)
      requires |data| <= size
      modifies this`data
      ensures data == old(data) + Zeros(size - |old(data)|)
    {
      data := data + Zeros(size - |data|);
    }

    method Overflow(b: Byte)
      requires GrowingOk(Value())
      modifies this
      ensures GrowingOk(Value()) && Value() == GrowingStep(old(Value()), Put(b))
    {
      if cur >= |data| {
        Resize(cur + 1);
      }
      data := data[cur := b];
      cur := cur + 1;
    }

    method Xsputn(s: seq<Byte>) returns (n: nat)
      requires GrowingOk(Value())
      modifies this
      ensures GrowingOk(Value()) && Value() == GrowingStep(old(Value()), Write(s)) && n == |s|
    {
      if |s| == 0 {
        assert Overlay(data, cur, s) == data;
        return 0;
      }
      if cur + |s| > |data| {
        Resize(cur + |s|);
      }
      data := Splice(data, cur, s);
      cur := cur + |s|;
      return |s|;
    }

    method Seekoff(off: int, whence: Whence) returns (pos: int)
      requires GrowingOk(Value())
      modifies this`cur
      ensures GrowingOk(Value()) && Value() == GrowingStep(old(Value()), Seek(off, whence))
      ensures pos == -1 <==> !GrowingAccepts(old(Value()), Seek(off, whence))
      ensures pos == -1 || pos == cur
    {
      pos := match whence case Begin => off case Current => off + cur case End => off + |data|;
      if pos < 0 || pos > |data| {
        return -1;
      }
      cur := pos;
    }
  }

  // ----- Where bytes go ----------------------------------------------------------------

  function Payload(op: Op): seq<Byte>
    requires !op.Seek?
  {
    if op.Put? then [op.b] else op.s
  }

  /** A write puts its bytes at the cursor and moves the cursor behind them; every other byte stays. */
  lemma GrowingWriteIs(g: Growing, op: Op, k: nat)
    requires GrowingOk(g) && !op.Seek? && k < |GrowingStep(g, op).data|
    ensures var s, g' := Payload(op), GrowingStep(g, op);
      && g'.cur == g.cur + |s| && (|g'.data| == |g.data| || |g'.data| == g'.cur > |g.data|)
      && (g.cur <= k < g.cur + |s| ==> g'.data[k] == s[k - g.cur])
      && (k < g.cur || g.cur + |s| <= k ==> k < |g.data| && g'.data[k] == g.data[k])
  {
  }

  /** The same in a buffer, if the bytes fit; otherwise no byte and no mark but the demand changes. */
  lemma CappedWriteIs(m: Capped, op: Op, k: nat)
    requires CappedOk(m) && !op.Seek? && k < |m.bytes|
    ensures var s, m' := Payload(op), CappedStep(m, op);
      && |m'.bytes| == |m.bytes|
      && (m'.overflowed <==> m.overflowed || m.cur + |s| > |m.bytes|)
      && (if m.cur + |s| > |m.bytes| then m' == m.(overflowed := true, needed := m'.needed) && m'.needed > m.needed
          else && m'.cur == m.cur + |s| && (m'.end == m.end >= m'.cur || m'.end == m'.cur > m.end || s == [])
               && (m.cur <= k < m.cur + |s| ==> m'.bytes[k] == s[k - m.cur])
               && (k < m.cur || m.cur + |s| <= k ==> m'.bytes[k] == m.bytes[k]))
  {
  }

  /** Where a seek asks to go: so far from the start, from the cursor, or from the end. */
  predicate AsksFor(op: Op, cur: nat, end: nat, pos: int) {
    op.Seek? && pos - op.off == match op.whence case Begin => 0 case Current => cur case End => end
  }

  /** Both streams go where a seek asks if that lies in the data, or in the capacity, and else stay as they are. */
  lemma SeekIs(g: Growing, m: Capped, op: Op, pos: int)
    requires GrowingOk(g) && CappedOk(m)
    ensures AsksFor(op, g.cur, |g.data|, pos) ==>
              GrowingStep(g, op) == if 0 <= pos <= |g.data| then g.(cur := pos) else g
    ensures AsksFor(op, m.cur, m.end, pos) ==> CappedStep(m, op) == if 0 <= pos <= |m.bytes| then m.(cur := pos) else m
  {
  }

  // ----- Runs --------------------------------------------------------------------------

  function Grown(ops: seq<Op>): (g: Growing)
    ensures GrowingOk(g)
  {
    if ops == [] then Growing([], 0) else GrowingStep(Grown(ops[..|ops| - 1]), ops[|ops| - 1])
  }

  function Kept(buf: seq<Byte>, ops: seq<Op>): (m: Capped)
    ensures CappedOk(m) && |m.bytes| == |buf|
  {
    if ops == [] then Capped(buf, 0, 0, 0, false) else CappedStep(Kept(buf, ops[..|ops| - 1]), ops[|ops| - 1])
  }

  /** The growable stream accepts every seek of the run. */
  ghost predicate SeeksAccepted(ops: seq<Op>) {
    forall k {:trigger ops[k]} :: 0 <= k < |ops| ==> GrowingAccepts(Grown(ops[..k]), ops[k])
  }

  /** The two streams hold the same bytes and the same cursor; the rest of the buffer is untouched. */
  ghost predicate Agree(buf: seq<Byte>, m: Capped, g: Growing) {
    && CappedOk(m) && !m.overflowed && |m.bytes| == |buf|
    && m.cur == g.cur && m.end == |g.data| && m.bytes == Filled(buf, g.data)
  }

  lemma StoreAgrees(buf: seq<Byte>, m: Capped, g: Growing, s: seq<Byte>)
    requires GrowingOk(g) && |g.data| <= |buf| && Agree(buf, m, g) && m.cur + |s| <= |m.bytes|
    ensures Agree(buf, CappedStore(m, s), Growing(Overlay(g.data, g.cur, s), g.cur + |s|))
  {
    var m', data := CappedStore(m, s), Overlay(g.data, g.cur, s);
    assert m'.bytes == Filled(buf, data);
  }

  /** One step: the capped stream follows the growable one, or overflows and reports its size. */
  lemma StepAgrees(buf: seq<Byte>, m: Capped, g: Growing, op: Op)
    requires GrowingOk(g) && |g.data| <= |buf| && Agree(buf, m, g) && GrowingAccepts(g, op)
    ensures var m', g' := CappedStep(m, op), GrowingStep(g, op);
      if |g'.data| <= |buf| then Agree(buf, m', g')
      else m'.overflowed && m'.needed == |g'.data| && m'.(overflowed := false, needed := m.needed) == m
  {
    match op
    case Put(b) =>
      if m.cur < |buf| {
        StoreAgrees(buf, m, g, [b]);
      }
    case Write(s) =>
      if s == [] {
        assert Overlay(g.data, g.cur, s) == g.data;
      } else if m.cur + |s| <= |buf| {
        StoreAgrees(buf, m, g, s);
      }
    case Seek(_, _) =>
  }

  lemma SizeGrows(g: Growing, op: Op)
    requires GrowingOk(g)
    ensures |g.data| <= |GrowingStep(g, op).data|
  {
  }

  lemma PrefixSeeks(ops: seq<Op>, k: nat)
    requires SeeksAccepted(ops) && k <= |ops|
    ensures SeeksAccepted(ops[..k])
  {
    forall j | 0 <= j < k
      ensures GrowingAccepts(Grown(ops[..k][..j]), ops[..k][j])
    {
      assert ops[..k][..j] == ops[..j] && ops[..k][j] == ops[j];
    }
  }

  /**
   On every run whose seeks the growable stream accepts, the capped stream overflows if
   and only if the uncapped size exceeds its capacity; until then both agree byte for byte.
   */
  lemma {:induction false} CappedFollowsGrowable(buf: seq<Byte>, ops: seq<Op>)
    requires SeeksAccepted(ops)
    ensures Kept(buf, ops).overflowed <==> |Grown(ops).data| > |buf|
    ensures !Kept(buf, ops).overflowed ==> Agree(buf, Kept(buf, ops), Grown(ops))
  {
    if ops != [] {
      var k := |ops| - 1;
      PrefixSeeks(ops, k);
      CappedFollowsGrowable(buf, ops[..k]);
      SizeGrows(Grown(ops[..k]), ops[k]);
      assert GrowingAccepts(Grown(ops[..k]), ops[k]);
      if |Grown(ops[..k]).data| <= |buf| {
        StepAgrees(buf, Kept(buf, ops[..k]), Grown(ops[..k]), ops[k]);
      }
    }
  }

  /** At its first overflow the capped stream asks for the uncapped size and wrote nothing of the failed step. */
  lemma FirstOverflowIsExact(buf: seq<Byte>, ops: seq<Op>)
    requires SeeksAccepted(ops) && ops != []
    requires !Kept(buf, ops[..|ops| - 1]).overflowed && Kept(buf, ops).overflowed
    ensures Kept(buf, ops).needed == |Grown(ops).data| > |buf|
    ensures var before := Grown(ops[..|ops| - 1]).data;
      |before| <= |buf| && Kept(buf, ops).bytes == Filled(buf, before)
  {
    var k := |ops| - 1;
    PrefixSeeks(ops, k);
    CappedFollowsGrowable(buf, ops[..k]);
    assert GrowingAccepts(Grown(ops[..k]), ops[k]);
    StepAgrees(buf, Kept(buf, ops[..k]), Grown(ops[..k]), ops[k]);
  }

  /** On success, the reported size is the exact one. */
  lemma SuccessReportsSize(buf: seq<Byte>, ops: seq<Op>)
    requires SeeksAccepted(ops) && |Grown(ops).data| <= |buf|
    ensures Kept(buf, ops).needed == |Grown(ops).data| && Kept(buf, ops).bytes[..|Grown(ops).data|] == Grown(ops).data
  {
    CappedFollowsGrowable(buf, ops);
  }

  // ----- Seeks past the end ------------------------------------------------------------

  /** The size an uncapped stream would have after writing n bytes at the cursor. */
  function SizeAfter(m: Capped, n: nat): nat {
    if m.cur + n > m.end then m.cur + n else m.end
  }

  /**
   The capped stream lets its cursor pass the end. From any state, a first overflow then
   reports the exact demand if and only if it is not a single byte put beyond the end.
   */
  lemma DemandIsExactIff(m: Capped, op: Op)
    requires CappedOk(m) && !m.overflowed && CappedStep(m, op).overflowed
    ensures !op.Seek?
    ensures var n := if op.Put? then 1 else |op.s|;
      CappedStep(m, op).needed == SizeAfter(m, n) <==> op.Write? || m.cur == m.end
  {
  }

  /** A byte put after seeking to the end of a 10 byte buffer asks for 1 byte instead of 11. */
  lemma PutPastEndUnderstates(buf: seq<Byte>)
    requires |buf| == 10
    ensures var ops := [Seek(10, Begin), Put(0)];
      Kept(buf, ops).overflowed && Kept(buf, ops).needed == 1 && SizeAfter(Kept(buf, ops[..1]), 1) == 11
  {
    var ops := [Seek(10, Begin), Put(0)];
    assert ops[..1] == [Seek(10, Begin)] && ops[..1][..0] == [];
    assert Kept(buf, []) == Capped(buf, 0, 0, 0, false);
    assert Kept(buf, ops[..1]) == CappedStep(Kept(buf, []), Seek(10, Begin));
    assert Kept(buf, ops) == CappedStep(Kept(buf, ops[..1]), Put(0));
  }
}
