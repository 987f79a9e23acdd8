/** The loss scanner object that the feedback thread owns, and what each of its calls
    amounts to. */
module LossScanning {
  import opened Bitmap
  import opened LossTracker
  import opened Prelude

  // ---- whole calls as functions of the scanner and the bitmap ----

  function AdvanceAll(s: Scanner, bm: set<nat>): Scanner
    decreases s.total - s.hi
  {
    if CanAdvance(s, bm) then AdvanceAll(AdvanceOne(s), bm) else s
  }

  function ScanFrom(s: Scanner, bm: set<nat>, sn: nat, ms: nat, due: nat): Scanner
    decreases ms + 1 - sn
  {
    if sn <= ms then ScanFrom(ScanOne(s, bm, sn, due), bm, sn + 1, ms, due) else s
  }

  function ScanHoles(s: Scanner, bm: set<nat>, maxSeen: nat, due: nat): Scanner {
    if s.total == 0 then s
    else
      var ms := if maxSeen >= s.total then s.total - 1 else maxSeen;
      ScanEnd(ScanFrom(s, bm, s.next, ms, due), ms)
  }

  function Collect(s: Scanner, bm: set<nat>, now: nat, reDue: nat, max: nat): (Scanner, seq<nat>)
    decreases max, |s.heap|
  {
    if max == 0 || !CanPop(s, now) then (s, [])
    else
      PopShrinks(s, bm, reDue);
      var after := PopOne(s, bm, reDue);
      if Reports(s, bm) then
        var (t, rest) := Collect(after, bm, now, reDue, max - 1);
        (t, [Top(s.heap).sn] + rest)
      else Collect(after, bm, now, reDue, max)
  }

  // ---- what they amount to ----

  /** `advance` stops at the first missing block, and takes from `pending` exactly the
      blocks it passed. */
  lemma {:induction false} AdvanceMeans(s: Scanner, bm: set<nat>, scanned: nat)
    requires Agrees(s, bm, scanned)
    ensures var t := AdvanceAll(s, bm);
      && Agrees(t, bm, scanned)
      && s.hi <= t.hi && (t.hi == t.total || t.hi !in bm)
      && t == s.(hi := t.hi, pending := t.pending)
      && (forall i: nat :: i in t.pending <==> i in s.pending && i >= t.hi)
    decreases s.total - s.hi
  {
    if CanAdvance(s, bm) {
      AdvanceAgrees(s, bm, scanned);
      AdvanceMeans(AdvanceOne(s), bm, scanned);
    }
  }

  lemma {:induction false} ScanFromAgrees(s: Scanner, bm: set<nat>, sn: nat, ms: nat, due: nat)
    requires Agrees(s, bm, sn) && ms < s.total
    ensures Agrees(ScanFrom(s, bm, sn, ms, due), bm, if sn <= ms then ms + 1 else sn)
    decreases ms + 1 - sn
  {
    hide Agrees;
    if sn <= ms {
      ScanAgrees(s, bm, sn, due);
      ScanFromAgrees(ScanOne(s, bm, sn, due), bm, sn + 1, ms, due);
    }
  }

  lemma {:induction false} ScanFromMeans(s: Scanner, bm: set<nat>, sn: nat, ms: nat, due: nat)
    requires forall i :: i in s.pending ==> i < sn
    ensures var t := ScanFrom(s, bm, sn, ms, due);
      && t == s.(pending := t.pending, heap := t.heap)
      && (forall i: nat :: i in t.pending <==> i in s.pending || (sn <= i <= ms && i !in bm))
      && (forall a :: a in t.heap <==> a in s.heap || (a.due == due && sn <= a.sn <= ms && a.sn !in bm))
    decreases ms + 1 - sn
  {
    if sn <= ms {
      var one := ScanOne(s, bm, sn, due);
      assert forall a :: a in one.heap <==> a in s.heap || (sn !in bm && a == Item(due, sn));
      ScanFromMeans(one, bm, sn + 1, ms, due);
    }
  }

  /** `scan_holes` makes pending exactly the missing blocks up to `max_seen` that it had
      not looked at yet, each due once at the given time, and moves the scan mark past
      them. */
  lemma ScanMeans(s: Scanner, bm: set<nat>, maxSeen: nat, due: nat)
    requires Agrees(s, bm, s.next) && s.total > 0
    ensures var t := ScanHoles(s, bm, maxSeen, due);
      var ms := if maxSeen >= s.total then s.total - 1 else maxSeen;
      && t.next == (if ms + 1 > s.next then ms + 1 else s.next)
      && Agrees(t, bm, t.next)
      && t.hi == s.hi && t.total == s.total
      && (forall i: nat :: i in t.pending <==> i in s.pending || (s.next <= i <= ms && i !in bm))
      && (forall a :: a in t.heap <==> a in s.heap || (a.due == due && s.next <= a.sn <= ms && a.sn !in bm))
  {
    var ms := if maxSeen >= s.total then s.total - 1 else maxSeen;
    ScanFromAgrees(s, bm, s.next, ms, due);
    ScanFromMeans(s, bm, s.next, ms, due);
  }

  /** After FIN one scan leaves no missing block of the file unwatched. */
  lemma ScanAfterFin(s: Scanner, bm: set<nat>, due: nat)
    requires Agrees(s, bm, s.next) && s.total > 0
    ensures forall i: nat :: i < s.total && i !in bm ==> i in ScanHoles(s, bm, s.total - 1, due).pending
  {
    ScanMeans(s, bm, s.total - 1, due);
  }

  predicate DueEntry(heap: multiset<Item>, now: nat, x: nat) {
    exists a :: a in heap && a.sn == x && a.due <= now
  }

  predicate Distinct(out: seq<nat>) {
    forall i, j :: 0 <= i < j < |out| ==> out[i] != out[j]
  }

  lemma {:induction false} CollectAgrees(s: Scanner, bm: set<nat>, scanned: nat, now: nat, reDue: nat, max: nat)
    requires Agrees(s, bm, scanned)
    ensures Agrees(Collect(s, bm, now, reDue, max).0, bm, scanned)
    decreases max, |s.heap|
  {
    hide Agrees;
    if max > 0 && CanPop(s, now) {
      PopShrinks(s, bm, reDue);
      PopAgrees(s, bm, scanned, reDue);
      var after := PopOne(s, bm, reDue);
      if Reports(s, bm) {
        CollectAgrees(after, bm, scanned, now, reDue, max - 1);
      } else {
        CollectAgrees(after, bm, scanned, now, reDue, max);
      }
    }
  }

  /** `collect_due` reports at most `max` missing pending blocks whose time has come, and
      when it reports fewer nothing due is left. */
  lemma {:induction false} CollectMeans(s: Scanner, bm: set<nat>, now: nat, reDue: nat, max: nat)
    requires reDue > now && OneEntryEach(s.heap)
    ensures var (t, out) := Collect(s, bm, now, reDue, max);
      && |out| <= max
      && (forall x :: x in out ==> x in s.pending && x !in bm && DueEntry(s.heap, now, x))
      && (|out| < max ==> forall a :: a in t.heap ==> a.due > now)
      && (forall i :: i in t.pending ==> i in s.pending)
      && (forall i :: i in s.pending && i !in t.pending ==> i in bm)
    decreases max, |s.heap|
  {
    hide Collect, PopOne;
    CollectUnroll(s, bm, now, reDue, max);
    if max > 0 && CanPop(s, now) {
      PopShrinks(s, bm, reDue);
      PopPending(s, bm, reDue);
      var after := PopOne(s, bm, reDue);
      PopOneEntry(s, bm, reDue);
      var cap := if Reports(s, bm) then max - 1 else max;
      CollectMeans(after, bm, now, reDue, cap);
      forall x | x in Collect(after, bm, now, reDue, cap).1
        ensures DueEntry(s.heap, now, x)
      {
        var a :| a in after.heap && a.sn == x && a.due <= now;
        assert a in s.heap;
      }
      assert DueEntry(s.heap, now, Top(s.heap).sn);
    } else if max > 0 && s.heap != multiset{} {
      forall a | a in s.heap
        ensures a.due > now
      {
        assert !Before(a, Top(s.heap));
      }
    }
  }

  lemma PopPending(s: Scanner, bm: set<nat>, reDue: nat)
    requires s.heap != multiset{}
    ensures var t := PopOne(s, bm, reDue);
      t.pending <= s.pending && (forall i :: i in s.pending && i !in t.pending ==> i in bm)
  {
  }

  lemma PopOneEntry(s: Scanner, bm: set<nat>, reDue: nat)
    requires s.heap != multiset{} && OneEntryEach(s.heap)
    ensures var h := PopOne(s, bm, reDue).heap;
      && OneEntryEach(h)
      && (forall a :: a in h ==> a in s.heap || (Reports(s, bm) && a == Item(reDue, Top(s.heap).sn)))
      && (forall a :: a in s.heap && a != Top(s.heap) ==> a in h)
      && (forall a :: a in h && a.sn == Top(s.heap).sn ==> a == Item(reDue, a.sn))
  {
    hide OneEntryEach, Top;
    var top := Top(s.heap);
    TopIn(s.heap);
    RestEntries(s.heap, top);
    if Reports(s, bm) {
      MoreEntries(s.heap - multiset{top}, Item(reDue, top.sn));
    }
  }

  /** No block is reported twice by one call: once rescheduled it is no longer due. */
  lemma {:induction false} CollectDistinct(s: Scanner, bm: set<nat>, now: nat, reDue: nat, max: nat)
    requires reDue > now && OneEntryEach(s.heap)
    ensures Distinct(Collect(s, bm, now, reDue, max).1)
    decreases max, |s.heap|
  {
    if max > 0 && CanPop(s, now) {
      PopShrinks(s, bm, reDue);
      PopOneEntry(s, bm, reDue);
      var after := PopOne(s, bm, reDue);
      var cap := if Reports(s, bm) then max - 1 else max;
      CollectMeans(after, bm, now, reDue, cap);
      CollectDistinct(after, bm, now, reDue, cap);
      assert !DueEntry(after.heap, now, Top(s.heap).sn);
    }
  }

  /** The earliest go first: a block that is missing, pending and not reported stands
      behind every block that was. */
  lemma {:induction false} CollectEarliest(s: Scanner, bm: set<nat>, now: nat, reDue: nat, max: nat, a: Item, b: Item)
    requires reDue > now && OneEntryEach(s.heap)
    requires a in s.heap && b in s.heap && b.sn in s.pending && b.sn !in bm
    requires a.sn in Collect(s, bm, now, reDue, max).1 && b.sn !in Collect(s, bm, now, reDue, max).1
    ensures Before(a, b)
    decreases max, |s.heap|
  {
    PopShrinks(s, bm, reDue);
    PopOneEntry(s, bm, reDue);
    var top := Top(s.heap);
    var after := PopOne(s, bm, reDue);
    var cap := if Reports(s, bm) then max - 1 else max;
    if a == top {
      assert !Before(b, top);
    } else {
      CollectMeans(after, bm, now, reDue, cap);
      assert b != top;
      assert a.sn in Collect(after, bm, now, reDue, cap).1;
      CollectEarliest(after, bm, now, reDue, cap, a, b);
    }
  }

  // ---- the object ----

  class LossScanner {
    const bm: RecvBitmap
    const total: nat
    var hiContig: nat
    var nextScan: nat
    var pending: set<nat>
    var heap: multiset<Item>

    ghost function View(): Scanner
      reads this
    {
      Scanner(total, hiContig, nextScan, pending, heap)
    }

    ghost predicate Valid()
      reads this, bm.words
    {
      bm.Valid() && bm.total == total && Agrees(View(), bm.Bits(), nextScan)
    }

    constructor (bm: RecvBitmap)
      requires bm.Valid()
      ensures this.bm == bm && Valid() && View() == NewScanner(bm.total)
    {
      this.bm := bm;
      this.total := bm.total;
      hiContig, nextScan := 0, 0;
      pending, heap := {}, multiset{};
    }

    method Advance() returns (hi: nat)
      requires Valid()
      modifies this
      ensures Valid() && View() == AdvanceAll(old(View()), bm.Bits())
      ensures hi == hiContig && (forall i: nat :: i < hi ==> i in bm.Bits())
      ensures hi == total || hi !in bm.Bits()
    {
      hide Agrees, RecvBitmap.Bits;
      AdvanceMeans(View(), bm.Bits(), nextScan);
      var more := hiContig < total;
      if more {
        more := bm.IsSet(hiContig);
      }
      while more
        invariant bm.Valid() && bm.total == total && hiContig <= total
        invariant AdvanceAll(View(), bm.Bits()) == AdvanceAll(old(View()), bm.Bits())
        invariant more <==> CanAdvance(View(), bm.Bits())
        decreases total - hiContig
      {
        pending := pending - {hiContig};
        hiContig := hiContig + 1;
        more := hiContig < total;
        if more {
          more := bm.IsSet(hiContig);
        }
      }
      hi := hiContig;
    }

    method ScanForHoles(maxSeen: nat, now: nat, rto: real)
      requires Valid()
      modifies this
      ensures Valid() && View() == ScanHoles(old(View()), bm.Bits(), maxSeen, DueTime(now, rto))
    {
      hide Agrees, RecvBitmap.Bits, ScanFrom, ScanOne, ScanHoles;
      if total == 0 {
        ScanNothing(View(), bm.Bits(), maxSeen, DueTime(now, rto));
        return;
      }
      ghost var s0, bits := View(), bm.Bits();
      var ms := if maxSeen >= total then total - 1 else maxSeen;
      var due := DueTime(now, rto);
      ScanKeeps(s0, bits, maxSeen, due);
      var sn := nextScan;
      while sn <= ms
        invariant bm.Valid() && bm.total == total && bm.Bits() == bits
        invariant nextScan == s0.next && ms < total
        invariant ScanFrom(View(), bits, sn, ms, due) == ScanFrom(s0, bits, s0.next, ms, due)
        decreases ms + 1 - sn
      {
        ghost var before := View();
        ScanUnroll(before, bits, sn, ms, due);
        var isSet := bm.IsSet(sn);
        if !isSet && sn !in pending {
          pending := pending + {sn};
          heap := heap + multiset{Item(due, sn)};
        }
        assert View() == ScanOne(before, bits, sn, due);
        sn := sn + 1;
      }
      ScanUnroll(View(), bits, sn, ms, due);
      if ms + 1 > nextScan {
        nextScan := ms + 1;
      }
    }

    /** Ends for every clock, RTO and `max`; with an RTO that is not negative no block is
        reported twice. */
    method CollectDue(now: nat, rto: real, max: nat) returns (out: seq<nat>)
      requires Valid()
      modifies this
      ensures Valid()
      ensures (View(), out) == Collect(old(View()), bm.Bits(), now, DueTime(now, rto), max)
      ensures DueTime(now, rto) > now ==> Distinct(out)
    {
      hide Agrees, RecvBitmap.Bits, PopOne, Collect, IsTop, Distinct;
      ghost var s0, bits := View(), bm.Bits();
      ghost var scanned := nextScan;
      var reDue := DueTime(now, rto);
      CollectAgrees(s0, bits, scanned, now, reDue, max);
      OneEntries(s0, bits, scanned);
      if reDue > now {
        CollectDistinct(s0, bits, now, reDue, max);
      }
      ghost var want := Collect(s0, bits, now, reDue, max);
      out := [];
      while |out| < max && heap != multiset{} && Top(heap).due <= now
        invariant |out| <= max && bm.Valid() && bm.total == total && bm.Bits() == bits
        invariant nextScan == scanned && Agrees(View(), bits, scanned)
        invariant want.0 == Collect(View(), bits, now, reDue, max - |out|).0
        invariant want.1 == out + Collect(View(), bits, now, reDue, max - |out|).1
        decreases max - |out|, |heap|
      {
        CollectUnroll(View(), bits, now, reDue, max - |out|);
        PopShrinks(View(), bits, reDue);
        var hit := PopTop(reDue);
        if hit.Some? {
          out := out + [hit.value];
        }
      }
      CollectUnroll(View(), bits, now, reDue, max - |out|);
      assert out + [] == out;
    }

    /** One round of the loop in `collect_due`: take the top entry off the heap and, if
        its block is still wanted, put it back for later. */
    method PopTop(reDue: nat) returns (hit: Option<nat>)
      requires Valid() && heap != multiset{}
      modifies this
      ensures Valid() && View() == PopOne(old(View()), bm.Bits(), reDue)
      ensures hit == if Reports(old(View()), bm.Bits()) then Some(Top(old(heap)).sn) else None
      ensures nextScan == old(nextScan)
    {
      hide Agrees, RecvBitmap.Bits, PopOne, IsTop;
      ghost var before, bits := View(), bm.Bits();
      PopAgrees(before, bits, nextScan, reDue);
      InHeapBelow(before, bits, nextScan);
      PopCases(before, bits, reDue);
      var top := Top(heap);
      hit := None;
      heap := heap - multiset{top};
      if top.sn in pending {
        var isSet := bm.IsSet(top.sn);
        if isSet {
          pending := pending - {top.sn};
        } else {
          hit := Some(top.sn);
          heap := heap + multiset{Item(reDue, top.sn)};
        }
      }
    }
  }

  lemma ScanNothing(s: Scanner, bm: set<nat>, maxSeen: nat, due: nat)
    requires s.total == 0
    ensures ScanHoles(s, bm, maxSeen, due) == s
  {
  }

  lemma ScanKeeps(s: Scanner, bm: set<nat>, maxSeen: nat, due: nat)
    requires Agrees(s, bm, s.next) && s.total > 0
    ensures var ms := if maxSeen >= s.total then s.total - 1 else maxSeen;
      ScanHoles(s, bm, maxSeen, due) == ScanEnd(ScanFrom(s, bm, s.next, ms, due), ms)
    ensures Agrees(ScanHoles(s, bm, maxSeen, due), bm, ScanHoles(s, bm, maxSeen, due).next)
  {
    ScanMeans(s, bm, maxSeen, due);
  }

  lemma ScanUnroll(s: Scanner, bm: set<nat>, sn: nat, ms: nat, due: nat)
    ensures ScanFrom(s, bm, sn, ms, due) ==
      if sn <= ms then ScanFrom(ScanOne(s, bm, sn, due), bm, sn + 1, ms, due) else s
    ensures ScanOne(s, bm, sn, due) ==
      if sn !in bm && sn !in s.pending
      then s.(pending := s.pending + {sn}, heap := s.heap + multiset{Item(due, sn)})
      else s
  {
  }

  lemma CollectUnroll(s: Scanner, bm: set<nat>, now: nat, reDue: nat, max: nat)
    ensures Collect(s, bm, now, reDue, max) ==
      if max == 0 || !CanPop(s, now) then (s, [])
      else
        var r := Collect(PopOne(s, bm, reDue), bm, now, reDue, if Reports(s, bm) then max - 1 else max);
        if Reports(s, bm) then (r.0, [Top(s.heap).sn] + r.1) else r
  {
    if max > 0 && CanPop(s, now) {
      PopShrinks(s, bm, reDue);
    }
  }

  lemma PopCases(s: Scanner, bm: set<nat>, reDue: nat)
    requires s.heap != multiset{}
    ensures var top := Top(s.heap); var rest := s.heap - multiset{top};
      PopOne(s, bm, reDue) ==
        if top.sn !in s.pending then s.(heap := rest)
        else if top.sn in bm then s.(heap := rest, pending := s.pending - {top.sn})
        else s.(heap := rest + multiset{Item(reDue, top.sn)})
  {
  }

  lemma InHeapBelow(s: Scanner, bm: set<nat>, scanned: nat)
    requires Agrees(s, bm, scanned) && s.heap != multiset{}
    ensures Top(s.heap).sn < s.total
  {
    assert Top(s.heap) in s.heap;
  }
}
