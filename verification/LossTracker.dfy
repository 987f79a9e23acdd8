/** The loss scanner as a value: the steps its loops take, one bitmap read each,
    and the agreement between `pending` and the due-time heap that they keep. */
module LossTracker {
  const RTT_PREC_US: real := 1000.0
  const U64_MAX: nat := 0xFFFF_FFFF_FFFF_FFFF

  /** Rust's `f64 as u64`: truncating and saturating at both ends. */
  function ToU64(x: real): (r: nat)
    ensures 0.0 <= x < U64_MAX as real ==> r as real <= x < r as real + 1.0
  {
    if x < 0.0 then 0 else if x.Floor > U64_MAX then U64_MAX else x.Floor
  }

  /** The due time both `scan_holes` and `collect_due` compute. */
  function DueTime(now: nat, rto: real): nat {
    ToU64(now as real + rto + RTT_PREC_US)
  }

  datatype Item = Item(due: nat, sn: nat)

  /** Heap order: due time first, then sequence number. */
  predicate Before(a: Item, b: Item) {
    a.due < b.due || (a.due == b.due && a.sn < b.sn)
  }

  predicate IsTop(heap: multiset<Item>, top: Item) {
    top in heap && forall x :: x in heap ==> !Before(x, top)
  }

  lemma {:induction false} TopExists(heap: multiset<Item>)
    requires heap != multiset{}
    ensures exists t :: IsTop(heap, t)
    decreases |heap|
  {
    var x :| x in heap;
    var rest := heap - multiset{x};
    if rest == multiset{} {
      assert heap == multiset{x};
      assert IsTop(heap, x);
    } else {
      TopExists(rest);
      var t :| IsTop(rest, t);
      var m := if Before(x, t) then x else t;
      forall y | y in heap
        ensures !Before(y, m)
      {
        assert y == x || y in rest;
      }
      assert IsTop(heap, m);
    }
  }

  /** What `peek` returns: the unique least entry. */
  function Top(heap: multiset<Item>): (t: Item)
    requires heap != multiset{}
    ensures IsTop(heap, t)
  {
    TopExists(heap);
    var t :| IsTop(heap, t);
    t
  }

  datatype Scanner = Scanner(total: nat, hi: nat, next: nat, pending: set<nat>, heap: multiset<Item>)

  function NewScanner(total: nat): Scanner {
    Scanner(total, 0, 0, {}, multiset{})
  }

  // ---- one iteration of each loop ----

  /** `advance`: the contiguous mark moves over a set bit. */
  predicate CanAdvance(s: Scanner, bm: set<nat>) {
    s.hi < s.total && s.hi in bm
  }

  function AdvanceOne(s: Scanner): Scanner {
    s.(pending := s.pending - {s.hi}, hi := s.hi + 1)
  }

  /** `scan_holes`: examine block `sn` once. */
  function ScanOne(s: Scanner, bm: set<nat>, sn: nat, due: nat): Scanner {
    if sn !in bm && sn !in s.pending
    then s.(pending := s.pending + {sn}, heap := s.heap + multiset{Item(due, sn)})
    else s
  }

  /** `scan_holes`: the last thing it does. */
  function ScanEnd(s: Scanner, maxSeen: nat): Scanner {
    if maxSeen + 1 > s.next then s.(next := maxSeen + 1) else s
  }

  /** `collect_due`: is there an entry whose time has come? */
  predicate CanPop(s: Scanner, now: nat) {
    s.heap != multiset{} && Top(s.heap).due <= now
  }

  /** `collect_due`: whether the popped entry is reported. */
  predicate Reports(s: Scanner, bm: set<nat>)
    requires s.heap != multiset{}
  {
    Top(s.heap).sn in s.pending && Top(s.heap).sn !in bm
  }

  function PopOne(s: Scanner, bm: set<nat>, reDue: nat): Scanner
    requires s.heap != multiset{}
  {
    var top := Top(s.heap);
    var rest := s.heap - multiset{top};
    if top.sn !in s.pending then s.(heap := rest)
    else if top.sn in bm then s.(heap := rest, pending := s.pending - {top.sn})
    else s.(heap := rest + multiset{Item(reDue, top.sn)})
  }

  lemma PopShrinks(s: Scanner, bm: set<nat>, reDue: nat)
    requires s.heap != multiset{}
    ensures |PopOne(s, bm, reDue).heap| == |s.heap| - if Reports(s, bm) then 0 else 1
  {
    assert |s.heap - multiset{Top(s.heap)}| == |s.heap| - 1;
  }

  // ---- agreement ----

  predicate HasEntry(heap: multiset<Item>, sn: nat) {
    exists a :: a in heap && a.sn == sn
  }

  /** Every block has at most one heap entry. */
  predicate OneEntryEach(heap: multiset<Item>) {
    && (forall a :: a in heap ==> heap[a] == 1)
    && (forall a, b :: a in heap && b in heap && a.sn == b.sn ==> a == b)
  }

  /** No hole below `scanned` is forgotten; `pending` and the heap agree; whatever
      the heap holds beyond `pending` is for a block that has arrived. */
  ghost predicate Agrees(s: Scanner, bm: set<nat>, scanned: nat) {
    && s.hi <= s.total && scanned <= s.total
    && (forall i: nat :: i < s.hi ==> i in bm)
    && (forall i: nat :: i < scanned ==> i in bm || i in s.pending)
    && (forall i :: i in s.pending ==> s.hi <= i < scanned && HasEntry(s.heap, i))
    && OneEntryEach(s.heap)
    && (forall a :: a in s.heap ==> a.sn < scanned && (a.sn in s.pending || a.sn in bm))
  }

  lemma OneEntries(s: Scanner, bm: set<nat>, scanned: nat)
    requires Agrees(s, bm, scanned)
    ensures OneEntryEach(s.heap)
  {
  }

  lemma AgreesGrows(s: Scanner, bm: set<nat>, more: set<nat>, scanned: nat)
    requires Agrees(s, bm, scanned) && bm <= more
    ensures Agrees(s, more, scanned)
  {
  }

  lemma AdvanceAgrees(s: Scanner, bm: set<nat>, scanned: nat)
    requires Agrees(s, bm, scanned) && CanAdvance(s, bm)
    ensures Agrees(AdvanceOne(s), bm, scanned)
  {
  }

  lemma ScanAgrees(s: Scanner, bm: set<nat>, scanned: nat, due: nat)
    requires Agrees(s, bm, scanned) && scanned < s.total
    ensures Agrees(ScanOne(s, bm, scanned, due), bm, scanned + 1)
  {
    var t := ScanOne(s, bm, scanned, due);
    if t != s {
      var e := Item(due, scanned);
      forall i | i in t.pending
        ensures s.hi <= i < scanned + 1 && HasEntry(t.heap, i)
      {
        if i == scanned {
          assert e in t.heap;
        } else {
          var a :| a in s.heap && a.sn == i;
          assert a in t.heap;
        }
      }
      forall a | a in t.heap
        ensures t.heap[a] == 1 && a.sn < scanned + 1 && (a.sn in t.pending || a.sn in bm)
      {
        assert a == e || a in s.heap;
      }
    }
  }

  /** What taking one entry off the heap leaves. */
  lemma RestEntries(heap: multiset<Item>, top: Item)
    requires OneEntryEach(heap) && top in heap
    ensures var rest := heap - multiset{top};
      && OneEntryEach(rest)
      && (forall a :: a in rest <==> a in heap && a != top)
      && (forall a :: a in rest ==> a.sn != top.sn)
  {
    var rest := heap - multiset{top};
    assert forall a :: a in rest ==> a in heap;
    assert top !in rest;
  }

  /** What putting an entry for a block without one on it gives. */
  lemma MoreEntries(heap: multiset<Item>, e: Item)
    requires OneEntryEach(heap) && forall a :: a in heap ==> a.sn != e.sn
    ensures OneEntryEach(heap + multiset{e})
    ensures forall a :: a in heap + multiset{e} <==> a in heap || a == e
  {
    assert e !in heap;
  }

  lemma EntriesStay(s: Scanner, heap: multiset<Item>, top: Item)
    requires forall i :: i in s.pending ==> HasEntry(s.heap, i)
    requires forall a :: a in s.heap && a != top ==> a in heap
    ensures forall i :: i in s.pending && i != top.sn ==> HasEntry(heap, i)
  {
    forall i | i in s.pending && i != top.sn
      ensures HasEntry(heap, i)
    {
      var a :| a in s.heap && a.sn == i;
      assert a in heap;
    }
  }

  lemma PopAgrees(s: Scanner, bm: set<nat>, scanned: nat, reDue: nat)
    requires Agrees(s, bm, scanned) && s.heap != multiset{}
    ensures Agrees(PopOne(s, bm, reDue), bm, scanned)
  {
    hide OneEntryEach, HasEntry, Top;
    var top := Top(s.heap);
    var rest := s.heap - multiset{top};
    TopIn(s.heap);
    RestEntries(s.heap, top);
    if top.sn in s.pending && top.sn !in bm {
      var e := Item(reDue, top.sn);
      MoreEntries(rest, e);
      EntriesStay(s, rest + multiset{e}, top);
      EntryIn(rest + multiset{e}, e);
    } else {
      EntriesStay(s, rest, top);
    }
  }

  lemma TopIn(heap: multiset<Item>)
    requires heap != multiset{}
    ensures Top(heap) in heap
  {
  }

  lemma TopScanned(sc: Scanner, bm: set<nat>, scanned: nat)
    requires Agrees(sc, bm, scanned) && sc.heap != multiset{}
    ensures Top(sc.heap).sn < scanned
  {
    assert Top(sc.heap) in sc.heap;
  }

  lemma EntryIn(heap: multiset<Item>, e: Item)
    requires e in heap
    ensures HasEntry(heap, e.sn)
  {
  }

  lemma NextApart(a: Scanner, b: Scanner, bm: set<nat>, scanned: nat)
    requires Agrees(a, bm, scanned) && b == a.(next := b.next)
    ensures Agrees(b, bm, scanned)
  {
  }
}
