/** The sender's queue of blocks to send again: a min-heap with a set beside it that
    keeps a block from being queued twice. */
module Retransmits {
  import opened Prelude
  import opened Wire

  function Asked(nacks: seq<Nack>): set<u64> {
    set n | n in nacks :: n.blockSeq
  }

  lemma AskedNext(nacks: seq<Nack>, i: nat)
    requires i < |nacks|
    ensures Asked(nacks[..i + 1]) == Asked(nacks[..i]) + {nacks[i].blockSeq}
  {
    assert nacks[..i + 1] == nacks[..i] + [nacks[i]];
  }

  class RexQueue {
    var heap: multiset<u64>
    var members: set<u64>

    /** The heap holds every member once and nothing else. */
    ghost predicate Valid()
      reads this
    {
      heap == multiset(members)
    }

    constructor ()
      ensures Valid() && members == {}
    {
      heap, members := multiset{}, {};
    }

    /** `push_retransmits` */
    method Push(nacks: seq<Nack>)
      requires Valid()
      modifies this
      ensures Valid() && members == old(members) + Asked(nacks)
    {
      for i := 0 to |nacks|
        invariant Valid() && members == old(members) + Asked(nacks[..i])
      {
        AskedNext(nacks, i);
        var sn := nacks[i].blockSeq;
        if sn !in members {
          members := members + {sn};
          heap := heap + multiset{sn};
        }
      }
      assert nacks[..|nacks|] == nacks;
    }

    /** `pop_retransmit` */
    method Pop() returns (sn: Option<u64>)
      requires Valid()
      modifies this
      ensures Valid()
      ensures sn == if old(members) == {} then None else Some(MinOf(old(members)))
      ensures members == old(members) - if sn.Some? then {sn.value} else {}
    {
      var entries := set x | x in heap;
      assert entries == members;
      if heap == multiset{} {
        return None;
      }
      var top := MinOf(entries);
      heap := heap - multiset{top};
      members := members - {top};
      return Some(top);
    }

    /** `rex_len` reads the heap, the statistics read the set: they agree. */
    method Len() returns (n: nat)
      requires Valid()
      ensures n == |members|
    {
      n := |heap|;
    }
  }

  // ---- any history of pushes and pops ----

  datatype Op = Push(nacks: seq<Nack>) | Pop

  /** The members after a history that starts empty. */
  function After(ops: seq<Op>): set<u64>
    decreases |ops|
  {
    if ops == [] then {}
    else
      var q := After(ops[..|ops| - 1]);
      match ops[|ops| - 1]
      case Push(nacks) => q + Asked(nacks)
      case Pop => if q == {} then q else q - {MinOf(q)}
  }

  /** What the pops of a history returned, in order. */
  function Served(ops: seq<Op>): seq<u64>
    decreases |ops|
  {
    if ops == [] then []
    else
      var init := ops[..|ops| - 1];
      if ops[|ops| - 1].Pop? && After(init) != {} then Served(init) + [MinOf(After(init))] else Served(init)
  }

  /** How many pushes named block `sn`. */
  function Requests(ops: seq<Op>, sn: u64): nat
    decreases |ops|
  {
    if ops == [] then 0
    else
      var last := ops[|ops| - 1];
      Requests(ops[..|ops| - 1], sn) + if last.Push? && sn in Asked(last.nacks) then 1 else 0
  }

  /** No block is sent again without a request of its own: those served and the one still
      queued never outnumber the requests, and a request is never lost. */
  lemma {:induction false} ServedOncePerRequest(ops: seq<Op>, sn: u64)
    ensures multiset(Served(ops))[sn] + (if sn in After(ops) then 1 else 0) <= Requests(ops, sn)
    ensures Requests(ops, sn) > 0 ==> sn in Served(ops) || sn in After(ops)
    decreases |ops|
  {
    if ops != [] {
      ServedOncePerRequest(ops[..|ops| - 1], sn);
    }
  }

  /** The members of a queue in the order in which pops alone would return them. */
  function Drained(q: set<u64>): seq<u64>
    decreases |q|
  {
    if q == {} then [] else [MinOf(q)] + Drained(q - {MinOf(q)})
  }

  /** Popping alone returns exactly the members, each once, in ascending order. */
  lemma {:induction false} DrainAscends(q: set<u64>)
    ensures Elements(Drained(q)) == q && |Drained(q)| == |q|
    ensures Ascending(Drained(q))
    decreases |q|
  {
    hide MinOf;
    if q != {} {
      var x := MinOf(q);
      var rest := q - {x};
      DrainAscends(rest);
      AscendPrepend(x, Drained(rest));
      assert q == {x} + rest;
    }
  }

  function Elements(s: seq<u64>): set<u64> { set x | x in s }

  predicate Ascending(s: seq<u64>) { forall i, j :: 0 <= i < j < |s| ==> s[i] < s[j] }

  lemma AscendPrepend(x: u64, s: seq<u64>)
    requires Ascending(s) && forall y :: y in Elements(s) ==> x < y
    ensures Ascending([x] + s) && Elements([x] + s) == {x} + Elements(s)
  {
    assert forall i :: 0 <= i < |s| ==> s[i] in Elements(s);
  }

  function Pops(k: nat): seq<Op> { seq(k, _ => Pop) }

  lemma PopStep(ops: seq<Op>)
    requires After(ops) != {}
    ensures After(ops + [Pop]) == After(ops) - {MinOf(After(ops))}
    ensures Served(ops + [Pop]) == Served(ops) + [MinOf(After(ops))]
  {
    hide MinOf;
    assert (ops + [Pop])[..|ops|] == ops;
  }

  /** After any history, as many pops as the queue has members drain it. */
  lemma {:induction false} PopsDrain(ops: seq<Op>, k: nat)
    requires k == |After(ops)|
    ensures Served(ops + Pops(k)) == Served(ops) + Drained(After(ops))
    ensures After(ops + Pops(k)) == {}
    decreases k
  {
    hide MinOf, After, Served;
    if k == 0 {
      assert ops + Pops(k) == ops;
    } else {
      PopStep(ops);
      PopsDrain(ops + [Pop], k - 1);
      assert ops + [Pop] + Pops(k - 1) == ops + Pops(k);
    }
  }
}
