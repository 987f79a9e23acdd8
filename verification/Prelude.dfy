/** Small things that several modules share. */
module Prelude {
  /** Most datagrams the sender flushes at once. */
  const MAX_BATCH: nat := 64

  /** Most NACKs of a FEEDBACK that fits the sender's receive buffer of 2048 bytes. */
  const HEARD_NACKS: nat := 125

  datatype Option<+T> = None | Some(value: T)

  predicate IsMin(s: set<nat>, m: nat) {
    m in s && forall x :: x in s ==> m <= x
  }

  function MinOf(s: set<nat>): (m: nat)
    requires s != {}
    ensures IsMin(s, m)
  {
    MinExists(s);
    var m :| IsMin(s, m);
    m
  }

  lemma {:induction false} MinExists(s: set<nat>)
    requires s != {}
    ensures exists m :: IsMin(s, m)
    decreases |s|
  {
    hide IsMin;
    var x :| x in s;
    var rest := s - {x};
    if rest == {} {
      assert s == {x};
      OnlyMin(x);
    } else {
      MinExists(rest);
      var m :| IsMin(rest, m);
      assert s == rest + {x};
      MinJoin(rest, m, x);
    }
  }

  lemma OnlyMin(x: nat)
    ensures IsMin({x}, x)
  {
  }

  lemma MinJoin(rest: set<nat>, m: nat, x: nat)
    requires IsMin(rest, m)
    ensures IsMin(rest + {x}, if x < m then x else m)
  {
  }

  lemma {:induction false} CountBelow(s: set<nat>, n: nat)
    requires forall i: nat :: i in s <==> i < n
    ensures |s| == n
    decreases n
  {
    if n > 0 {
      CountBelow(s - {n - 1}, n - 1);
    } else {
      assert s == {};
    }
  }
}
