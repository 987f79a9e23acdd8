/** The received-block bitmap: words of 64 bits that stand for a set of block numbers. */
module Bitmap {
  /** `1u64 << k` */
  function Mask(k: bv6): bv64 { 1 << k }

  function And(w: bv64, m: bv64): bv64 { w & m }

  function Or(w: bv64, m: bv64): bv64 { w | m }

  predicate Test(w: bv64, k: bv6) {
    And(w, Mask(k)) != 0
  }

  /** `seq & 63` */
  function Low(sn: nat): bv6 {
    (sn % 64) as bv6
  }

  lemma MasksApart(j: bv6, k: bv6)
    ensures Mask(j) != 0
    ensures j != k ==> And(Mask(k), Mask(j)) == 0
  {
  }

  lemma OrSame(w: bv64, m: bv64)
    ensures And(Or(w, m), m) == m
  {
  }

  lemma OrOther(w: bv64, m: bv64, n: bv64)
    requires And(m, n) == 0
    ensures And(Or(w, m), n) == And(w, n)
  {
  }

  lemma OrSets(w: bv64, j: bv6, k: bv6)
    ensures Test(Or(w, Mask(k)), j) <==> j == k || Test(w, j)
  {
    hide Mask, And, Or;
    MasksApart(j, k);
    if j == k {
      OrSame(w, Mask(k));
    } else {
      OrOther(w, Mask(k), Mask(j));
    }
  }

  lemma SixBits(j: nat)
    requires j < 64
    ensures (j as bv6) as nat == j
  {
  }

  lemma LowApart(i: nat, j: nat)
    ensures Low(i) == Low(j) <==> i % 64 == j % 64
  {
    SixBits(i % 64);
    SixBits(j % 64);
  }

  /** OR-ing in one mask sets that bit and no other. */
  lemma OrBit(w: bv64, i: nat, sn: nat)
    ensures Test(Or(w, Mask(Low(sn))), Low(i)) <==> i % 64 == sn % 64 || Test(w, Low(i))
  {
    hide Test, Or, Mask, Low;
    LowApart(i, sn);
    OrSets(w, Low(i), Low(sn));
  }

  class RecvBitmap {
    const total: nat
    const words: array<bv64>

    ghost predicate Valid()
      reads words
    {
      total <= 64 * words.Length < total + 64
    }

    predicate Bit(i: nat)
      requires i < 64 * words.Length
      reads words
    {
      Test(words[i / 64], Low(i))
    }

    /** The set the words stand for. */
    ghost function Bits(): set<nat>
      reads words
    {
      set i: nat | i < 64 * words.Length && Bit(i)
    }

    constructor (total: nat)
      ensures this.total == total && Valid() && fresh(words) && Bits() == {}
    {
      this.total := total;
      var n := (total + 63) / 64;
      this.words := new bv64[n](_ => 0);
    }

    /** Marks `sn`, and says whether it was the first to do so. */
    method SetAndTest(sn: nat) returns (first: bool)
      requires Valid() && sn < total
      modifies words
      ensures Valid() && Bits() == old(Bits()) + {sn}
      ensures first <==> sn !in old(Bits())
    {
      hide Test, Or, Mask, Low;
      var w := sn / 64;
      var prev := words[w];
      words[w] := Or(prev, Mask(Low(sn)));
      first := !Test(prev, Low(sn));
      forall i: nat | i < 64 * words.Length
        ensures Bit(i) <==> i == sn || old(Bit(i))
      {
        if i / 64 == w {
          OrBit(prev, i, sn);
        }
      }
    }

    method IsSet(sn: nat) returns (set_: bool)
      requires Valid() && sn < total
      ensures set_ <==> sn in Bits()
    {
      hide Test, Low;
      set_ := Test(words[sn / 64], Low(sn));
    }
  }
}
