/** Generic sequence helpers shared by the rest of the model. */
module Seqs {

  function Min(a: int, b: int): int { if a <= b then a else b }

  /** `Array.prototype.flat()` on a list of lists, folded from the right end so
      that appending one more list is one unfolding step. */
  function Flatten<T>(ss: seq<seq<T>>): seq<T>
  {
    if ss == [] then [] else Flatten(ss[..|ss| - 1]) + ss[|ss| - 1]
  }

  /** Sum of the lengths of the lists in `ss`. */
  function SumLengths<T>(ss: seq<seq<T>>): nat
  {
    if ss == [] then 0 else SumLengths(ss[..|ss| - 1]) + |ss[|ss| - 1]|
  }

  lemma {:induction false} FlattenLength<T>(ss: seq<seq<T>>)
    ensures |Flatten(ss)| == SumLengths(ss)
  {
    if ss != [] {
      FlattenLength(ss[..|ss| - 1]);
    }
  }

  lemma FlattenAppend<T>(ss: seq<seq<T>>, s: seq<T>)
    ensures Flatten(ss + [s]) == Flatten(ss) + s
  {
    assert (ss + [s])[..|ss|] == ss;
  }

  lemma {:induction false} FlattenCons<T>(s: seq<T>, ss: seq<seq<T>>)
    ensures Flatten([s] + ss) == s + Flatten(ss)
    decreases |ss|
  {
    if ss == [] {
      assert [s] + ss == [s] && [s][..0] == [];
    } else {
      var init := ss[..|ss| - 1];
      assert ([s] + ss)[..|ss|] == [s] + init;
      FlattenCons(s, init);
    }
  }

  /** The last item of a concatenation and what comes before it. */
  lemma InitOfAppend<T>(a: seq<T>, b: seq<T>)
    requires b != []
    ensures (a + b)[..|a + b| - 1] == a + b[..|b| - 1]
    ensures (a + b)[|a + b| - 1] == b[|b| - 1]
  {
  }

  /** Concatenation regroups. */
  lemma AppendAssoc<T>(a: seq<T>, b: seq<T>, c: seq<T>)
    ensures (a + b) + c == a + (b + c)
  {
  }

  lemma SumLengthsAppend<T>(ss: seq<seq<T>>, s: seq<T>)
    ensures SumLengths(ss + [s]) == SumLengths(ss) + |s|
  {
    assert (ss + [s])[..|ss|] == ss;
  }
}

/** Facts of integer division used for batch arithmetic. */
module Arith {

  lemma DivModUnique(x: int, d: int, q: int, r: int)
    requires d >= 1 && 0 <= r < d && x == q * d + r
    ensures x / d == q && x % d == r
  {
    var q', r' := x / d, x % d;
    assert x == q' * d + r' && 0 <= r' < d;
    assert (q - q') * d == r' - r;
    if q - q' >= 1 {
      MulAtLeast(q - q', d);
    } else if q' - q >= 1 {
      MulAtLeast(q' - q, d);
    }
  }

  lemma MulAtLeast(a: int, d: int)
    requires a >= 1 && d >= 1
    ensures a * d >= d
  {
  }

  lemma MulMonotone(a: int, b: int, c: int)
    requires a <= b && c >= 0
    ensures a * c <= b * c
  {
  }

  lemma MulSucc(a: int, c: int)
    ensures (a + 1) * c == a * c + c
  {
  }

  lemma MulPred(a: int, c: int)
    ensures a * c == (a - 1) * c + c
  {
  }

  /** How many parts of at most `d` items `n` items make: `Math.ceil(n / d)`
      (`CeilDivIs`), counted one part at a time. */
  function CeilDiv(n: nat, d: nat): nat
    requires d >= 1
  {
    if n == 0 then 0 else if n <= d then 1 else 1 + CeilDiv(n - d, d)
  }

  /** `Math.ceil(n / d)` in integers is `(n + d - 1) / d`. */
  lemma CeilDivIs(n: nat, d: nat)
    requires d >= 1
    ensures CeilDiv(n, d) == (n + d - 1) / d
  {
    var q, r := n / d, n % d;
    assert n == q * d + r;
    CeilDivOf(q, r, d);
    if r == 0 {
      DivModUnique(q * d + d - 1, d, q, d - 1);
    } else {
      MulSucc(q, d);
      DivModUnique(q * d + r + d - 1, d, q + 1, r - 1);
    }
  }

  /** `CeilDiv(n, d)` parts of `d` items hold the `n` items, and one part
      fewer would not. */
  lemma {:induction false} CeilDivCovers(n: nat, d: nat)
    requires d >= 1
    ensures n <= CeilDiv(n, d) * d
    ensures CeilDiv(n, d) > 0 ==> (CeilDiv(n, d) - 1) * d < n
    decreases n
  {
    if n > d {
      CeilDivCovers(n - d, d);
      MulPred(CeilDiv(n, d), d);
      MulPred(CeilDiv(n - d, d), d);
    }
  }

  lemma {:induction false} CeilDivOf(q: nat, r: nat, d: nat)
    requires d >= 1 && r < d
    ensures CeilDiv(q * d + r, d) == if r == 0 then q else q + 1
  {
    if q > 0 {
      MulPred(q, d);
      CeilDivOf(q - 1, r, d);
      if q * d + r > d {
        assert q * d + r - d == (q - 1) * d + r;
      } else {
        assert q == 1 && r == 0 by {
          if q >= 2 {
            MulMonotone(2, q, d);
          }
        }
      }
    }
  }
}
