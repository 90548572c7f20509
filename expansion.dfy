// The expansion of compressed rows into a flat list: `reduce(lambda res, el: res + el,
// [[t] * n for t, n in zip(T, N)], [])`, used to build the age list `gen_t` handed to the
// data generators (lifetimes/estimation.py:805, 997, 1133, 1341) and the list `test_ts`
// of the validator (lifetimes/validation.py:68-69).

module AgeExpansion {

  /** A negative count behaves as zero, as in `[t] * n` and `range(n)`. */
  function Pos(n: int): nat {
    if n <= 0 then 0 else n
  }

  /** `[x] * n`. */
  function Repeat<T>(x: T, n: int): (r: seq<T>)
    ensures |r| == Pos(n)
    ensures forall i :: 0 <= i < |r| ==> r[i] == x
    decreases n
  {
    if n <= 0 then [] else [x] + Repeat(x, n - 1)
  }

  /** The specification of the expansion: the blocks `[xs[i]] * ns[i]`, one after the
      other in row order, over the pairs of `zip(xs, ns)`. */
  function Expand<T>(xs: seq<T>, ns: seq<int>): seq<T>
    decreases |xs|
  {
    if |xs| == 0 || |ns| == 0 then [] else Repeat(xs[0], ns[0]) + Expand(xs[1..], ns[1..])
  }

  /** The left fold the source writes: `reduce(lambda res, el: res + el, blocks, acc)`. */
  function ReduceConcat<T>(acc: seq<T>, xs: seq<T>, ns: seq<int>): seq<T>
    decreases |xs|
  {
    if |xs| == 0 || |ns| == 0 then acc
    else ReduceConcat(acc + Repeat(xs[0], ns[0]), xs[1..], ns[1..])
  }

  /** The total number of units Σ max(n_i, 0). */
  function Units(ns: seq<int>): nat {
    if |ns| == 0 then 0 else Pos(ns[0]) + Units(ns[1..])
  }

  /** The left fold computes the block concatenation. */
  lemma {:induction false} ReduceIsExpand<T>(acc: seq<T>, xs: seq<T>, ns: seq<int>)
    ensures ReduceConcat(acc, xs, ns) == acc + Expand(xs, ns)
    decreases |xs|
  {
    if |xs| == 0 || |ns| == 0 {
      assert acc + [] == acc;
    } else {
      ReduceIsExpand(acc + Repeat(xs[0], ns[0]), xs[1..], ns[1..]);
      assert (acc + Repeat(xs[0], ns[0])) + Expand(xs[1..], ns[1..])
          == acc + (Repeat(xs[0], ns[0]) + Expand(xs[1..], ns[1..]));
    }
  }

  /** The expansion of equally long columns has Σ max(N_i, 0) entries. */
  lemma {:induction false} ExpandLength<T>(xs: seq<T>, ns: seq<int>)
    requires |xs| == |ns|
    ensures |Expand(xs, ns)| == Units(ns)
    decreases |xs|
  {
    if |xs| > 0 {
      ExpandLength(xs[1..], ns[1..]);
    }
  }

  /** Unit u of row i sits right after the units of the rows before it: each xs[i]
      appears ns[i] times consecutively, in row order. */
  lemma {:induction false} ExpandAt<T>(xs: seq<T>, ns: seq<int>, i: nat, u: nat)
    requires |xs| == |ns|
    requires i < |xs| && u < ns[i]
    ensures Units(ns[..i]) + u < |Expand(xs, ns)|
    ensures Expand(xs, ns)[Units(ns[..i]) + u] == xs[i]
    decreases i
  {
    ExpandLength(xs, ns);
    ExpandLength(xs[1..], ns[1..]);
    var head := Repeat(xs[0], ns[0]);
    if i == 0 {
      assert ns[..0] == [];
    } else {
      ExpandAt(xs[1..], ns[1..], i - 1, u);
      assert ns[..i][1..] == ns[1..][..i - 1];
      assert Units(ns[..i]) == Pos(ns[0]) + Units(ns[1..][..i - 1]);
      assert Expand(xs, ns) == head + Expand(xs[1..], ns[1..]);
    }
  }

  /** The fold the source evaluates has the same length and layout. */
  lemma {:induction false} GenTLayout<T>(xs: seq<T>, ns: seq<int>, i: nat, u: nat)
    requires |xs| == |ns|
    requires i < |xs| && u < ns[i]
    ensures |ReduceConcat([], xs, ns)| == Units(ns)
    ensures Units(ns[..i]) + u < Units(ns)
    ensures ReduceConcat([], xs, ns)[Units(ns[..i]) + u] == xs[i]
  {
    ReduceIsExpand([], xs, ns);
    assert [] + Expand(xs, ns) == Expand(xs, ns);
    ExpandLength(xs, ns);
    ExpandAt(xs, ns, i, u);
  }

  /** Rows with all weights one expand to themselves. */
  lemma {:induction false} ExpandOnes<T>(xs: seq<T>, ns: seq<int>)
    requires |xs| == |ns|
    requires forall j :: 0 <= j < |ns| ==> ns[j] == 1
    ensures Expand(xs, ns) == xs
    decreases |xs|
  {
    if |xs| > 0 {
      ExpandOnes(xs[1..], ns[1..]);
      assert Repeat(xs[0], ns[0]) == [xs[0]];
      assert xs == [xs[0]] + xs[1..];
    }
  }

  /** The elementwise image of a sequence. */
  function Map<A, B>(f: A -> B, s: seq<A>): (r: seq<B>)
    ensures |r| == |s|
    ensures forall i :: 0 <= i < |s| ==> r[i] == f(s[i])
  {
    seq(|s|, i requires 0 <= i < |s| => f(s[i]))
  }

  /** `[1] * n`, the weights of an uncompressed dataset. */
  function Ones(n: nat): (r: seq<int>)
    ensures |r| == n && forall j :: 0 <= j < n ==> r[j] == 1
  {
    seq(n, _ => 1)
  }

  /** Applying a per-row function commutes with expanding the rows. */
  lemma {:induction false} MapExpand<A, B>(f: A -> B, xs: seq<A>, ns: seq<int>)
    requires |xs| == |ns|
    ensures Map(f, Expand(xs, ns)) == Expand(Map(f, xs), ns)
    decreases |xs|
  {
    if |xs| > 0 {
      MapExpand(f, xs[1..], ns[1..]);
      var head := Repeat(xs[0], ns[0]);
      var rest := Expand(xs[1..], ns[1..]);
      assert Map(f, head + rest) == Map(f, head) + Map(f, rest);
      assert Map(f, head) == Repeat(f(xs[0]), ns[0]);
      assert Map(f, xs)[1..] == Map(f, xs[1..]);
    }
  }
}
