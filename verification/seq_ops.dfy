/** The list edits every store applies to its held collections, defined once
    over any entity type `T` whose identifier is read by `idOf`, together with
    declarative descriptions of what each edit does and the lemmas that relate
    them. */
module SeqOps {

  /* ---------------------------------------------------------------------
     Declarative descriptions
     --------------------------------------------------------------------- */

  /** `a` can be obtained from `b` by deleting zero or more elements. */
  ghost predicate IsSubseq<T>(a: seq<T>, b: seq<T>)
    decreases |b|
  {
    |a| == 0 || (|b| > 0 && ((a[0] == b[0] && IsSubseq(a[1..], b[1..])) || IsSubseq(a, b[1..])))
  }

  /** `ys` keeps exactly the elements of `xs` that satisfy `p`: in their
      original order, each with its original number of occurrences. */
  ghost predicate Filtered<T>(xs: seq<T>, ys: seq<T>, p: T -> bool) {
    && IsSubseq(ys, xs)
    && (forall x | x in ys :: x in xs && p(x))
    && (forall x | x in xs && p(x) :: x in ys && multiset(ys)[x] == multiset(xs)[x])
  }

  /** Index `i` holds the first element of `xs` whose identifier is `id`. */
  ghost predicate IsFirstMatch<T>(xs: seq<T>, idOf: T -> string, id: string, i: int) {
    && 0 <= i < |xs|
    && idOf(xs[i]) == id
    && forall j | 0 <= j < i :: idOf(xs[j]) != id
  }

  /** No element of `xs` has identifier `id`. */
  ghost predicate Absent<T>(xs: seq<T>, idOf: T -> string, id: string) {
    forall i | 0 <= i < |xs| :: idOf(xs[i]) != id
  }

  /** `ys` is `xs` with its first element of identifier `id` overwritten by
      `v` at the same position, or `xs` itself when no element has that id. */
  ghost predicate ReplacedFirst<T>(xs: seq<T>, ys: seq<T>, idOf: T -> string, id: string, v: T) {
    && |ys| == |xs|
    && (Absent(xs, idOf, id) ==> ys == xs)
    && (forall i | IsFirstMatch(xs, idOf, id, i) :: ys == xs[i := v])
  }

  /** `ys` is `xs` with every element of identifier `id` removed and the rest
      kept in order, with their multiplicities. */
  ghost predicate RemovedAll<T>(xs: seq<T>, ys: seq<T>, idOf: T -> string, id: string) {
    && IsSubseq(ys, xs)
    && Absent(ys, idOf, id)
    && (forall x | x in xs && idOf(x) != id :: multiset(ys)[x] == multiset(xs)[x])
    && (Absent(xs, idOf, id) ==> ys == xs)
  }

  /** `ys` is `xs` with `v` put in front and every old element shifted one place right. */
  ghost predicate Prepended<T>(xs: seq<T>, ys: seq<T>, v: T) {
    && |ys| == |xs| + 1
    && ys[0] == v
    && forall i | 0 <= i < |xs| :: ys[i + 1] == xs[i]
  }

  /** `ys` is `xs` with `v` added after its last element. */
  ghost predicate Appended<T>(xs: seq<T>, ys: seq<T>, v: T) {
    && |ys| == |xs| + 1
    && ys[|xs|] == v
    && forall i | 0 <= i < |xs| :: ys[i] == xs[i]
  }

  /* ---------------------------------------------------------------------
     Operations
     --------------------------------------------------------------------- */

  /** `Array.prototype.findIndex` on the identifier: the first index whose
      element has identifier `id`, or -1 when there is none. */
  function FindIndex<T>(xs: seq<T>, idOf: T -> string, id: string): (r: int)
    ensures -1 <= r < |xs|
    ensures r == -1 <==> Absent(xs, idOf, id)
    ensures r != -1 ==> IsFirstMatch(xs, idOf, id, r)
  {
    if |xs| == 0 then -1
    else if idOf(xs[0]) == id then 0
    else
      var k := FindIndex(xs[1..], idOf, id);
      if k == -1 then -1 else k + 1
  }

  /** `i = findIndex(x => x.id === id); if (i !== -1) xs[i] = v`. */
  function ReplaceFirstById<T>(xs: seq<T>, idOf: T -> string, id: string, v: T): (ys: seq<T>)
    ensures ReplacedFirst(xs, ys, idOf, id, v)
  {
    var i := FindIndex(xs, idOf, id);
    FirstMatchUnique(xs, idOf, id, i);
    if i == -1 then xs else xs[i := v]
  }

  /** `xs.filter(p)`; `FilterFiltered` states what it keeps. */
  function Filter<T>(xs: seq<T>, p: T -> bool): seq<T> {
    if |xs| == 0 then []
    else if p(xs[0]) then [xs[0]] + Filter(xs[1..], p)
    else Filter(xs[1..], p)
  }

  /** `xs = xs.filter(x => x.id !== id)`. */
  function RemoveAllById<T>(xs: seq<T>, idOf: T -> string, id: string): (ys: seq<T>)
    ensures RemovedAll(xs, ys, idOf, id)
  {
    var keep := (x: T) => idOf(x) != id;
    var ys := Filter(xs, keep);
    FilterFiltered(xs, keep);
    FilteredIndices(xs, ys, keep);
    FilterKeepsAbsent(xs, idOf, id, keep);
    ys
  }

  /** `xs.unshift(v)`. */
  function Prepend<T>(xs: seq<T>, v: T): (ys: seq<T>)
    ensures Prepended(xs, ys, v)
  {
    [v] + xs
  }

  /** `xs.push(v)`. */
  function Append<T>(xs: seq<T>, v: T): (ys: seq<T>)
    ensures Appended(xs, ys, v)
  {
    xs + [v]
  }

  /** The sum of `f` over `xs`, defined structurally: the reference every
      total is stated against. */
  function Sum<T>(xs: seq<T>, f: T -> int): int {
    if |xs| == 0 then 0 else f(xs[0]) + Sum(xs[1..], f)
  }

  /** `xs.reduce((sum, x) => sum + f(x), acc)`: a left fold from `acc`. */
  function Reduce<T>(xs: seq<T>, f: T -> int, acc: int): (r: int)
    ensures r == acc + Sum(xs, f)
  {
    if |xs| == 0 then acc else Reduce(xs[1..], f, acc + f(xs[0]))
  }

  /* ---------------------------------------------------------------------
     Lemmas
     --------------------------------------------------------------------- */

  lemma FirstMatchUnique<T>(xs: seq<T>, idOf: T -> string, id: string, i: int)
    requires (i == -1 && Absent(xs, idOf, id)) || IsFirstMatch(xs, idOf, id, i)
    ensures forall j | IsFirstMatch(xs, idOf, id, j) :: j == i
  {
  }

  lemma {:induction false} SubseqOfTail<T>(a: seq<T>, b: seq<T>)
    requires |b| > 0 && IsSubseq(a, b[1..])
    ensures IsSubseq(a, b)
  {
  }

  /** `Filter` keeps exactly the elements that pass, in order, with their multiplicities. */
  lemma {:induction false} FilterFiltered<T>(xs: seq<T>, p: T -> bool)
    ensures Filtered(xs, Filter(xs, p), p)
  {
    if |xs| > 0 {
      var rest := Filter(xs[1..], p);
      FilterFiltered(xs[1..], p);
      assert xs == [xs[0]] + xs[1..];
      if p(xs[0]) {
        assert ([xs[0]] + rest)[1..] == rest;
      } else {
        SubseqOfTail(rest, xs);
      }
    }
  }

  /** Every element of a filtered sequence satisfies the filter, by index. */
  lemma FilteredIndices<T>(xs: seq<T>, ys: seq<T>, p: T -> bool)
    requires Filtered(xs, ys, p)
    ensures forall i | 0 <= i < |ys| :: p(ys[i])
  {
    forall i | 0 <= i < |ys|
      ensures p(ys[i])
    {
      assert ys[i] in ys;
    }
  }

  /** A filter that every element passes returns its input. */
  lemma {:induction false} FilterKeepsAll<T>(xs: seq<T>, p: T -> bool)
    requires forall i | 0 <= i < |xs| :: p(xs[i])
    ensures Filter(xs, p) == xs
  {
    if |xs| > 0 {
      FilterKeepsAll(xs[1..], p);
      assert xs == [xs[0]] + xs[1..];
    }
  }

  /** Filtering out an id that no element carries keeps the whole list. */
  lemma FilterKeepsAbsent<T>(xs: seq<T>, idOf: T -> string, id: string, keep: T -> bool)
    requires forall x :: keep(x) == (idOf(x) != id)
    ensures Absent(xs, idOf, id) ==> Filter(xs, keep) == xs
  {
    if Absent(xs, idOf, id) {
      FilterKeepsAll(xs, keep);
    }
  }

  /** Two complementary filters split `xs` exactly: their lengths add up to
      `|xs|` and together they hold every element of `xs` as often as `xs` does. */
  lemma {:induction false} FilterPartition<T>(xs: seq<T>, p: T -> bool, q: T -> bool)
    requires forall x :: q(x) == !p(x)
    ensures multiset(Filter(xs, p)) + multiset(Filter(xs, q)) == multiset(xs)
    ensures |Filter(xs, p)| + |Filter(xs, q)| == |xs|
  {
    if |xs| > 0 {
      FilterPartition(xs[1..], p, q);
      assert xs == [xs[0]] + xs[1..];
      assert multiset(xs) == multiset{xs[0]} + multiset(xs[1..]);
    }
  }

  lemma {:induction false} SumAppend<T>(xs: seq<T>, ys: seq<T>, f: T -> int)
    ensures Sum(xs + ys, f) == Sum(xs, f) + Sum(ys, f)
  {
    if |xs| == 0 {
      assert xs + ys == ys;
    } else {
      SumAppend(xs[1..], ys, f);
      assert (xs + ys)[1..] == xs[1..] + ys;
    }
  }

  /** Overwriting one element changes a sum by exactly the difference between
      the new and the old element's contribution. */
  lemma {:induction false} SumUpdate<T>(xs: seq<T>, i: int, v: T, f: T -> int)
    requires 0 <= i < |xs|
    ensures Sum(xs[i := v], f) == Sum(xs, f) - f(xs[i]) + f(v)
  {
    if i == 0 {
      assert xs[i := v][1..] == xs[1..];
    } else {
      SumUpdate(xs[1..], i - 1, v, f);
      assert xs[i := v][1..] == xs[1..][i - 1 := v];
    }
  }

  /** Summing `f` over the elements that pass `p` is summing over all
      elements a contribution `g` that is `f` on those and 0 on the rest. */
  lemma {:induction false} SumFilterMasked<T>(xs: seq<T>, p: T -> bool, f: T -> int, g: T -> int)
    requires forall x :: g(x) == (if p(x) then f(x) else 0)
    ensures Sum(Filter(xs, p), f) == Sum(xs, g)
  {
    if |xs| > 0 {
      SumFilterMasked(xs[1..], p, f, g);
      if p(xs[0]) {
        assert ([xs[0]] + Filter(xs[1..], p))[1..] == Filter(xs[1..], p);
      }
    }
  }

  /** The sums over two complementary filters add up to the sum over all elements. */
  lemma {:induction false} SumFilterPartition<T>(xs: seq<T>, p: T -> bool, q: T -> bool, f: T -> int)
    requires forall x :: q(x) == !p(x)
    ensures Sum(Filter(xs, p), f) + Sum(Filter(xs, q), f) == Sum(xs, f)
  {
    if |xs| > 0 {
      SumFilterPartition(xs[1..], p, q, f);
      var restP, restQ := Filter(xs[1..], p), Filter(xs[1..], q);
      assert ([xs[0]] + restP)[1..] == restP;
      assert ([xs[0]] + restQ)[1..] == restQ;
    }
  }

  /** Replacing by id twice with the same response, whose id is the searched
      one, is the same as replacing once. */
  lemma ReplaceFirstIdempotent<T>(xs: seq<T>, idOf: T -> string, id: string, v: T)
    requires idOf(v) == id
    ensures ReplaceFirstById(ReplaceFirstById(xs, idOf, id, v), idOf, id, v)
         == ReplaceFirstById(xs, idOf, id, v)
  {
    var i := FindIndex(xs, idOf, id);
    if i != -1 {
      var ys := xs[i := v];
      assert IsFirstMatch(ys, idOf, id, i);
      FirstMatchUnique(ys, idOf, id, FindIndex(ys, idOf, id));
    }
  }

  /** Removing by id twice is the same as removing once. */
  lemma RemoveAllIdempotent<T>(xs: seq<T>, idOf: T -> string, id: string)
    ensures RemoveAllById(RemoveAllById(xs, idOf, id), idOf, id) == RemoveAllById(xs, idOf, id)
  {
  }

  /** Removing the id of an element just appended, when no older element
      carries that id, restores the list: delete undoes create. */
  lemma AppendThenRemove<T>(xs: seq<T>, idOf: T -> string, v: T)
    requires Absent(xs, idOf, idOf(v))
    ensures RemoveAllById(Append(xs, v), idOf, idOf(v)) == xs
  {
    var keep := (x: T) => idOf(x) != idOf(v);
    FilterSplit(xs, [v], keep);
    FilterKeepsAll(xs, keep);
    assert Filter([v], keep) == [];
  }

  /** Filtering distributes over concatenation. */
  lemma {:induction false} FilterSplit<T>(xs: seq<T>, ys: seq<T>, p: T -> bool)
    ensures Filter(xs + ys, p) == Filter(xs, p) + Filter(ys, p)
  {
    if |xs| == 0 {
      assert xs + ys == ys;
    } else {
      var zs := xs + ys;
      assert zs[0] == xs[0];
      assert zs[1..] == xs[1..] + ys;
      FilterSplit(xs[1..], ys, p);
      var a, b := Filter(xs[1..], p), Filter(ys, p);
      assert Filter(zs, p) == (if p(xs[0]) then [xs[0]] + (a + b) else a + b);
      assert Filter(xs, p) == (if p(xs[0]) then [xs[0]] + a else a);
      assert [xs[0]] + (a + b) == ([xs[0]] + a) + b;
    }
  }
}
