/** The two loop shapes the pipeline uses over its inputs, stated once:
      - `TryMap`: a `for i in range(n)` loop that appends one value per
        iteration and stops the whole computation at the first iteration that
        raises (no `try` around the body);
      - `FilterMap`: a `for item in items` loop that appends the value built from
        an item, or skips the item (a `continue`, or an exception caught inside
        the loop). */
module Loops {
  import opened Wrappers
  import opened PyValue

  /** The values of the first `n` iterations of a loop whose body is `f(c, i)`, or
      Raises once one of them raises. */
  function TryMap<C, T>(f: (C, nat) -> Option<T>, c: C, n: nat): Py<seq<T>>
    decreases n
  {
    if n == 0 then Ok([])
    else match TryMap(f, c, n - 1)
      case Raises => Raises
      case Ok(prev) =>
        match f(c, n - 1)
        case None => Raises
        case Some(x) => Ok(prev + [x])
  }

  /** The loop succeeds exactly when every iteration does, and then value `i` is the
      one iteration `i` built. */
  lemma {:induction false} TryMapShape<C, T>(f: (C, nat) -> Option<T>, c: C, n: nat)
    ensures TryMap(f, c, n).Ok? <==> forall i: nat :: i < n ==> f(c, i).Some?
    ensures TryMap(f, c, n).Ok? ==>
      (|TryMap(f, c, n).value| == n && forall i: nat :: i < n ==> TryMap(f, c, n).value[i] == f(c, i).value)
    decreases n
  {
    if n > 0 {
      TryMapShape(f, c, n - 1);
    }
  }

  /** One iteration that raises makes the whole loop raise, whatever follows it. */
  lemma TryMapAborts<C, T>(f: (C, nat) -> Option<T>, c: C, n: nat, i: nat)
    requires i < n && f(c, i).None?
    ensures TryMap(f, c, n) == Raises
  {
    TryMapShape(f, c, n);
  }

  /** The values a skipping loop has collected after walking `items`. */
  function FilterMap<A, B>(f: A -> Option<B>, items: seq<A>): seq<B>
    decreases |items|
  {
    if items == [] then []
    else
      var prev := FilterMap(f, items[..|items| - 1]);
      match f(items[|items| - 1])
      case None => prev
      case Some(x) => prev + [x]
  }

  /** The values of a concatenation are those of each part, in order: a skipped item
      costs only its own value and the order of the items is kept. */
  lemma {:induction false} FilterMapAppend<A, B>(f: A -> Option<B>, a: seq<A>, b: seq<A>)
    ensures FilterMap(f, a + b) == FilterMap(f, a) + FilterMap(f, b)
    decreases |b|
  {
    if b == [] {
      assert a + b == a;
    } else {
      var b' := b[..|b| - 1];
      assert (a + b)[..|a + b| - 1] == a + b';
      FilterMapAppend(f, a, b');
    }
  }

  /** An item `f` skips, between two stretches of input, is dropped and nothing else. */
  lemma FilterMapSkips<A, B>(f: A -> Option<B>, a: seq<A>, bad: A, b: seq<A>)
    requires f(bad).None?
    ensures FilterMap(f, a + [bad] + b) == FilterMap(f, a) + FilterMap(f, b)
  {
    FilterMapAppend(f, a + [bad], b);
    FilterMapAppend(f, a, [bad]);
    assert [bad][..0] == [];
  }

  /** At most one value per item. */
  lemma {:induction false} FilterMapBound<A, B>(f: A -> Option<B>, items: seq<A>)
    ensures |FilterMap(f, items)| <= |items|
    decreases |items|
  {
    if items != [] {
      FilterMapBound(f, items[..|items| - 1]);
    }
  }

  /** When `f` skips nothing, there is exactly one value per item, in item order. */
  lemma {:induction false} FilterMapTotal<A, B>(f: A -> Option<B>, items: seq<A>)
    requires forall j :: 0 <= j < |items| ==> f(items[j]).Some?
    ensures |FilterMap(f, items)| == |items|
    ensures forall j :: 0 <= j < |items| ==> FilterMap(f, items)[j] == f(items[j]).value
    decreases |items|
  {
    if items != [] {
      FilterMapTotal(f, items[..|items| - 1]);
    }
  }

  /** Every collected value is built from one of the items, and the items it comes
      from appear in order. */
  lemma {:induction false} FilterMapOrigin<A, B>(f: A -> Option<B>, items: seq<A>, k: nat) returns (j: nat)
    requires k < |FilterMap(f, items)|
    ensures j < |items| && f(items[j]) == Some(FilterMap(f, items)[k])
    decreases |items|
  {
    var init := items[..|items| - 1];
    if k < |FilterMap(f, init)| {
      assert FilterMap(f, items)[k] == FilterMap(f, init)[k];
      j := FilterMapOrigin(f, init, k);
      assert items[j] == init[j];
    } else {
      j := |items| - 1;
    }
  }

  /** Every item that `f` does not skip contributes its value. */
  lemma {:induction false} FilterMapKeeps<A, B>(f: A -> Option<B>, items: seq<A>, j: nat)
    requires j < |items| && f(items[j]).Some?
    ensures f(items[j]).value in FilterMap(f, items)
  {
    FilterMapAppend(f, items[..j], items[j..]);
    FilterMapAppend(f, [items[j]], items[j + 1..]);
    assert items[..j] + items[j..] == items;
    assert [items[j]] + items[j + 1..] == items[j..];
    assert FilterMap(f, [items[j]]) == [f(items[j]).value] by {
      assert [items[j]][..0] == [];
    }
  }
}
