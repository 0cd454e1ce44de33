/** Filtering and mapping a sequence at once: what a stage does to its input. */
module FilterMaps {
  import opened Options

  /** What a stage makes of its input: transform each item, keep what it keeps, in order. */
  function FilterMap<I, O>(f: I -> Option<O>, s: seq<I>): (r: seq<O>)
    ensures |r| <= |s|
  {
    if s == [] then []
    else FilterMap(f, s[..|s| - 1]) + match f(s[|s| - 1]) { case None => [] case Some(y) => [y] }
  }

  lemma FilterMapAppend<I, O>(f: I -> Option<O>, s: seq<I>, x: I)
    ensures FilterMap(f, s + [x]) == FilterMap(f, s) + match f(x) { case None => [] case Some(y) => [y] }
  {
    assert (s + [x])[..|s|] == s;
  }

  /** A longer input only extends the output. */
  lemma {:induction false} FilterMapMonotone<I, O>(f: I -> Option<O>, s: seq<I>, t: seq<I>)
    requires s <= t
    ensures FilterMap(f, s) <= FilterMap(f, t)
    decreases |t|
  {
    if s != t {
      assert t == t[..|t| - 1] + [t[|t| - 1]];
      FilterMapMonotone(f, s, t[..|t| - 1]);
      FilterMapAppend(f, t[..|t| - 1], t[|t| - 1]);
    } else {
      assert s == t;
    }
  }

  lemma {:induction false} FilterMapConcat<I, O>(f: I -> Option<O>, s: seq<I>, t: seq<I>)
    ensures FilterMap(f, s + t) == FilterMap(f, s) + FilterMap(f, t)
  {
    if t == [] {
      assert s + t == s;
    } else {
      var rest, x := t[..|t| - 1], t[|t| - 1];
      FilterMapConcat(f, s, rest);
      var y := match f(x) { case None => [] case Some(y) => [y] };
      assert (s + t)[..|s + t| - 1] == s + rest && (s + t)[|s + t| - 1] == x;
      assert FilterMap(f, s) + FilterMap(f, rest) + y == FilterMap(f, s) + (FilterMap(f, rest) + y);
    }
  }

  lemma {:induction false} FilterMapHas<I(!new), O(!new)>(f: I -> Option<O>, s: seq<I>, x: I)
    requires x in s && f(x).Some?
    ensures f(x).value in FilterMap(f, s)
  {
    var rest, last := s[..|s| - 1], s[|s| - 1];
    assert s == rest + [last];
    if x in rest {
      FilterMapHas(f, rest, x);
    }
  }

  lemma {:induction false} FilterMapItems<I(!new), O(!new)>(f: I -> Option<O>, s: seq<I>)
    ensures FilterMap(f, s) == [] <==> forall x | x in s :: f(x).None?
    ensures forall y | y in FilterMap(f, s) :: exists x :: x in s && f(x) == Some(y)
  {
    if s != [] {
      var rest, x := s[..|s| - 1], s[|s| - 1];
      FilterMapItems(f, rest);
      assert s == rest + [x];
    }
  }
}
