/** Keeping the first of each class of an equivalence, as it is seen. */
module Classes {

  predicate Seen<T>(same: (T, T) -> bool, kept: seq<T>, x: T) {
    exists i | 0 <= i < |kept| :: same(kept[i], x)
  }

  function Representatives<T>(same: (T, T) -> bool, xs: seq<T>): seq<T> {
    if xs == [] then []
    else
      var kept, x := Representatives(same, xs[..|xs| - 1]), xs[|xs| - 1];
      if Seen(same, kept, x) then kept else kept + [x]
  }

  /** `same` behaves as an equivalence on the elements of `xs`. */
  ghost predicate EquivalentOn<T(!new)>(same: (T, T) -> bool, xs: seq<T>) {
    && (forall x | x in xs :: same(x, x))
    && (forall x, y | x in xs && y in xs && same(x, y) :: same(y, x))
    && (forall x, y, z | x in xs && y in xs && z in xs && same(x, y) && same(y, z) :: same(x, z))
  }

  ghost predicate AllSame<T(!new)>(same: (T, T) -> bool, xs: seq<T>) {
    forall x, y | x in xs && y in xs :: same(x, y)
  }

  /** Each element has a representative, and the first one kept is the first one seen. */
  lemma {:induction false} EachRepresented<T(!new)>(same: (T, T) -> bool, xs: seq<T>)
    requires EquivalentOn(same, xs)
    ensures var kept := Representatives(same, xs);
      && (forall r | r in kept :: r in xs)
      && (forall x | x in xs :: Seen(same, kept, x))
      && (forall i, j | 0 <= i < j < |kept| :: !same(kept[i], kept[j]))
      && (xs != [] ==> kept != [] && kept[0] == xs[0])
  {
    if xs != [] {
      var init, last := xs[..|xs| - 1], xs[|xs| - 1];
      EachRepresented(same, init);
      var kept, after := Representatives(same, init), Representatives(same, xs);
      forall x | x in xs ensures Seen(same, after, x) {
        if x in init {
          var i :| 0 <= i < |kept| && same(kept[i], x);
          assert after[i] == kept[i];
        } else if !Seen(same, kept, last) {
          assert same(after[|kept|], x);
        }
      }
    }
  }

  /** There is exactly one representative when there are elements and all are the same; it is the first. */
  lemma OneRepresentative<T(!new)>(same: (T, T) -> bool, xs: seq<T>)
    requires EquivalentOn(same, xs)
    ensures Representatives(same, xs) == [] <==> xs == []
    ensures |Representatives(same, xs)| <= 1 <==> AllSame(same, xs)
    ensures xs != [] ==> Representatives(same, xs) != [] && Representatives(same, xs)[0] == xs[0]
  {
    EachRepresented(same, xs);
    var kept := Representatives(same, xs);
    if |kept| <= 1 {
      forall x, y | x in xs && y in xs ensures same(x, y) {
        assert Seen(same, kept, x) && Seen(same, kept, y);
        assert kept[0] in xs && same(kept[0], x) && same(kept[0], y);
      }
    } else {
      assert kept[0] in xs && kept[1] in xs && !same(kept[0], kept[1]);
    }
  }

  lemma {:induction false} RepresentativesAreFewer<T>(same: (T, T) -> bool, xs: seq<T>)
    ensures |Representatives(same, xs)| <= |xs|
  {
    if xs != [] {
      RepresentativesAreFewer(same, xs[..|xs| - 1]);
    }
  }
}
