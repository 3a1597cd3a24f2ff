// Paths that grow at their end, and the order "lies below".
module Paths {
  datatype Path = Top | In(parent: Path, name: string)

  predicate Under(q: Path, t: Path) {
    q.In? && (q.parent == t || Under(q.parent, t))
  }

  predicate AtOrUnder(q: Path, t: Path) {
    q == t || Under(q, t)
  }

  function Depth(q: Path): nat {
    if q.Top? then 0 else 1 + Depth(q.parent)
  }

  lemma UnderIsDeeper(q: Path, t: Path)
    requires Under(q, t)
    ensures Depth(q) > Depth(t)
  {
  }

  lemma {:induction false} CommonDescendant(q: Path, a: Path, b: Path)
    requires AtOrUnder(q, a) && AtOrUnder(q, b)
    ensures AtOrUnder(a, b) || AtOrUnder(b, a)
  {
    if q != a && q != b {
      CommonDescendant(q.parent, a, b);
    }
  }

  lemma UnderChild(q: Path, t: Path, n: string)
    requires Under(q, In(t, n))
    ensures Under(q, t)
  {
  }

  // Two children of one directory have nothing below them in common.
  lemma ChildrenApart(a: Path, x: string, y: string, q: Path)
    requires x != y && AtOrUnder(q, In(a, x))
    ensures !AtOrUnder(q, In(a, y)) && q != a
  {
    if q == a && Under(q, In(a, x)) {
      UnderIsDeeper(a, In(a, x));
    }
    if AtOrUnder(q, In(a, y)) {
      CommonDescendant(q, In(a, x), In(a, y));
      SiblingsApart(a, x, y);
      SiblingsApart(a, y, x);
    }
  }

  lemma SiblingsApart(a: Path, x: string, y: string)
    requires x != y
    ensures !AtOrUnder(In(a, x), In(a, y))
  {
    if Under(a, In(a, y)) {
      UnderIsDeeper(a, In(a, y));
    }
  }

  // The location reached from a base by a list of names.
  function Extend(base: Path, names: seq<string>): Path {
    if names == [] then base else In(Extend(base, names[..|names| - 1]), names[|names| - 1])
  }

  lemma ExtendOnce(base: Path, names: seq<string>, n: string)
    ensures Extend(base, names + [n]) == In(Extend(base, names), n)
  {
    assert (names + [n])[..|names|] == names;
  }

  lemma {:induction false} ExtendIsBelow(base: Path, names: seq<string>)
    ensures AtOrUnder(Extend(base, names), base)
    decreases |names|
  {
    if names != [] {
      ExtendIsBelow(base, names[..|names| - 1]);
    }
  }

  lemma {:induction false} BelowIsExtend(q: Path, base: Path) returns (names: seq<string>)
    requires AtOrUnder(q, base)
    ensures q == Extend(base, names)
  {
    if q == base {
      names := [];
    } else {
      names := BelowIsExtend(q.parent, base);
      ExtendOnce(base, names, q.name);
      names := names + [q.name];
    }
  }
}
