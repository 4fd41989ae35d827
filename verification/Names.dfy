/** The order of strings, in which ordered maps are walked. */
module Names {

  predicate Less(a: string, b: string) {
    if b == [] then false
    else if a == [] then true
    else if a[0] != b[0] then a[0] < b[0]
    else Less(a[1..], b[1..])
  }

  lemma {:induction false} LessTransitive(a: string, b: string, c: string)
    requires Less(a, b) && Less(b, c)
    ensures Less(a, c)
    decreases |a|
  {
    if a != [] && a[0] == b[0] && b[0] == c[0] { LessTransitive(a[1..], b[1..], c[1..]); }
  }

  lemma {:induction false} LessTotal(a: string, b: string)
    ensures Less(a, b) || Less(b, a) || a == b
    ensures !(Less(a, b) && Less(b, a)) && !Less(a, a)
    decreases |a|
  {
    Irreflexive(a);
    if a != [] && b != [] && a[0] == b[0] {
      LessTotal(a[1..], b[1..]);
      if a[1..] == b[1..] { SameParts(a, b); }
    }
  }

  lemma {:induction false} Irreflexive(a: string)
    ensures !Less(a, a)
  {
    if a != [] { Irreflexive(a[1..]); }
  }

  lemma SameParts(a: string, b: string)
    requires a != [] && b != [] && a[0] == b[0] && a[1..] == b[1..]
    ensures a == b
  {
    assert a == [a[0]] + a[1..];
    assert b == [b[0]] + b[1..];
  }

  predicate IsFirst(u: string, names: set<string>) {
    u in names && forall v :: v in names ==> v == u || Less(u, v)
  }

  lemma FirstBefore(u: string, names: set<string>)
    requires IsFirst(u, names)
    ensures forall v :: v in names ==> v == u || Less(u, v)
  {}

  lemma FirstOfTwo(x: string, u: string, rest: set<string>) returns (first: string)
    requires IsFirst(u, rest)
    ensures IsFirst(first, rest + {x})
  {
    hide Less;
    LessTotal(x, u);
    first := if Less(x, u) then x else u;
    forall v | v in rest + {x} ensures v == first || Less(first, v) {
      if v != x && v != u && Less(x, u) { LessTransitive(x, u, v); }
    }
  }

  /** Every set of names that is not empty has a first one. */
  lemma {:induction false} FirstExists(names: set<string>) returns (first: string)
    requires names != {}
    ensures IsFirst(first, names)
    decreases |names|
  {
    hide Less, IsFirst;
    var x :| x in names;
    var rest := names - {x};
    assert names == rest + {x};
    if rest == {} {
      first := x;
      OnlyOne(x);
      assert names == {x};
    } else {
      var u := FirstExists(rest);
      first := FirstOfTwo(x, u, rest);
    }
  }

  lemma OnlyOne(x: string)
    ensures IsFirst(x, {x})
  {}
}
