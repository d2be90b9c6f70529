/** The order of texts by code points, as `sorted` and string comparison use it. */
module Texts {

  /** `a <= b` */
  predicate Leq(a: string, b: string) {
    a == "" || (b != "" && (a[0] < b[0] || (a[0] == b[0] && Leq(a[1..], b[1..]))))
  }

  lemma {:induction false} LeqIsTotal(a: string, b: string)
    ensures Leq(a, b) || Leq(b, a)
  {
    if a != "" && b != "" {
      LeqIsTotal(a[1..], b[1..]);
    }
  }

  lemma {:induction false} LeqIsTransitive(a: string, b: string, c: string)
    requires Leq(a, b) && Leq(b, c)
    ensures Leq(a, c)
  {
    if a != "" && a[0] == b[0] == c[0] {
      LeqIsTransitive(a[1..], b[1..], c[1..]);
    }
  }

  lemma {:induction false} LeqIsAntisymmetric(a: string, b: string)
    requires Leq(a, b) && Leq(b, a)
    ensures a == b
  {
    if a != "" {
      LeqIsAntisymmetric(a[1..], b[1..]);
      assert a == [a[0]] + a[1..] && b == [b[0]] + b[1..];
    }
  }

  /** They differ first at position `i`, and `a` has the lesser character there. */
  predicate LessAt(a: string, b: string, i: nat) {
    i < |a| && i < |b| && a[..i] == b[..i] && a[i] < b[i]
  }

  /** A text comes before those that it begins and those that have a greater character where the two first differ. */
  lemma {:induction false} LeqIsLexicographic(a: string, b: string)
    ensures Leq(a, b) <==> a <= b || exists i: nat :: LessAt(a, b, i)
  {
    if a != "" && b != "" && a[0] == b[0] {
      LeqIsLexicographic(a[1..], b[1..]);
      assert a == [a[0]] + a[1..] && b == [b[0]] + b[1..];
      if i: nat :| LessAt(a[1..], b[1..], i) {
        assert a[..i + 1] == [a[0]] + a[1..][..i] && b[..i + 1] == [b[0]] + b[1..][..i];
        assert LessAt(a, b, i + 1);
      }
      if i: nat :| LessAt(a, b, i) {
        assert i > 0;
        assert a[1..][..i - 1] == a[..i][1..] && b[1..][..i - 1] == b[..i][1..];
        assert LessAt(a[1..], b[1..], i - 1);
      }
    } else if a != "" && b != "" && a[0] < b[0] {
      assert LessAt(a, b, 0);
    }
  }

  ghost predicate Ascending(texts: seq<string>) {
    forall i, j :: 0 <= i < j < |texts| ==> Leq(texts[i], texts[j]) && texts[i] != texts[j]
  }

  function Elements(texts: seq<string>): set<string> {
    set x | x in texts
  }

  /** Where a new text belongs. */
  function Place(texts: seq<string>, x: string): nat
    ensures Place(texts, x) <= |texts|
  {
    if texts == [] then 0
    else
      var n := |texts| - 1;
      if Leq(texts[n], x) then |texts| else Place(texts[..n], x)
  }

  lemma {:induction false} PlaceSplits(texts: seq<string>, x: string)
    requires Ascending(texts) && x !in texts
    ensures var k := Place(texts, x);
            && (forall i :: 0 <= i < k ==> Leq(texts[i], x))
            && (forall i :: k <= i < |texts| ==> Leq(x, texts[i]))
  {
    if texts != [] {
      var n := |texts| - 1;
      if Leq(texts[n], x) {
        forall i | 0 <= i < n ensures Leq(texts[i], x) {
          LeqIsTransitive(texts[i], texts[n], x);
        }
      } else {
        LeqIsTotal(texts[n], x);
        PlaceSplits(texts[..n], x);
      }
    }
  }

  function With(texts: seq<string>, x: string): seq<string> {
    texts[..Place(texts, x)] + [x] + texts[Place(texts, x)..]
  }

  function Shifted(k: nat, i: nat): nat {
    if i < k then i else if i == 0 then 0 else i - 1
  }

  lemma WithAt(texts: seq<string>, x: string, i: nat)
    requires i <= |texts|
    ensures With(texts, x)[i] == if i == Place(texts, x) then x else texts[Shifted(Place(texts, x), i)]
  {
  }

  lemma WithAscends(texts: seq<string>, x: string)
    requires Ascending(texts) && x !in texts
    ensures Ascending(With(texts, x))
  {
    PlaceSplits(texts, x);
    forall i, j | 0 <= i < j < |With(texts, x)|
      ensures Leq(With(texts, x)[i], With(texts, x)[j]) && With(texts, x)[i] != With(texts, x)[j]
    {
      WithAt(texts, x, i);
      WithAt(texts, x, j);
    }
  }

  lemma WithAdds(texts: seq<string>, x: string)
    ensures Elements(With(texts, x)) == Elements(texts) + {x}
  {
    assert texts == texts[..Place(texts, x)] + texts[Place(texts, x)..];
  }

  lemma NonemptyHasElements(texts: seq<string>)
    ensures texts != [] ==> Elements(texts) != {}
  {
    if texts != [] {
      assert texts[0] in Elements(texts);
    }
  }

  /** Two ascending lists of the same texts are the same list. */
  lemma {:induction false} AscendingIsUnique(a: seq<string>, b: seq<string>)
    requires Ascending(a) && Ascending(b) && Elements(a) == Elements(b)
    ensures a == b
  {
    if a == [] {
      NonemptyHasElements(b);
    } else {
      LastIsGreatest(a, b);
      var m, n := |a| - 1, |b| - 1;
      PrefixLosesTheLast(a);
      PrefixLosesTheLast(b);
      AscendingIsUnique(a[..m], b[..n]);
      assert a == a[..m] + [a[m]] && b == b[..n] + [b[n]];
    }
  }

  lemma LastIsGreatest(a: seq<string>, b: seq<string>)
    requires Ascending(a) && Ascending(b) && Elements(a) == Elements(b) && a != []
    ensures b != [] && a[|a| - 1] == b[|b| - 1]
  {
    var m := |a| - 1;
    assert a[m] in Elements(b);
    var j :| 0 <= j < |b| && b[j] == a[m];
    var n := |b| - 1;
    assert b[n] in Elements(a);
    var i :| 0 <= i < |a| && a[i] == b[n];
    if i < m && j < n {
      LeqIsAntisymmetric(a[m], b[n]);
    }
  }

  lemma PrefixLosesTheLast(a: seq<string>)
    requires Ascending(a) && a != []
    ensures Elements(a[..|a| - 1]) == Elements(a) - {a[|a| - 1]}
  {
    var m := |a| - 1;
    assert a == a[..m] + [a[m]];
    assert a[m] !in a[..m];
  }

  /** `sorted` of a set. */
  method Sorted(texts: set<string>) returns (r: seq<string>)
    ensures Ascending(r) && Elements(r) == texts
  {
    r := [];
    var rest := texts;
    while rest != {}
      invariant rest <= texts && Ascending(r) && Elements(r) == texts - rest
      decreases rest
    {
      var x :| x in rest;
      assert x !in Elements(r);
      WithAscends(r, x);
      WithAdds(r, x);
      r := With(r, x);
      rest := rest - {x};
    }
  }
}
