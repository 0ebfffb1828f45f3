/** Small types and facts shared by every module. */
module Common {

  datatype Option<+T> = None | Some(value: T)

  datatype Result<+T, +E> = Ok(value: T) | Err(error: E)

  /** The values of a map after one insertion. */
  lemma ValuesWith<K, V>(m: map<K, V>, k: K, v: V)
    requires k !in m
    ensures m[k := v].Values == m.Values + {v}
  {
    assert m[k := v][k] == v;
    forall x | x in m.Values ensures x in m[k := v].Values {
      var j :| j in m && m[j] == x;
      assert m[k := v][j] == x;
    }
  }

  ghost predicate Distinct<T>(items: seq<T>) {
    forall i, j :: 0 <= i < j < |items| ==> items[i] != items[j]
  }

  /** The elements of a set in some order. */
  method Listed<T(==)>(elements: set<T>) returns (items: seq<T>)
    ensures Distinct(items) && forall x :: x in items <==> x in elements
  {
    items := [];
    var rest := elements;
    while rest != {}
      invariant Distinct(items) && rest <= elements
      invariant forall x :: x in items <==> x in elements - rest
      decreases |rest|
    {
      var x :| x in rest;
      assert x !in items && forall i :: 0 <= i < |items| ==> items[i] in items;
      items, rest := items + [x], rest - {x};
    }
  }

  // ---------------------------------------------------------------- sorted strings

  /** Lexicographic order, equality included. */
  predicate Before(a: string, b: string)
    decreases |a|
  {
    a == [] || (b != [] && (a[0] < b[0] || (a[0] == b[0] && Before(a[1..], b[1..]))))
  }

  /** The first difference decides, and a prefix comes first. */
  lemma {:induction false} BeforeIsLexicographic(a: string, b: string)
    ensures Before(a, b) <==>
              || a <= b
              || exists k :: 0 <= k < |a| && k < |b| && a[..k] == b[..k] && a[k] < b[k]
    decreases |a|
  {
    if a != [] && b != [] && a[0] == b[0] {
      BeforeIsLexicographic(a[1..], b[1..]);
      if Before(a[1..], b[1..]) && !(a[1..] <= b[1..]) {
        var k :| 0 <= k < |a[1..]| && k < |b[1..]| && a[1..][..k] == b[1..][..k] && a[1..][k] < b[1..][k];
        assert a[..k + 1] == [a[0]] + a[1..][..k] && b[..k + 1] == [b[0]] + b[1..][..k];
        assert a[k + 1] < b[k + 1];
      }
      if k :| 0 <= k < |a| && k < |b| && a[..k] == b[..k] && a[k] < b[k] {
        assert k > 0;
        assert a[1..][..k - 1] == a[..k][1..] && b[1..][..k - 1] == b[..k][1..];
        assert a[1..][k - 1] < b[1..][k - 1];
      }
    }
    if a != [] && b != [] && a[0] < b[0] {
      assert a[..0] == b[..0];
    }
    if k :| 0 <= k < |a| && k < |b| && a[..k] == b[..k] && a[k] < b[k] {
      if k > 0 { assert a[0] == a[..k][0] && b[0] == b[..k][0]; }
    }
  }

  lemma {:induction false} BeforeIsTotal(a: string, b: string)
    ensures Before(a, b) || Before(b, a)
    ensures Before(a, b) && Before(b, a) ==> a == b
    decreases |a|
  {
    if a != [] && b != [] && a[0] == b[0] {
      BeforeIsTotal(a[1..], b[1..]);
      assert a == [a[0]] + a[1..] && b == [b[0]] + b[1..];
    }
  }

  lemma {:induction false} BeforeIsTransitive(a: string, b: string, c: string)
    requires Before(a, b) && Before(b, c)
    ensures Before(a, c)
    decreases |a|
  {
    if a != [] && a[0] == b[0] && b[0] == c[0] {
      BeforeIsTransitive(a[1..], b[1..], c[1..]);
    }
  }

  ghost predicate IsLeast(s: set<string>, x: string) {
    x in s && forall y :: y in s ==> Before(x, y)
  }

  lemma {:induction false} LeastExists(s: set<string>) returns (x: string)
    requires s != {}
    ensures IsLeast(s, x)
    decreases |s|
  {
    x :| x in s;
    BeforeIsTotal(x, x);
    if s != {x} {
      var z := LeastExists(s - {x});
      BeforeIsTotal(x, z);
      forall y | y in s - {x} && Before(x, z) ensures Before(x, y) {
        BeforeIsTransitive(x, z, y);
      }
      if !Before(x, z) { x := z; }
    }
  }

  ghost predicate Ascending(items: seq<string>) {
    forall i, j :: 0 <= i < j < |items| ==> Before(items[i], items[j])
  }

  /** The elements of a set of strings in ascending order. */
  method Ordered(elements: set<string>) returns (items: seq<string>)
    ensures Distinct(items) && Ascending(items) && forall x :: x in items <==> x in elements
  {
    items := [];
    var rest := elements;
    while rest != {}
      invariant Distinct(items) && Ascending(items) && rest <= elements
      invariant forall x :: x in items <==> x in elements - rest
      invariant forall i, y :: 0 <= i < |items| && y in rest ==> Before(items[i], y)
      decreases |rest|
    {
      ghost var least := LeastExists(rest);
      assert least in rest && forall y :: y in rest ==> Before(least, y);
      var x :| x in rest && forall y :: y in rest ==> Before(x, y);
      assert x !in items && forall i :: 0 <= i < |items| ==> items[i] in items;
      items, rest := items + [x], rest - {x};
    }
  }
}
