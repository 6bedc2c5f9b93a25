/**
 * The order in which a string-keyed map (QMap, QVariantMap) is visited:
 * ascending under QString's operator<, which compares characters in turn
 * and puts a proper prefix first.
 */
module KeyOrder {
  import Bounded

  /** QString's operator<. */
  predicate Less(a: string, b: string)
    decreases |a|
  {
    |b| > 0 && (|a| == 0 || a[0] < b[0] || (a[0] == b[0] && Less(a[1..], b[1..])))
  }

  lemma {:induction false} LessIrreflexive(a: string)
    ensures !Less(a, a)
    decreases |a|
  {
    if |a| > 0 {
      LessIrreflexive(a[1..]);
    }
  }

  lemma {:induction false} LessTransitive(a: string, b: string, c: string)
    requires Less(a, b) && Less(b, c)
    ensures Less(a, c)
    decreases |a|
  {
    if |a| > 0 && a[0] == b[0] && b[0] == c[0] {
      LessTransitive(a[1..], b[1..], c[1..]);
    }
  }

  lemma {:induction false} LessTotal(a: string, b: string)
    requires a != b
    ensures Less(a, b) || Less(b, a)
    decreases |a|
  {
    if |a| > 0 && |b| > 0 && a[0] == b[0] {
      assert a == [a[0]] + a[1..] && b == [b[0]] + b[1..];
      LessTotal(a[1..], b[1..]);
    }
  }

  lemma LessAsymmetric(a: string, b: string)
    requires Less(a, b)
    ensures !Less(b, a)
  {
    if Less(b, a) {
      LessTransitive(a, b, a);
      LessIrreflexive(a);
    }
  }

  /** k is the smallest key of s. */
  ghost predicate IsLeast(k: string, s: set<string>) {
    k in s && forall x :: x in s && x != k ==> Less(k, x)
  }

  lemma {:induction false} LeastExists(s: set<string>)
    requires s != {}
    ensures exists k :: IsLeast(k, s)
    decreases |s|
  {
    var x :| x in s;
    if s == {x} {
      assert IsLeast(x, s);
    } else {
      LeastExists(s - {x});
      var m :| IsLeast(m, s - {x});
      if Less(x, m) {
        forall y | y in s && y != x
          ensures Less(x, y)
        {
          if y != m {
            LessTransitive(x, m, y);
          }
        }
        assert IsLeast(x, s);
      } else {
        LessTotal(x, m);
        assert IsLeast(m, s);
      }
    }
  }

  lemma LeastUnique(a: string, b: string, s: set<string>)
    requires IsLeast(a, s) && IsLeast(b, s)
    ensures a == b
  {
    if a != b {
      LessAsymmetric(a, b);
    }
  }

  ghost function Least(s: set<string>): (k: string)
    requires s != {}
    ensures IsLeast(k, s)
  {
    LeastExists(s);
    var k :| IsLeast(k, s);
    k
  }

  /** The keys of s in visiting order. */
  ghost function Ordered(s: set<string>): (r: seq<string>)
    ensures |r| == |s|
    ensures forall k :: k in r <==> k in s
    decreases |s|
  {
    if s == {} then [] else [Least(s)] + Ordered(s - {Least(s)})
  }

  /** The visiting order is strictly ascending, so no key is listed twice. */
  lemma {:induction false} OrderedSpec(s: set<string>)
    ensures forall i, j :: 0 <= i < j < |Ordered(s)| ==> Less(Ordered(s)[i], Ordered(s)[j])
    decreases |s|
  {
    if s != {} {
      var k := Least(s);
      var rest := Ordered(s - {k});
      OrderedSpec(s - {k});
      assert Ordered(s) == [k] + rest;
      forall i, j | 0 <= i < j < |Ordered(s)|
        ensures Less(Ordered(s)[i], Ordered(s)[j])
      {
        if i == 0 {
          assert Ordered(s)[j] == rest[j - 1] && rest[j - 1] in rest;
        } else {
          assert Ordered(s)[i] == rest[i - 1] && Ordered(s)[j] == rest[j - 1];
        }
      }
    }
  }

  /** No key is listed twice. */
  lemma DistinctKeys(s: set<string>)
    ensures forall i, j :: 0 <= i < j < |Ordered(s)| ==> Ordered(s)[i] != Ordered(s)[j]
  {
    OrderedSpec(s);
    forall i, j | 0 <= i < j < |Ordered(s)|
      ensures Ordered(s)[i] != Ordered(s)[j]
    {
      LessIrreflexive(Ordered(s)[i]);
    }
  }

  /** One pass over the set for its smallest key. */
  method LeastOf(s: set<string>) returns (k: string)
    requires s != {}
    ensures k == Least(s)
  {
    k :| k in s;
    var todo := s - {k};
    while todo != {}
      invariant todo <= s && k in s && k !in todo
      invariant forall x :: x in s && x !in todo && x != k ==> Less(k, x)
      decreases |todo|
    {
      var y :| y in todo;
      if Less(y, k) {
        forall x | x in s && x !in todo && x != y
          ensures Less(y, x)
        {
          if x != k {
            LessTransitive(y, k, x);
          }
        }
        k := y;
      } else {
        LessTotal(y, k);
      }
      todo := todo - {y};
    }
    LeastUnique(k, Least(s), s);
  }

  /** The keys of s in visiting order, smallest first. */
  method SortedKeys(s: set<string>) returns (r: seq<string>)
    ensures r == Ordered(s)
  {
    r := [];
    var todo := s;
    while todo != {}
      invariant r + Ordered(todo) == Ordered(s)
      decreases |todo|
    {
      var k := LeastOf(todo);
      assert Ordered(todo) == [k] + Ordered(todo - {k});
      Bounded.Regrouped(r, [k], Ordered(todo - {k}));
      r := r + [k];
      todo := todo - {k};
    }
  }
}
