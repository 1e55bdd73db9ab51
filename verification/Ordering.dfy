/** The order `sort.Strings` puts strings in, and the sorted listing of a set of strings. */
module Ordering {
  predicate Less(a: string, b: string) {
    if a == [] then b != []
    else b != [] && (a[0] < b[0] || (a[0] == b[0] && Less(a[1..], b[1..])))
  }

  predicate StrictlySorted(s: seq<string>) {
    forall i, j :: 0 <= i < j < |s| ==> Less(s[i], s[j])
  }

  function Elements(s: seq<string>): set<string> {
    set x | x in s
  }

  /** s lists each of the keys once, in increasing order. */
  predicate Lists(s: seq<string>, keys: set<string>) {
    StrictlySorted(s) && Elements(s) == keys
  }

  lemma {:induction false} LessTransitive(a: string, b: string, c: string)
    requires Less(a, b) && Less(b, c)
    ensures Less(a, c)
  {
    if a != [] && a[0] == b[0] && b[0] == c[0] {
      LessTransitive(a[1..], b[1..], c[1..]);
    }
  }

  lemma {:induction false} LessTotal(a: string, b: string)
    ensures Less(a, b) || a == b || Less(b, a)
    ensures !(Less(a, b) && Less(b, a))
  {
    if a != [] && b != [] && a[0] == b[0] {
      LessTotal(a[1..], b[1..]);
      assert a == [a[0]] + a[1..] && b == [b[0]] + b[1..];
    }
  }

  lemma LessIrreflexive(a: string)
    ensures !Less(a, a)
  {
    LessTotal(a, a);
  }

  /** Puts x, absent so far, at its place in a sorted listing. */
  function Insert(x: string, s: seq<string>): (r: seq<string>)
    requires StrictlySorted(s) && x !in s
    ensures StrictlySorted(r) && Elements(r) == Elements(s) + {x} && |r| == |s| + 1
  {
    if s == [] then [x]
    else if Less(x, s[0]) then
      assert StrictlySorted([x] + s) by {
        forall j | 0 <= j < |s| ensures Less(x, s[j]) {
          if j > 0 { LessTransitive(x, s[0], s[j]); }
        }
      }
      [x] + s
    else
      var t := Insert(x, s[1..]);
      assert StrictlySorted([s[0]] + t) by {
        LessTotal(x, s[0]);
        forall y | y in t ensures Less(s[0], y) {
          assert y in Elements(s[1..]) + {x};
        }
      }
      assert Elements([s[0]] + t) == Elements(s) + {x} by {
        assert s == [s[0]] + s[1..];
        assert Elements(t) == Elements(s[1..]) + {x};
        assert forall y :: y in t <==> y in Elements(t);
      }
      [s[0]] + t
  }

  /** Adds one key to a sorted listing. */
  method InsertKey(x: string, s: seq<string>, ghost keys: set<string>) returns (r: seq<string>)
    requires Lists(s, keys) && x !in keys
    ensures Lists(r, keys + {x})
  {
    assert x !in Elements(s);
    r := Insert(x, s);
  }

  /** The sorted listing of a finite set: each element once, in increasing order. */
  ghost function Sorted(keys: set<string>): (r: seq<string>)
    ensures Lists(r, keys)
  {
    if keys == {} then []
    else
      var x :| x in keys;
      var rest := Sorted(keys - {x});
      assert x !in Elements(rest);
      Insert(x, rest)
  }

  /** A set has only one sorted listing, so sorting erases the order the keys were visited in. */
  lemma {:induction false} SortedIsUnique(a: seq<string>, b: seq<string>)
    requires Lists(a, Elements(b)) && StrictlySorted(b)
    ensures a == b
  {
    assert forall x :: x in a <==> x in Elements(a);
    assert forall x :: x in b <==> x in Elements(a);
    assert b != [] ==> b[0] in a;
    if a != [] {
      assert a[0] in b;
      HeadIsLeast(a, b[0]);
      HeadIsLeast(b, a[0]);
      LessTotal(a[0], b[0]);
      assert a[0] == b[0];
      TailElements(a);
      TailElements(b);
      SortedIsUnique(a[1..], b[1..]);
      assert a == [a[0]] + a[1..] && b == [b[0]] + b[1..];
    }
  }

  lemma HeadIsLeast(s: seq<string>, x: string)
    requires StrictlySorted(s) && x in s
    ensures x == s[0] || Less(s[0], x)
  {
  }

  lemma TailElements(s: seq<string>)
    requires StrictlySorted(s) && s != []
    ensures StrictlySorted(s[1..]) && Elements(s[1..]) == Elements(s) - {s[0]}
  {
    LessIrreflexive(s[0]);
    assert s == [s[0]] + s[1..];
    forall x | x in s[1..] ensures x != s[0] {
      var j :| 0 <= j < |s[1..]| && s[1..][j] == x;
      assert s[1..][j] == s[j + 1];
      assert Less(s[0], s[j + 1]);
    }
  }
}
