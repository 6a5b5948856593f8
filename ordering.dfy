/** Python's ordering of str values (code point by code point) and the
    `sorted(d.keys())` that the questionnaire importers rank questions by. */
module Ordering {

  /** a < b on Python strings: the first differing character decides, and a
      proper prefix comes first. */
  predicate Less(a: string, b: string)
    decreases |a|
  {
    if a == [] then b != []
    else if b == [] then false
    else if a[0] != b[0] then a[0] < b[0]
    else Less(a[1..], b[1..])
  }

  lemma {:induction false} LessIrreflexive(a: string)
    ensures !Less(a, a)
    decreases |a|
  {
    if a != [] {
      LessIrreflexive(a[1..]);
    }
  }

  lemma {:induction false} LessTransitive(a: string, b: string, c: string)
    requires Less(a, b) && Less(b, c)
    ensures Less(a, c)
    decreases |a|
  {
    if a != [] && a[0] == b[0] && b[0] == c[0] {
      LessTransitive(a[1..], b[1..], c[1..]);
    }
  }

  lemma {:induction false} LessTotal(a: string, b: string)
    ensures a == b || Less(a, b) || Less(b, a)
    decreases |a|
  {
    if a != [] && b != [] && a[0] == b[0] {
      LessTotal(a[1..], b[1..]);
      if a[1..] == b[1..] {
        assert a == [a[0]] + a[1..] && b == [b[0]] + b[1..];
      }
    }
  }

  lemma LessAsymmetric(a: string, b: string)
    requires Less(a, b)
    ensures !Less(b, a)
  {
    if Less(b, a) {
      LessTransitive(a, b, a);
      LessIrreflexive(a);
    }
  }

  predicate StrictlySorted(s: seq<string>) {
    forall i, j :: 0 <= i < j < |s| ==> Less(s[i], s[j])
  }

  /** The smallest element of a non-empty set of strings. */
  ghost function Least(keys: set<string>): (m: string)
    requires keys != {}
    ensures m in keys
    ensures forall k :: k in keys && k != m ==> Less(m, k)

  {
    LeastExists(keys);
    var m :| m in keys && forall k :: k in keys && k != m ==> Less(m, k);
    m
  }

  lemma {:induction false} LeastExists(keys: set<string>)
    requires keys != {}
    ensures exists m :: m in keys && forall k :: k in keys && k != m ==> Less(m, k)
    decreases |keys|
  {
    var x :| x in keys;
    if keys != {x} {
      var rest := keys - {x};
      LeastExists(rest);
      var m :| m in rest && forall k :: k in rest && k != m ==> Less(m, k);
      LeastInsert(rest, m, x);
      assert keys == rest + {x};
      var l := if Less(x, m) then x else m;
      assert l in keys && forall k :: k in keys && k != l ==> Less(l, k);
    }
  }

  /** Adding x to a set whose least element is m: the least is the smaller
      of x and m. */
  lemma LeastInsert(rest: set<string>, m: string, x: string)
    requires m in rest && x !in rest
    requires forall k :: k in rest && k != m ==> Less(m, k)
    ensures var l := if Less(x, m) then x else m;
      forall k :: k in rest + {x} && k != l ==> Less(l, k)
  {
    LessTotal(x, m);
    if Less(x, m) {
      forall k | k in rest + {x} && k != x ensures Less(x, k) {
        if k != m { LessTransitive(x, m, k); }
      }
    }
  }

  /** sorted(keys): the elements of keys in ascending order. */
  ghost function SortedSeq(keys: set<string>): (s: seq<string>)
    ensures StrictlySorted(s)
    ensures forall i :: 0 <= i < |s| ==> s[i] in keys
    ensures forall k :: k in keys ==> k in s
    ensures |s| == |keys|
    decreases |keys|
  {
    if keys == {} then []
    else
      var m := Least(keys);
      var rest := SortedSeq(keys - {m});
      assert forall j :: 0 <= j < |rest| ==> Less(m, rest[j]) by {
        forall j | 0 <= j < |rest| ensures Less(m, rest[j]) {
          assert rest[j] in keys - {m};
        }
      }
      [m] + rest
  }

  /** A strictly sorted sequence is determined by its elements, so any sort
      of the keys agrees with SortedSeq. */
  lemma {:induction false} SortedUnique(s: seq<string>, keys: set<string>)
    requires StrictlySorted(s)
    requires forall k :: k in s <==> k in keys
    ensures s == SortedSeq(keys)
    decreases |keys|
  {
    if s == [] {
      assert keys == {};
    } else {
      SortedHeadLeast(s, keys);
      SortedTail(s, keys);
      SortedUnique(s[1..], keys - {s[0]});
      SortedSeqUnfold(keys);
      assert s == [s[0]] + s[1..];
    }
  }

  lemma SortedSeqUnfold(keys: set<string>)
    requires keys != {}
    ensures SortedSeq(keys) == [Least(keys)] + SortedSeq(keys - {Least(keys)})
  {
  }

  /** The head of a strict sort of keys is the least key. */
  lemma SortedHeadLeast(s: seq<string>, keys: set<string>)
    requires StrictlySorted(s) && s != []
    requires forall k :: k in s <==> k in keys
    ensures keys != {} && s[0] == Least(keys)
  {
    assert s[0] in keys;
    var m := Least(keys);
    if s[0] != m {
      assert m in s;
      var j :| 0 <= j < |s| && s[j] == m;
      assert Less(s[0], m);
      LessAsymmetric(m, s[0]);
    }
  }

  /** The tail of a strict sort of keys sorts the keys without the head. */
  lemma SortedTail(s: seq<string>, keys: set<string>)
    requires StrictlySorted(s) && s != []
    requires forall k :: k in s <==> k in keys
    ensures StrictlySorted(s[1..])
    ensures forall k :: k in s[1..] <==> k in keys - {s[0]}
  {
    forall k ensures k in s[1..] <==> k in keys - {s[0]} {
      if k in s[1..] {
        var j :| 1 <= j < |s| && s[j] == k;
        assert Less(s[0], s[j]);
        LessIrreflexive(k);
      }
      if k in keys - {s[0]} {
        assert k in s;
      }
    }
  }

  /** The smallest element of a non-empty set, by a linear scan. */
  method MinOf(keys: set<string>) returns (m: string)
    requires keys != {}
    ensures m == Least(keys)
  {
    m :| m in keys;
    var rest := keys - {m};
    while rest != {}
      invariant rest <= keys && m in keys && m !in rest
      invariant forall k :: k in keys && k !in rest && k != m ==> Less(m, k)
      decreases |rest|
    {
      var y :| y in rest;
      LessTotal(m, y);
      if Less(y, m) {
        forall k | k in keys && k !in rest && k != y ensures Less(y, k) {
          if k != m { LessTransitive(y, m, k); }
        }
        m := y;
      }
      rest := rest - {y};
    }
    var l := Least(keys);
    if l != m {
      LessAsymmetric(l, m);
    }
  }

  /** sorted(keys), by repeated extraction of the least remaining key. */
  method SortedKeys(keys: set<string>) returns (r: seq<string>)
    ensures r == SortedSeq(keys)
  {
    r := [];
    var rem := keys;
    while rem != {}
      invariant rem <= keys
      invariant forall k :: k in keys <==> k in rem || k in r
      invariant StrictlySorted(r)
      invariant forall i, k :: 0 <= i < |r| && k in rem ==> Less(r[i], k)
      decreases |rem|
    {
      var m := MinOf(rem);
      r := r + [m];
      rem := rem - {m};
    }
    SortedUnique(r, keys);
  }
}
