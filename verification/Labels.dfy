/** Ordered label lists as the durable services record keeps them. */
module Labels {

  type Label = string

  /** Byte order of strings. */
  predicate Less(a: Label, b: Label)
    decreases |a|
  {
    b != [] && (a == [] || a[0] < b[0] || (a[0] == b[0] && Less(a[1..], b[1..])))
  }

  /** Smaller at the first character where they differ, or a proper prefix. */
  ghost predicate FirstDifference(a: Label, b: Label, k: nat) {
    k <= |a| && k < |b| && a[..k] == b[..k] && (k == |a| || a[k] < b[k])
  }

  lemma {:induction false} LessIs(a: Label, b: Label)
    ensures Less(a, b) <==> exists k :: FirstDifference(a, b, k)
    decreases |a|
  {
    if Less(a, b) {
      var k := LessAt(a, b);
    }
    if exists k :: FirstDifference(a, b, k) {
      var k :| FirstDifference(a, b, k);
      AtLess(a, b, k);
    }
  }

  lemma {:induction false} LessAt(a: Label, b: Label) returns (k: nat)
    requires Less(a, b)
    ensures FirstDifference(a, b, k)
    decreases |a|
  {
    if a == [] || a[0] < b[0] {
      k := 0;
    } else {
      var j := LessAt(a[1..], b[1..]);
      k := j + 1;
      assert a[..k] == [a[0]] + a[1..][..j] && b[..k] == [b[0]] + b[1..][..j];
    }
  }

  lemma {:induction false} AtLess(a: Label, b: Label, k: nat)
    requires FirstDifference(a, b, k)
    ensures Less(a, b)
    decreases |a|
  {
    if k > 0 {
      assert a[..k][0] == b[..k][0];
      assert a[1..][..k - 1] == a[..k][1..] && b[1..][..k - 1] == b[..k][1..];
      AtLess(a[1..], b[1..], k - 1);
    }
  }

  lemma {:induction false} LessTotal(a: Label, b: Label)
    ensures !(Less(a, b) && Less(b, a))
    ensures Less(a, b) || Less(b, a) <==> a != b
    decreases |a|
  {
    if a != [] && b != [] && a[0] == b[0] {
      LessTotal(a[1..], b[1..]);
      assert a == [a[0]] + a[1..] && b == [b[0]] + b[1..];
    }
  }

  lemma {:induction false} LessTransitive(a: Label, b: Label, c: Label)
    requires Less(a, b) && Less(b, c)
    ensures Less(a, c)
    decreases |a|
  {
    if a != [] && a[0] == b[0] && b[0] == c[0] { LessTransitive(a[1..], b[1..], c[1..]); }
  }

  ghost predicate StrictlySorted(s: seq<Label>) {
    forall i, j :: 0 <= i < j < |s| ==> Less(s[i], s[j])
  }

  function Elements(s: seq<Label>): set<Label> { set x | x in s }

  // ----- slices.Sort, slices.Compact and slices.IsSorted -----

  predicate IsSorted(s: seq<Label>) {
    forall i :: 0 < i < |s| ==> !Less(s[i], s[i - 1])
  }

  function Insert(s: seq<Label>, x: Label): (r: seq<Label>)
    ensures forall y :: y in r <==> y == x || y in s
    ensures r != [] && (if s == [] then r == [x] else r[0] == x || r[0] == s[0])
  {
    if s == [] || !Less(s[0], x) then [x] + s else
      assert s == [s[0]] + s[1..];
      [s[0]] + Insert(s[1..], x)
  }

  function Sort(s: seq<Label>): (r: seq<Label>)
    ensures forall y :: y in r <==> y in s
  {
    if s == [] then [] else
      assert s == [s[0]] + s[1..];
      Insert(Sort(s[1..]), s[0])
  }

  /** Drops every label equal to the one after it. */
  function Compact(s: seq<Label>): (r: seq<Label>)
    ensures forall y :: y in r <==> y in s
    ensures s != [] ==> r != [] && r[0] == s[0]
    ensures |r| <= |s|
  {
    if |s| <= 1 then s else
      assert s == [s[0]] + s[1..];
      if s[0] == s[1] then Compact(s[1..]) else [s[0]] + Compact(s[1..])
  }

  function Normal(s: seq<Label>): seq<Label> { Compact(Sort(s)) }

  function Without(s: seq<Label>, x: Label): (r: seq<Label>)
    ensures forall y :: y in r <==> y in s && y != x
  {
    if s == [] then [] else
      assert s == [s[0]] + s[1..];
      (if s[0] == x then [] else [s[0]]) + Without(s[1..], x)
  }

  // ----- What they compute -----

  /** Neighbour by neighbour is enough. */
  lemma {:induction false} SortedPairs(s: seq<Label>, i: nat, j: nat)
    requires IsSorted(s) && i <= j < |s|
    ensures !Less(s[j], s[i])
    decreases j - i
  {
    LessTotal(s[i], s[j]);
    if i < j {
      SortedPairs(s, i, j - 1);
      LessTotal(s[i], s[j - 1]);
      LessTotal(s[j - 1], s[j]);
      if Less(s[j], s[i]) {
        if s[j - 1] != s[i] { LessTransitive(s[j], s[i], s[j - 1]); }
        assert false;
      }
    }
  }

  lemma {:induction false} InsertSorted(s: seq<Label>, x: Label)
    requires IsSorted(s)
    ensures IsSorted(Insert(s, x))
  {
    if s != [] {
      LessTotal(s[0], x);
      var t := s[1..];
      assert forall i :: 0 < i < |t| ==> t[i] == s[i + 1] && t[i - 1] == s[i];
      InsertSorted(t, x);
      if Less(s[0], x) {
        if t != [] { assert !Less(s[1], s[0]); }
        ConsSorted(s[0], Insert(t, x));
      } else {
        ConsSorted(x, s);
      }
    }
  }

  lemma ConsSorted(x: Label, s: seq<Label>)
    requires IsSorted(s) && (s != [] ==> !Less(s[0], x))
    ensures IsSorted([x] + s)
  {
    var w := [x] + s;
    forall i | 0 < i < |w| ensures !Less(w[i], w[i - 1]) {
      if i > 1 { assert w[i] == s[i - 1] && w[i - 1] == s[i - 1 - 1]; }
    }
  }

  lemma {:induction false} SortSorted(s: seq<Label>)
    ensures IsSorted(Sort(s))
  {
    if s != [] {
      SortSorted(s[1..]);
      InsertSorted(Sort(s[1..]), s[0]);
    }
  }

  lemma {:induction false} CompactStrict(s: seq<Label>)
    requires IsSorted(s)
    ensures StrictlySorted(Compact(s))
  {
    if |s| > 1 {
      var t := s[1..];
      assert forall i :: 0 < i < |t| ==> t[i] == s[i + 1] && t[i - 1] == s[i];
      CompactStrict(t);
      if s[0] != s[1] {
        var c := Compact(t);
        forall k | 0 <= k < |c| ensures Less(s[0], c[k]) {
          assert c[k] in t;
          var m :| 0 <= m < |t| && t[m] == c[k];
          LessTotal(s[0], s[1]);
          SortedPairs(s, 0, 1);
          SortedPairs(s, 1, m + 1);
          LessTotal(s[1], c[k]);
          if s[1] != c[k] { LessTransitive(s[0], s[1], c[k]); }
        }
        var w := [s[0]] + c;
        assert forall i :: 0 < i < |w| ==> w[i] == c[i - 1];
      }
    }
  }

  /** The record a converge writes is in order, without repeats, and names what it was given. */
  lemma NormalStrict(s: seq<Label>)
    ensures StrictlySorted(Normal(s)) && Elements(Normal(s)) == Elements(s)
  {
    SortSorted(s);
    CompactStrict(Sort(s));
  }

  lemma {:induction false} WithoutStrict(s: seq<Label>, x: Label)
    requires StrictlySorted(s)
    ensures StrictlySorted(Without(s, x))
  {
    if s != [] {
      var t := s[1..];
      assert forall i :: 0 <= i < |t| ==> t[i] == s[i + 1];
      WithoutStrict(t, x);
      var r := Without(t, x);
      forall k | 0 <= k < |r| ensures Less(s[0], r[k]) {
        assert r[k] in t;
      }
    }
  }

  // ----- The record's own validation -----

  predicate Validates(labels: seq<Label>) {
    labels != [] && IsSorted(labels) && "" !in labels && |Compact(labels)| == |labels|
  }

  lemma {:induction false} CompactLength(s: seq<Label>)
    ensures |Compact(s)| == |s| <==> forall i :: 0 < i < |s| ==> s[i - 1] != s[i]
  {
    if |s| > 1 {
      var t := s[1..];
      CompactLength(t);
      assert forall i :: 0 < i < |t| ==> t[i] == s[i + 1] && t[i - 1] == s[i];
      assert s[1 - 1] == s[0];
      if forall i :: 0 < i < |t| ==> t[i - 1] != t[i] {
        forall i | 1 < i < |s| ensures s[0] != s[1] ==> s[i - 1] != s[i] {
          assert s[i] == t[i - 1] && s[i - 1] == t[i - 1 - 1];
        }
      } else {
        var i :| 0 < i < |t| && t[i - 1] == t[i];
        assert s[i + 1 - 1] == s[i + 1];
      }
    }
  }

  /** A record validates exactly when it is non-empty, strictly ordered, and names no empty label. */
  lemma ValidatesIff(labels: seq<Label>)
    ensures Validates(labels) <==> labels != [] && StrictlySorted(labels) && "" !in labels
  {
    CompactLength(labels);
    if IsSorted(labels) && |Compact(labels)| == |labels| {
      CompactStrict(labels);
      CompactSame(labels);
    } else if StrictlySorted(labels) {
      forall i | 0 < i < |labels| ensures !Less(labels[i], labels[i - 1]) && labels[i - 1] != labels[i] {
        LessTotal(labels[i - 1], labels[i]);
      }
    }
  }

  lemma {:induction false} CompactSame(s: seq<Label>)
    requires |Compact(s)| == |s|
    ensures Compact(s) == s
  {
    if |s| > 1 && s[0] != s[1] { CompactSame(s[1..]); }
  }

  /** Two strictly ordered lists of the same labels are the same list. */
  lemma {:induction false} StrictUnique(a: seq<Label>, b: seq<Label>)
    requires StrictlySorted(a) && StrictlySorted(b) && Elements(a) == Elements(b)
    ensures a == b
    decreases |a|
  {
    assert a != [] ==> a[0] in Elements(b);
    assert b != [] ==> b[0] in Elements(a);
    if a != [] && b != [] {
      SameHead(a, b);
      var x, y := a[1..], b[1..];
      forall l ensures l in x <==> l in y {
        assert l in a <==> l in Elements(a);
        assert l in b <==> l in Elements(b);
        assert a == [a[0]] + x && b == [b[0]] + y;
        if a[0] in x { LessTotal(a[0], a[0]); }
        if b[0] in y { LessTotal(b[0], b[0]); }
      }
      StrictUnique(x, y);
      assert a == [a[0]] + x && b == [b[0]] + y;
    }
  }

  /** Neither the order of the agents nor a repeated one shows in the record written for them. */
  lemma NormalOrderless(a: seq<Label>, b: seq<Label>)
    requires Elements(a) == Elements(b)
    ensures Normal(a) == Normal(b)
  {
    NormalStrict(a);
    NormalStrict(b);
    StrictUnique(Normal(a), Normal(b));
  }

  lemma SameHead(a: seq<Label>, b: seq<Label>)
    requires StrictlySorted(a) && StrictlySorted(b) && Elements(a) == Elements(b) && a != [] && b != []
    ensures a[0] == b[0]
  {
    assert a[0] in Elements(b) && b[0] in Elements(a);
    LessTotal(a[0], b[0]);
  }
}
