/** Instruments as the feed names them, and the order Python sorts such pairs of strings in. */
module Instruments {
  import opened Common

  datatype Instrument = Instrument(segment: string, securityId: string)

  /** Lexicographic order of strings. */
  predicate StringLess(a: string, b: string) {
    if b == "" then false
    else if a == "" then true
    else a[0] < b[0] || (a[0] == b[0] && StringLess(a[1..], b[1..]))
  }

  predicate Less(a: Instrument, b: Instrument) {
    StringLess(a.segment, b.segment) || (a.segment == b.segment && StringLess(a.securityId, b.securityId))
  }

  lemma {:induction false} StringTrichotomy(a: string, b: string)
    ensures StringLess(a, b) || a == b || StringLess(b, a)
    ensures StringLess(a, b) ==> a != b && !StringLess(b, a)
  {
    if a != "" && b != "" {
      StringTrichotomy(a[1..], b[1..]);
      if a[0] == b[0] && a[1..] == b[1..] {
        assert a == [a[0]] + a[1..] && b == [b[0]] + b[1..];
      }
    }
  }

  lemma {:induction false} StringTransitive(a: string, b: string, c: string)
    requires StringLess(a, b) && StringLess(b, c)
    ensures StringLess(a, c)
  {
    if a != "" && a[0] == b[0] && b[0] == c[0] {
      StringTransitive(a[1..], b[1..], c[1..]);
    }
  }

  lemma LessIsTotal(a: Instrument, b: Instrument)
    ensures Less(a, b) || a == b || Less(b, a)
    ensures Less(a, b) ==> a != b && !Less(b, a)
  {
    StringTrichotomy(a.segment, b.segment);
    StringTrichotomy(a.securityId, b.securityId);
  }

  lemma LessIsTransitive(a: Instrument, b: Instrument, c: Instrument)
    requires Less(a, b) && Less(b, c)
    ensures Less(a, c)
  {
    if StringLess(a.segment, b.segment) && StringLess(b.segment, c.segment) {
      StringTransitive(a.segment, b.segment, c.segment);
    } else if a.segment == b.segment == c.segment {
      StringTransitive(a.securityId, b.securityId, c.securityId);
    }
  }

  /** Strictly increasing, hence without repetition. */
  ghost predicate Ordered(s: seq<Instrument>) {
    forall i, j :: 0 <= i < j < |s| ==> Less(s[i], s[j])
  }

  /** The members of a set in order. */
  method SortedSet(members: set<Instrument>) returns (s: seq<Instrument>)
    ensures Ordered(s) && Elements(s) == members && |s| == |members|
  {
    s := [];
    var todo := members;
    while todo != {}
      invariant todo <= members && Ordered(s) && Elements(s) == members - todo
      invariant |s| + |todo| == |members|
      decreases |todo|
    {
      var x :| x in todo;
      s := Insert(s, x);
      todo := todo - {x};
    }
  }

  method Insert(s: seq<Instrument>, x: Instrument) returns (t: seq<Instrument>)
    requires Ordered(s) && x !in s
    ensures Ordered(t) && Elements(t) == Elements(s) + {x} && |t| == |s| + 1
  {
    var k := 0;
    while k < |s| && Less(s[k], x)
      invariant 0 <= k <= |s|
      invariant forall i :: 0 <= i < k ==> Less(s[i], x)
    {
      k := k + 1;
    }
    if k < |s| {
      LessIsTotal(s[k], x);
      forall j | k < j < |s| ensures Less(x, s[j]) {
        LessIsTransitive(x, s[k], s[j]);
      }
    }
    t := s[..k] + [x] + s[k..];
    assert s == s[..k] + s[k..];
  }
}
