// The parts of Go's strings and sort packages that the modelled code uses.

module Strings {

  // --- strings.Split and strings.Join with a separator of one character ---

  function Split(k: string, sep: char): (parts: seq<string>)
    ensures |parts| >= 1
  {
    if k == "" then [""]
    else if k[0] == sep then [""] + Split(k[1..], sep)
    else
      var rest := Split(k[1..], sep);
      [[k[0]] + rest[0]] + rest[1..]
  }

  function Join(parts: seq<string>, sep: char): string {
    if parts == [] then ""
    else if |parts| == 1 then parts[0]
    else parts[0] + [sep] + Join(parts[1..], sep)
  }

  lemma {:induction false} SplitParts(k: string, sep: char)
    ensures forall i :: 0 <= i < |Split(k, sep)| ==> sep !in Split(k, sep)[i]
    ensures |Split(k, sep)| == 1 <==> sep !in k
    ensures |Split(k, sep)| == 1 ==> Split(k, sep) == [k]
  {
    if k != "" {
      SplitParts(k[1..], sep);
      assert k == [k[0]] + k[1..];
    }
  }

  lemma {:induction false} JoinSplit(k: string, sep: char)
    ensures Join(Split(k, sep), sep) == k
  {
    if k != "" {
      JoinSplit(k[1..], sep);
      var rest := Split(k[1..], sep);
      if k[0] == sep {
        assert ([""] + rest)[1..] == rest;
        assert "" + [sep] + Join(rest, sep) == k;
      } else {
        assert ([[k[0]] + rest[0]] + rest[1..])[1..] == rest[1..];
        assert k == [k[0]] + k[1..];
        if |rest| > 1 {
          assert [k[0]] + (rest[0] + [sep] + Join(rest[1..], sep)) == [k[0]] + rest[0] + [sep] + Join(rest[1..], sep);
        }
      }
    }
  }

  lemma SplitCons(c: char, s: string, sep: char)
    ensures Split([c] + s, sep) ==
            if c == sep then [""] + Split(s, sep) else [[c] + Split(s, sep)[0]] + Split(s, sep)[1..]
  {
    assert ([c] + s)[1..] == s;
  }

  lemma PartsConcat(c: char, ps: seq<string>, qs: seq<string>)
    requires ps != []
    ensures [""] + (ps + qs) == [""] + ps + qs
    ensures [[c] + (ps + qs)[0]] + (ps + qs)[1..] == [[c] + ps[0]] + ps[1..] + qs
  {
    assert (ps + qs)[1..] == ps[1..] + qs;
  }

  /** Splitting distributes over a separator. */
  lemma {:induction false} SplitConcat(a: string, b: string, sep: char)
    ensures Split(a + [sep] + b, sep) == Split(a, sep) + Split(b, sep)
  {
    if a == "" {
      assert a + [sep] + b == [sep] + b;
      SplitCons(sep, b, sep);
    } else {
      var c, rest := a[0], a[1..] + [sep] + b;
      SplitConcat(a[1..], b, sep);
      SplitCons(c, rest, sep);
      SplitCons(c, a[1..], sep);
      PartsConcat(c, Split(a[1..], sep), Split(b, sep));
      assert a == [c] + a[1..];
      calc {
        Split(a + [sep] + b, sep);
        { assert a + [sep] + b == [c] + rest; }
        Split([c] + rest, sep);
        Split([c] + a[1..], sep) + Split(b, sep);
        Split(a, sep) + Split(b, sep);
      }
    }
  }

  lemma {:induction false} JoinConcat(ps: seq<string>, qs: seq<string>, sep: char)
    requires ps != [] && qs != []
    ensures Join(ps + qs, sep) == Join(ps, sep) + [sep] + Join(qs, sep)
  {
    if |ps| == 1 {
      assert (ps + qs)[1..] == qs;
    } else {
      JoinConcat(ps[1..], qs, sep);
      assert (ps + qs)[1..] == ps[1..] + qs;
      var first, more, last := ps[0] + [sep], Join(ps[1..], sep), Join(qs, sep);
      assert first + (more + [sep] + last) == first + more + [sep] + last;
    }
  }

  lemma {:induction false} SplitJoin(ps: seq<string>, sep: char)
    requires ps != [] && forall i :: 0 <= i < |ps| ==> sep !in ps[i]
    ensures Split(Join(ps, sep), sep) == ps
  {
    SplitParts(ps[0], sep);
    if |ps| > 1 {
      SplitJoin(ps[1..], sep);
      SplitConcat(ps[0], Join(ps[1..], sep), sep);
    }
  }

  lemma SplitInjective(a: string, b: string, sep: char)
    requires Split(a, sep) == Split(b, sep)
    ensures a == b
  {
    JoinSplit(a, sep);
    JoinSplit(b, sep);
  }

  lemma PrefixSplits(a: string, b: string, sep: char)
    requires a + [sep] <= b
    ensures Split(a, sep) < Split(b, sep)
  {
    var more := b[|a| + 1..];
    assert b == a + [sep] + more;
    SplitConcat(a, more, sep);
  }

  lemma SplitsPrefix(a: string, b: string, sep: char)
    requires Split(a, sep) < Split(b, sep)
    ensures a + [sep] <= b
  {
    var more := Split(b, sep)[|Split(a, sep)|..];
    assert Split(b, sep) == Split(a, sep) + more;
    JoinConcat(Split(a, sep), more, sep);
    JoinSplit(a, sep);
    JoinSplit(b, sep);
    assert b == a + [sep] + Join(more, sep);
  }

  /** Being a path below another, said of strings and of their parts. */
  lemma PrefixSplit(a: string, b: string, sep: char)
    ensures a + [sep] <= b <==> Split(a, sep) < Split(b, sep)
  {
    if a + [sep] <= b {
      PrefixSplits(a, b, sep);
    }
    if Split(a, sep) < Split(b, sep) {
      SplitsPrefix(a, b, sep);
    }
  }

  // --- sort.Strings ---

  /** Go's order on strings. */
  predicate Less(a: string, b: string) {
    b != "" && (a == "" || a[0] < b[0] || (a[0] == b[0] && Less(a[1..], b[1..])))
  }

  lemma {:induction false} LessTotal(a: string, b: string)
    ensures Less(a, b) || a == b || Less(b, a)
    ensures !(Less(a, b) && Less(b, a)) && !Less(a, a)
  {
    if a != "" && b != "" {
      assert a == [a[0]] + a[1..] && b == [b[0]] + b[1..];
      LessTotal(a[1..], b[1..]);
      LessTotal(a[1..], a[1..]);
    } else if a != "" {
      LessTotal(a[1..], a[1..]);
    }
  }

  lemma {:induction false} LessTransitive(a: string, b: string, c: string)
    requires Less(a, b) && Less(b, c)
    ensures Less(a, c)
  {
    if a != "" && a[0] == b[0] && b[0] == c[0] {
      LessTransitive(a[1..], b[1..], c[1..]);
    }
  }

  /** A proper prefix comes first. */
  lemma {:induction false} PrefixLess(a: string, b: string)
    requires a < b
    ensures Less(a, b)
  {
    if a != "" {
      assert a[0] == b[0] && a[1..] < b[1..];
      PrefixLess(a[1..], b[1..]);
    }
  }

  ghost predicate Sorted(s: seq<string>) {
    forall i, j :: 0 <= i < j < |s| ==> !Less(s[j], s[i])
  }

  function Place(x: string, s: seq<string>): seq<string> {
    if s == [] || !Less(s[0], x) then [x] + s else [s[0]] + Place(x, s[1..])
  }

  function Sort(s: seq<string>): seq<string> {
    if s == [] then [] else Place(s[0], Sort(s[1..]))
  }

  lemma {:induction false} PlaceAdds(x: string, s: seq<string>)
    ensures multiset(Place(x, s)) == multiset(s) + multiset{x}
  {
    if s != [] && Less(s[0], x) {
      assert s == [s[0]] + s[1..];
      PlaceAdds(x, s[1..]);
    }
  }

  lemma SortedCons(x: string, s: seq<string>)
    requires Sorted(s) && forall y :: y in s ==> !Less(y, x)
    ensures Sorted([x] + s)
  {
    var t := [x] + s;
    forall i, j | 0 <= i < j < |t| ensures !Less(t[j], t[i]) {
      assert t[j] == s[j - 1] && s[j - 1] in s;
    }
  }

  lemma NotLessTransitive(a: string, b: string, c: string)
    requires !Less(b, a) && !Less(c, b)
    ensures !Less(c, a)
  {
    LessTotal(a, b);
    LessTotal(b, c);
    if Less(c, a) && a != b && b != c {
      LessTransitive(a, b, c);
      LessTotal(a, c);
    }
  }

  lemma {:induction false} PlaceSorted(x: string, s: seq<string>)
    requires Sorted(s)
    ensures Sorted(Place(x, s))
  {
    if s == [] || !Less(s[0], x) {
      forall y | y in s ensures !Less(y, x) {
        var j :| 0 <= j < |s| && s[j] == y;
        if j > 0 {
          NotLessTransitive(x, s[0], y);
        }
      }
      SortedCons(x, s);
    } else {
      var rest := s[1..];
      PlaceSorted(x, rest);
      PlaceAdds(x, rest);
      LessTotal(s[0], x);
      forall y | y in Place(x, rest) ensures !Less(y, s[0]) {
        assert y in multiset(Place(x, rest));
        if y != x {
          assert y in multiset(rest);
          var j :| 0 <= j < |rest| && rest[j] == y;
          assert s[j + 1] == y;
        }
      }
      SortedCons(s[0], Place(x, rest));
    }
  }

  /** Sort sorts. */
  lemma {:induction false} SortSorts(s: seq<string>)
    ensures Sorted(Sort(s)) && multiset(Sort(s)) == multiset(s)
  {
    if s != [] {
      SortSorts(s[1..]);
      PlaceSorted(s[0], Sort(s[1..]));
      PlaceAdds(s[0], Sort(s[1..]));
      assert s == [s[0]] + s[1..];
    }
  }

  /** A sorted list is its own sorting. */
  lemma {:induction false} SortIdempotent(s: seq<string>)
    requires Sorted(s)
    ensures Sort(s) == s
  {
    if s != [] {
      SortIdempotent(s[1..]);
      assert s == [s[0]] + s[1..];
    }
  }
}
