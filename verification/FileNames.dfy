/**
 File names, ordered as JavaScript's default sort orders them: by the 16-bit code
 units of their UTF-16 form. That is not the order of the characters: those past
 U+FFFF are written with surrogates, and so sort before U+E000 to U+FFFF.
 */
module FileNames {

  /** Where a character sorts. */
  function Rank(c: char): int {
    if c as int < 0xD800 then c as int
    else if c as int < 0x1_0000 then c as int + 0x10_0000
    else c as int - 0x1_0000 + 0xD800
  }

  predicate Less(a: string, b: string) {
    if b == "" then false
    else if a == "" then true
    else Rank(a[0]) < Rank(b[0]) || (a[0] == b[0] && Less(a[1..], b[1..]))
  }

  /** The code units of a character, and of a string. */
  function UnitsOf(c: char): seq<int> {
    if c as int < 0x1_0000 then [c as int]
    else [0xD800 + (c as int - 0x1_0000) / 0x400, 0xDC00 + (c as int - 0x1_0000) % 0x400]
  }

  function Units(s: string): seq<int> {
    if s == "" then [] else UnitsOf(s[0]) + Units(s[1..])
  }

  predicate UnitsLess(a: seq<int>, b: seq<int>) {
    if b == [] then false
    else if a == [] then true
    else a[0] < b[0] || (a[0] == b[0] && UnitsLess(a[1..], b[1..]))
  }

  lemma {:induction false} SamePrefix(p: seq<int>, a: seq<int>, b: seq<int>)
    ensures UnitsLess(p + a, p + b) <==> UnitsLess(a, b)
  {
    if p == [] {
      assert p + a == a && p + b == b;
    } else {
      assert (p + a)[1..] == p[1..] + a && (p + b)[1..] == p[1..] + b;
      SamePrefix(p[1..], a, b);
    }
  }

  /** The first two different characters decide. */
  lemma DifferentFirst(c: char, d: char, a: seq<int>, b: seq<int>)
    requires c != d
    ensures UnitsLess(UnitsOf(c) + a, UnitsOf(d) + b) <==> Rank(c) < Rank(d)
  {
    var u, v := UnitsOf(c) + a, UnitsOf(d) + b;
    assert u[0] == UnitsOf(c)[0] && v[0] == UnitsOf(d)[0];
    if u[0] == v[0] {
      assert u[1..][0] == UnitsOf(c)[1] && v[1..][0] == UnitsOf(d)[1];
    }
  }

  /** The order of names is that of their code units. */
  lemma {:induction false} LessByCodeUnits(a: string, b: string)
    ensures Less(a, b) <==> UnitsLess(Units(a), Units(b))
  {
    if a != "" && b != "" {
      if a[0] == b[0] {
        SamePrefix(UnitsOf(a[0]), Units(a[1..]), Units(b[1..]));
        LessByCodeUnits(a[1..], b[1..]);
      } else {
        DifferentFirst(a[0], b[0], Units(a[1..]), Units(b[1..]));
      }
    }
  }

  lemma {:induction false} LessTotal(a: string, b: string)
    ensures Less(a, b) || a == b || Less(b, a)
    ensures !(Less(a, b) && Less(b, a)) && !Less(a, a)
  {
    if a != "" {
      LessTotal(a[1..], a[1..]);
    }
    if a != "" && b != "" {
      LessTotal(a[1..], b[1..]);
      assert a == [a[0]] + a[1..] && b == [b[0]] + b[1..];
    }
  }

  lemma {:induction false} LessTransitive(a: string, b: string, c: string)
    requires Less(a, b) && Less(b, c)
    ensures Less(a, c)
  {
    if a != "" && b != "" && c != "" && a[0] == b[0] == c[0] {
      LessTransitive(a[1..], b[1..], c[1..]);
    }
  }

  /** Strictly ascending, so also without repetition. */
  ghost predicate Sorted(s: seq<string>) {
    forall i, j :: 0 <= i < j < |s| ==> Less(s[i], s[j])
  }

  predicate EndsWith(name: string, suffix: string) {
    |suffix| <= |name| && name[|name| - |suffix|..] == suffix
  }

  function Insert(name: string, s: seq<string>): seq<string> {
    if s == [] then [name]
    else if Less(name, s[0]) then [name] + s
    else [s[0]] + Insert(name, s[1..])
  }

  function Sort(s: seq<string>): seq<string> {
    if s == [] then [] else Insert(s[0], Sort(s[1..]))
  }

  lemma {:induction false} InsertPermutes(name: string, s: seq<string>)
    ensures multiset(Insert(name, s)) == multiset(s) + multiset{name}
    ensures forall x :: x in Insert(name, s) <==> x in s || x == name
  {
    if s != [] {
      InsertPermutes(name, s[1..]);
      assert s == [s[0]] + s[1..];
    }
  }

  ghost predicate AllAbove(name: string, s: seq<string>) {
    forall x :: x in s ==> Less(name, x)
  }

  lemma SortedTail(s: seq<string>)
    requires Sorted(s) && s != []
    ensures Sorted(s[1..]) && AllAbove(s[0], s[1..])
  {
  }

  lemma {:induction false} InsertSorted(name: string, s: seq<string>)
    requires Sorted(s) && name !in s
    ensures Sorted(Insert(name, s))
  {
    if s != [] {
      SortedTail(s);
      LessTotal(name, s[0]);
      if Less(name, s[0]) {
        forall x | x in s
          ensures Less(name, x)
        {
          if x != s[0] {
            assert x in s[1..];
            LessTransitive(name, s[0], x);
          }
        }
      } else {
        InsertSorted(name, s[1..]);
        InsertPermutes(name, s[1..]);
      }
    }
  }

  function Elements(s: seq<string>): set<string> {
    set x | x in s
  }

  lemma ElementsCons(s: seq<string>)
    requires s != []
    ensures s == [s[0]] + s[1..] && Elements(s) == {s[0]} + Elements(s[1..])
  {
    assert forall x :: x in s <==> x == s[0] || x in s[1..];
  }

  /** No name occurs twice. */
  predicate Distinct(s: seq<string>) {
    s == [] || (s[0] !in s[1..] && Distinct(s[1..]))
  }

  /** Sorting the distinct names of a directory gives a strictly ascending permutation of them. */
  lemma {:induction false} SortSorts(s: seq<string>)
    ensures multiset(Sort(s)) == multiset(s)
    ensures forall x :: x in Sort(s) <==> x in s
    ensures Distinct(s) ==> Sorted(Sort(s))
  {
    if s != [] {
      SortSorts(s[1..]);
      InsertPermutes(s[0], Sort(s[1..]));
      assert s == [s[0]] + s[1..];
      if Distinct(s) {
        InsertSorted(s[0], Sort(s[1..]));
      }
    }
  }

  lemma {:induction false} SortedDistinct(s: seq<string>)
    requires Sorted(s)
    ensures Distinct(s)
  {
    if s != [] {
      SortedTail(s);
      SortedDistinct(s[1..]);
      LessTotal(s[0], s[0]);
    }
  }
}
