/** The java.lang.String operations the generator relies on, over seq<char>. */
module Strings {

  /** String.indexOf(c): the first position of c in s, or -1. */
  function IndexOf(s: string, c: char): (r: int)
    ensures -1 <= r < |s|
    ensures r == -1 <==> c !in s
    ensures r >= 0 ==> s[r] == c && c !in s[..r]
  {
    if s == [] then -1
    else if s[0] == c then 0
    else
      var k := IndexOf(s[1..], c);
      assert s == [s[0]] + s[1..];
      if k < 0 then -1
      else
        assert s[..k + 1] == [s[0]] + s[1..][..k];
        k + 1
  }

  /** String.lastIndexOf(c): the last position of c in s, or -1. */
  function LastIndexOf(s: string, c: char): (r: int)
    ensures -1 <= r < |s|
    ensures r == -1 <==> c !in s
    ensures r >= 0 ==> s[r] == c && c !in s[r + 1..]
  {
    if s == [] then -1
    else if s[|s| - 1] == c then |s| - 1
    else
      var k := LastIndexOf(s[..|s| - 1], c);
      assert s == s[..|s| - 1] + [s[|s| - 1]];
      assert k >= 0 ==> s[k + 1..] == s[..|s| - 1][k + 1..] + [s[|s| - 1]];
      k
  }

  predicate StartsWith(s: string, prefix: string)
  {
    |prefix| <= |s| && s[..|prefix|] == prefix
  }

  predicate EndsWith(s: string, suffix: string)
  {
    |suffix| <= |s| && s[|s| - |suffix|..] == suffix
  }

  /** String.join(sep, xs) and Collectors.joining(sep). */
  function Join(sep: string, xs: seq<string>): string
  {
    if |xs| == 0 then ""
    else if |xs| == 1 then xs[0]
    else xs[0] + sep + Join(sep, xs[1..])
  }

  /** Splits text at each ", " (a bare ',' also separates): the reading of a Java argument list. */
  function SplitList(s: string): seq<string>
    decreases |s|
  {
    var k := IndexOf(s, ',');
    if k < 0 then [s]
    else if k + 1 < |s| && s[k + 1] == ' ' then [s[..k]] + SplitList(s[k + 2..])
    else [s[..k]] + SplitList(s[k + 1..])
  }

  /** The items of a comma-separated list; the empty text has none. */
  function Items(s: string): seq<string>
  {
    if s == "" then [] else SplitList(s)
  }

  /** Joining non-empty, comma-free items with ", " loses nothing: the items read back in order. */
  lemma {:induction false} ItemsOfJoin(xs: seq<string>)
    requires forall i :: 0 <= i < |xs| ==> xs[i] != "" && ',' !in xs[i]
    ensures Items(Join(", ", xs)) == xs
  {
    if |xs| == 1 {
      assert IndexOf(xs[0], ',') == -1;
    } else if |xs| > 1 {
      var head, rest := xs[0], Join(", ", xs[1..]);
      var s := head + ", " + rest;
      assert Join(", ", xs) == s;
      var k := IndexOf(s, ',');
      assert s[|head|] == ',';
      assert s[..|head|] == head;
      assert k == |head|;
      assert s[k + 1] == ' ';
      assert s[k + 2..] == rest;
      ItemsOfJoin(xs[1..]);
      assert rest != "" by {
        if |xs| > 2 {
          assert rest == xs[1] + ", " + Join(", ", xs[2..]);
        }
      }
      assert SplitList(s) == [head] + SplitList(rest);
    }
  }

  /**
   * Lexicographic order on characters, compared by code point. This is a.compareTo(b) <= 0
   * for text in the Basic Multilingual Plane; beyond it Java compares UTF-16 units instead.
   */
  predicate Below(a: string, b: string)
  {
    a == [] || (b != [] && (a[0] < b[0] || (a[0] == b[0] && Below(a[1..], b[1..]))))
  }

  lemma {:induction false} BelowTotal(a: string, b: string)
    ensures Below(a, b) || Below(b, a)
  {
    if a != [] && b != [] && a[0] == b[0] {
      BelowTotal(a[1..], b[1..]);
    }
  }

  /** Two strings that agree up to position k and differ there are ordered by that character. */
  lemma {:induction false} BelowAtFirstDifference(a: string, b: string, k: nat)
    requires k < |a| && k < |b| && a[..k] == b[..k] && a[k] < b[k]
    ensures Below(a, b)
  {
    if k > 0 {
      assert a[0] == a[..k][0] == b[..k][0] == b[0];
      assert a[1..][..k - 1] == a[1..k] == a[..k][1..];
      assert b[1..][..k - 1] == b[1..k] == b[..k][1..];
      BelowAtFirstDifference(a[1..], b[1..], k - 1);
    }
  }

  predicate Sorted(s: seq<string>)
  {
    forall i :: 0 < i < |s| ==> Below(s[i - 1], s[i])
  }

  function Insert(x: string, s: seq<string>): (r: seq<string>)
    requires Sorted(s)
    ensures Sorted(r) && multiset(r) == multiset(s) + multiset{x}
    ensures r[0] == x || (s != [] && r[0] == s[0])
  {
    if s == [] then [x]
    else if Below(x, s[0]) then [x] + s
    else
      BelowTotal(x, s[0]);
      assert s == [s[0]] + s[1..];
      [s[0]] + Insert(x, s[1..])
  }

  /** Collections.sort on a list of strings: the sorted permutation of the input. */
  function Sort(s: seq<string>): (r: seq<string>)
    ensures Sorted(r) && multiset(r) == multiset(s)
  {
    if s == [] then []
    else
      assert s == [s[0]] + s[1..];
      Insert(s[0], Sort(s[1..]))
  }

  lemma SortedTail(s: seq<string>)
    requires Sorted(s) && s != []
    ensures Sorted(s[1..])
  {
    var t := s[1..];
    forall i | 0 < i < |t|
      ensures Below(t[i - 1], t[i])
    {
      assert t[i - 1] == s[i] && t[i] == s[i + 1];
    }
  }

  /** Sorting an already sorted list leaves it as it is. */
  lemma {:induction false} SortOfSorted(s: seq<string>)
    requires Sorted(s)
    ensures Sort(s) == s
  {
    if s != [] {
      var t := s[1..];
      SortedTail(s);
      SortOfSorted(t);
      assert t == [] || Below(s[0], t[0]);
      assert Sort(s) == Insert(s[0], t) == [s[0]] + t;
      assert s == [s[0]] + t;
    }
  }

  predicate IsUpperAscii(c: char)
  {
    'A' <= c <= 'Z'
  }

  /** Character.toUpperCase restricted to ASCII letters. */
  function ToUpperAscii(c: char): char
  {
    if 'a' <= c <= 'z' then (c as int - 32) as char else c
  }

  /** Character.toLowerCase restricted to ASCII letters. */
  function ToLowerAscii(c: char): char
  {
    if IsUpperAscii(c) then (c as int + 32) as char else c
  }

  /** The first character upper-cased, the rest unchanged. */
  function Capitalize(s: string): (r: string)
    requires s != ""
    ensures |r| == |s| && r[1..] == s[1..] && !('a' <= r[0] <= 'z')
    ensures 'a' <= s[0] <= 'z' ==> r[0] as int == s[0] as int - 32
    ensures !('a' <= s[0] <= 'z') ==> r[0] == s[0]
  {
    [ToUpperAscii(s[0])] + s[1..]
  }

  /** The first character lower-cased, the rest unchanged. */
  function Decapitalize(s: string): (r: string)
    requires s != ""
    ensures |r| == |s| && r[1..] == s[1..] && !IsUpperAscii(r[0])
    ensures IsUpperAscii(s[0]) ==> r[0] as int == s[0] as int + 32
    ensures !IsUpperAscii(s[0]) ==> r[0] == s[0]
  {
    [ToLowerAscii(s[0])] + s[1..]
  }

  /** Capitalizing and decapitalizing are inverse on names that do not start with a capital. */
  lemma DecapitalizeCapitalize(s: string)
    requires s != "" && !IsUpperAscii(s[0])
    ensures Decapitalize(Capitalize(s)) == s
  {
    assert Capitalize(s)[1..] == s[1..];
  }
}
