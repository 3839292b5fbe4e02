/** The few Python built-ins the core relies on, with the semantics CPython gives
    them: `list.remove`, `str.startswith`/`endswith`, `str.replace`, `str.join`,
    `str.capitalize` (ASCII letters only) and `str(int)`. */
module Builtins {

  // ---------------------------------------------------------------- lists

  /** Every element occurs once: the keys of a dict, or a list kept duplicate-free. */
  predicate NoDup<T(==)>(s: seq<T>) {
    forall i, j :: 0 <= i < j < |s| ==> s[i] != s[j]
  }

  /** `list.index(x)`: where `x` first occurs. */
  function IndexOf<T(==)>(s: seq<T>, x: T): (i: nat)
    requires x in s
    ensures i < |s| && s[i] == x && x !in s[..i]
  {
    if s[0] == x then 0
    else
      assert s == [s[0]] + s[1..];
      var j := IndexOf(s[1..], x);
      assert s[..j + 1] == [s[0]] + s[1..][..j];
      j + 1
  }

  /** The first occurrence is the only index holding `x` with no `x` before it. */
  lemma IndexOfUnique<T>(s: seq<T>, x: T, j: nat)
    requires j < |s| && s[j] == x && x !in s[..j]
    ensures IndexOf(s, x) == j
  {
  }

  /** Looking past a prefix: an element of the prefix is found there, any other after it. */
  lemma IndexOfAppend<T>(a: seq<T>, b: seq<T>, x: T)
    requires x in a + b
    ensures x in a ==> IndexOf(a + b, x) == IndexOf(a, x)
    ensures x !in a ==> x in b && IndexOf(a + b, x) == |a| + IndexOf(b, x)
  {
    if x in a {
      var k := IndexOf(a, x);
      assert (a + b)[..k] == a[..k];
      IndexOfUnique(a + b, x, k);
    } else {
      var i := IndexOf(a + b, x);
      var j := i - |a|;
      assert b[j] == x;
      assert (a + b)[..i] == a + b[..j];
      IndexOfUnique(b, x, j);
    }
  }

  /** `list.remove(x)` guarded by `x in list`: drops the first occurrence of `x`. */
  function RemoveFirst<T(==)>(s: seq<T>, x: T): (r: seq<T>)
    ensures x !in s ==> r == s
    ensures x in s ==> multiset(r) == multiset(s) - multiset{x}
  {
    if s == [] then []
    else if s[0] == x then
      assert s == [s[0]] + s[1..];
      s[1..]
    else
      assert s == [s[0]] + s[1..];
      [s[0]] + RemoveFirst(s[1..], x)
  }

  /** The occurrence removed is the first one, and the other elements keep their order. */
  lemma {:induction false} RemoveFirstOrder<T>(s: seq<T>, x: T)
    requires x in s
    ensures RemoveFirst(s, x) == s[..IndexOf(s, x)] + s[IndexOf(s, x) + 1..]
  {
    if s[0] != x {
      assert s == [s[0]] + s[1..];
      RemoveFirstOrder(s[1..], x);
      var j := IndexOf(s[1..], x);
      assert IndexOf(s, x) == j + 1;
      assert s[..j + 1] == [s[0]] + s[1..][..j];
      assert s[j + 2..] == s[1..][j + 1..];
    }
  }

  /** On a duplicate-free list, `remove` takes out exactly `x` and keeps the rest distinct. */
  lemma {:induction false} RemoveFirstDistinct<T>(s: seq<T>, x: T)
    requires NoDup(s)
    ensures NoDup(RemoveFirst(s, x))
    ensures forall i :: 0 <= i < |s| ==> (s[i] in RemoveFirst(s, x) <==> s[i] != x)
    ensures forall y :: y in RemoveFirst(s, x) ==> y in s
  {
    var r := RemoveFirst(s, x);
    if s != [] {
      assert NoDup(s[1..]);
      RemoveFirstDistinct(s[1..], x);
      if s[0] != x {
        var rest := RemoveFirst(s[1..], x);
        assert r == [s[0]] + rest;
        assert s[0] !in s[1..];
        assert s[0] !in rest;
      } else {
        assert x !in s[1..];
      }
    }
  }

  /** `remove` leaves every other element in place, duplicates or not. */
  lemma RemoveFirstKeeps<T>(s: seq<T>, x: T, y: T)
    requires y in s && y != x
    ensures y in RemoveFirst(s, x)
  {
    if x in s {
      assert multiset(s)[y] > 0;
      assert multiset(RemoveFirst(s, x))[y] == multiset(s)[y];
    }
  }

  // ---------------------------------------------------------------- strings

  predicate StartsWith(s: string, prefix: string) {
    |prefix| <= |s| && s[..|prefix|] == prefix
  }

  predicate EndsWith(s: string, suffix: string) {
    |suffix| <= |s| && s[|s| - |suffix|..] == suffix
  }

  /** `pat` occurs in `s` starting at index `i`. */
  predicate OccursAt(s: string, pat: string, i: int) {
    0 <= i && i + |pat| <= |s| && s[i..i + |pat|] == pat
  }

  ghost predicate Occurs(s: string, pat: string) {
    exists i :: OccursAt(s, pat, i)
  }

  /** `s.replace(pat, rep)`: scans left to right and replaces every
      non-overlapping occurrence of `pat`, resuming after each replacement. */
  function ReplaceAll(s: string, pat: string, rep: string): string
    requires pat != []
    decreases |s|
  {
    if |s| < |pat| then s
    else if s[..|pat|] == pat then rep + ReplaceAll(s[|pat|..], pat, rep)
    else [s[0]] + ReplaceAll(s[1..], pat, rep)
  }

  /** A text without the pattern comes back unchanged. */
  lemma {:induction false} ReplaceAllWithoutMatch(s: string, pat: string, rep: string)
    requires pat != [] && !Occurs(s, pat)
    ensures ReplaceAll(s, pat, rep) == s
    decreases |s|
  {
    if |s| >= |pat| {
      assert !OccursAt(s, pat, 0);
      forall i | 0 <= i && i + |pat| <= |s| - 1 ensures !OccursAt(s[1..], pat, i) {
        assert s[1..][i..i + |pat|] == s[i + 1..i + 1 + |pat|];
        assert !OccursAt(s, pat, i + 1);
      }
      ReplaceAllWithoutMatch(s[1..], pat, rep);
    }
  }

  /** A leading occurrence is replaced and the scan resumes right after it. */
  lemma ReplaceAllLeading(s: string, pat: string, rep: string)
    requires pat != []
    ensures ReplaceAll(pat + s, pat, rep) == rep + ReplaceAll(s, pat, rep)
  {
    assert (pat + s)[..|pat|] == pat;
    assert (pat + s)[|pat|..] == s;
  }

  /** While the output shows only characters of the pattern it copies the input:
      a replacement, whose characters are foreign to the pattern, would show. */
  lemma {:induction false} ReplaceAllCopiesPrefix(s: string, pat: string, rep: string, k: nat)
    requires pat != [] && rep != []
    requires forall c :: c in rep ==> c !in pat
    ensures (k <= |ReplaceAll(s, pat, rep)| && forall j :: 0 <= j < k ==> ReplaceAll(s, pat, rep)[j] in pat)
            ==> k <= |s| && ReplaceAll(s, pat, rep)[..k] == s[..k]
    decreases |s|
  {
    var r := ReplaceAll(s, pat, rep);
    if |s| < |pat| {
    } else if s[..|pat|] == pat {
      if k > 0 {
        assert r[0] == rep[0] && rep[0] in rep;
        assert r[0] !in pat;
      }
    } else if k > 0 {
      var tail := ReplaceAll(s[1..], pat, rep);
      assert r == [s[0]] + tail;
      ReplaceAllCopiesPrefix(s[1..], pat, rep, k - 1);
      if k <= |r| && forall j :: 0 <= j < k ==> r[j] in pat {
        forall j | 0 <= j < k - 1 ensures tail[j] in pat {
          assert tail[j] == r[j + 1];
        }
        assert r[..k] == [s[0]] + tail[..k - 1];
        assert s[..k] == [s[0]] + s[1..][..k - 1];
      }
    }
  }

  /** With a non-empty replacement that shares no character with the pattern,
      no occurrence of the pattern survives `str.replace`. */
  lemma {:induction false} ReplaceAllLeavesNoMatch(s: string, pat: string, rep: string)
    requires pat != [] && rep != []
    requires forall c :: c in rep ==> c !in pat
    ensures !Occurs(ReplaceAll(s, pat, rep), pat)
    decreases |s|
  {
    var r := ReplaceAll(s, pat, rep);
    if |s| < |pat| {
    } else if s[..|pat|] == pat {
      var tail := ReplaceAll(s[|pat|..], pat, rep);
      ReplaceAllLeavesNoMatch(s[|pat|..], pat, rep);
      assert r == rep + tail;
      forall i | 0 <= i && i + |pat| <= |r| ensures !OccursAt(r, pat, i) {
        if i < |rep| {
          assert r[i..i + |pat|][0] == rep[i] && rep[i] in rep;
          assert pat[0] in pat;
        } else {
          assert r[i..i + |pat|] == tail[i - |rep|..i - |rep| + |pat|];
          assert !OccursAt(tail, pat, i - |rep|);
        }
      }
    } else {
      var tail := ReplaceAll(s[1..], pat, rep);
      ReplaceAllLeavesNoMatch(s[1..], pat, rep);
      assert r == [s[0]] + tail;
      forall i | 0 <= i && i + |pat| <= |r| ensures !OccursAt(r, pat, i) {
        if i == 0 {
          ReplaceAllCopiesPrefix(s, pat, rep, |pat|);
          if forall j :: 0 <= j < |pat| ==> r[j] in pat {
            assert r[..|pat|] == s[..|pat|];
          } else {
            var j :| 0 <= j < |pat| && r[j] !in pat;
            assert r[..|pat|][j] != pat[j];
          }
        } else {
          assert r[i..i + |pat|] == tail[i - 1..i - 1 + |pat|];
          assert !OccursAt(tail, pat, i - 1);
        }
      }
    }
  }

  /** `sep.join(items)`. */
  function Join(sep: string, items: seq<string>): string {
    if items == [] then ""
    else if |items| == 1 then items[0]
    else items[0] + sep + Join(sep, items[1..])
  }

  /** With a non-empty separator the join is empty only for no items or one empty item:
      this is when Python's `joined or default` falls back to the default. */
  lemma {:induction false} JoinEmptyIff(sep: string, items: seq<string>)
    requires sep != []
    ensures Join(sep, items) == "" <==> items == [] || items == [""]
  {
    if |items| > 1 {
      assert |Join(sep, items)| >= |sep|;
    }
  }

  function Upper(c: char): char {
    if 'a' <= c <= 'z' then (c as int - 'a' as int + 'A' as int) as char else c
  }

  function Lower(c: char): char {
    if 'A' <= c <= 'Z' then (c as int - 'A' as int + 'a' as int) as char else c
  }

  function LowerAll(s: string): (r: string)
    ensures |r| == |s|
    ensures forall i :: 0 <= i < |s| ==> r[i] == Lower(s[i])
  {
    if s == [] then [] else [Lower(s[0])] + LowerAll(s[1..])
  }

  /** `str.capitalize()`: first character upper case, the rest lower case. */
  function Capitalize(s: string): string {
    if s == [] then [] else [Upper(s[0])] + LowerAll(s[1..])
  }

  predicate IsDigit(c: char) {
    '0' <= c <= '9'
  }

  /** The decimal digits of `n`, most significant first, without leading zeros. */
  function Digits(n: nat): (r: string)
    ensures r != [] && forall c :: c in r ==> IsDigit(c)
    ensures |r| > 1 ==> r[0] != '0'
  {
    if n < 10 then ['0' + n as char]
    else Digits(n / 10) + ['0' + (n % 10) as char]
  }

  /** The number a run of decimal digits spells. */
  function Value(digits: string): nat {
    if digits == [] then 0
    else
      var last := digits[|digits| - 1];
      10 * Value(digits[..|digits| - 1]) + (if IsDigit(last) then last as int - '0' as int else 0)
  }

  /** The digits spell back the number they were made from. */
  lemma {:induction false} DigitsValue(n: nat)
    ensures Value(Digits(n)) == n
  {
    if n >= 10 {
      DigitsValue(n / 10);
      var d := Digits(n);
      assert d[..|d| - 1] == Digits(n / 10);
    }
  }

  /** `str(n)` for a Python int: a minus sign for negatives, then decimal digits. */
  function IntToText(n: int): (r: string)
    ensures r != []
    ensures (r[0] == '-') == (n < 0)
    ensures forall i :: 0 < i < |r| ==> IsDigit(r[i])
    ensures n >= 0 ==> IsDigit(r[0])
  {
    if n < 0 then "-" + Digits(-n)
    else
      var digits := Digits(n);
      assert digits[0] in digits;
      digits
  }

  /** Reading the text back gives the number: `int(str(n)) == n`. */
  lemma IntToTextValue(n: int)
    ensures var r := IntToText(n);
      if n < 0 then |r| > 1 && Value(r[1..]) == -n else Value(r) == n
  {
    if n < 0 {
      DigitsValue(-n);
      assert IntToText(n)[1..] == Digits(-n);
    } else {
      DigitsValue(n);
    }
  }
}
