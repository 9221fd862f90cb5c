/** The parts of Python's `str` behaviour the pipeline relies on: `isspace`, `strip`,
    `startswith`/`endswith`, `in`, `lower`, `split`, `join`, `replace`, `title`,
    `int(str)`, `str(int)` and the `{n:,}` format. Strings are sequences of Unicode
    code points, as in Python 3. */
module PyStr {
  import opened Wrappers

  /** Python's `str.isspace` for one code point: the characters with bidirectional
      class WS, B or S, or general category Zs. */
  predicate IsSpace(c: char) {
    ('\t' <= c <= '\r') || ('\U{1C}' <= c <= '\U{1F}') || c == ' ' || c == '\U{85}' ||
    c == '\U{A0}' || c == '\U{1680}' || ('\U{2000}' <= c <= '\U{200A}') ||
    c == '\U{2028}' || c == '\U{2029}' || c == '\U{202F}' || c == '\U{205F}' || c == '\U{3000}'
  }

  // ---------------------------------------------------------------------------
  // Trimming: `str.strip()` and `str.strip(chars)`

  /** Removes the longest prefix whose characters all satisfy `drop`. */
  function TrimStart(s: string, drop: char -> bool): (r: string)
    ensures |r| <= |s|
    decreases |s|
  {
    if |s| > 0 && drop(s[0]) then TrimStart(s[1..], drop) else s
  }

  /** Removes the longest suffix whose characters all satisfy `drop`. */
  function TrimEnd(s: string, drop: char -> bool): (r: string)
    ensures |r| <= |s|
    decreases |s|
  {
    if |s| > 0 && drop(s[|s| - 1]) then TrimEnd(s[..|s| - 1], drop) else s
  }

  /** Both ends trimmed. */
  function Trim(s: string, drop: char -> bool): (r: string)
    ensures |r| <= |s|
  {
    TrimEnd(TrimStart(s, drop), drop)
  }

  /** `TrimStart` removes a prefix of dropped characters and stops at a kept one. */
  lemma {:induction false} TrimStartSpec(s: string, drop: char -> bool)
    ensures var r := TrimStart(s, drop);
      && r == s[|s| - |r|..]
      && (|r| > 0 ==> !drop(r[0]))
      && forall i :: 0 <= i < |s| - |r| ==> drop(s[i])
    decreases |s|
  {
    if |s| > 0 && drop(s[0]) {
      TrimStartSpec(s[1..], drop);
      var r := TrimStart(s, drop);
      forall i | 0 <= i < |s| - |r| ensures drop(s[i]) {
        if i > 0 {
          assert s[i] == s[1..][i - 1];
        }
      }
    }
  }

  /** `TrimEnd` removes a suffix of dropped characters and stops at a kept one. */
  lemma {:induction false} TrimEndSpec(s: string, drop: char -> bool)
    ensures var r := TrimEnd(s, drop);
      && r == s[..|r|]
      && (|r| > 0 ==> !drop(r[|r| - 1]))
      && forall i :: |r| <= i < |s| ==> drop(s[i])
    decreases |s|
  {
    if |s| > 0 && drop(s[|s| - 1]) {
      TrimEndSpec(s[..|s| - 1], drop);
      var r := TrimEnd(s, drop);
      forall i | |r| <= i < |s| ensures drop(s[i]) {
        if i < |s| - 1 {
          assert s[i] == s[..|s| - 1][i];
        }
      }
    }
  }

  /** What `strip` leaves: the input with white space removed from both ends, so
      neither end character is white space. */
  lemma StripSpec(s: string)
    ensures var r := Strip(s);
      && (|r| > 0 ==> !IsSpace(r[0]) && !IsSpace(r[|r| - 1]))
      && r == s[|s| - |TrimStart(s, IsSpace)|..][..|r|]
      && (forall i :: 0 <= i < |s| - |TrimStart(s, IsSpace)| ==> IsSpace(s[i]))
      && (forall i :: |s| - |TrimStart(s, IsSpace)| + |r| <= i < |s| ==> IsSpace(s[i]))
  {
    TrimSpec(s, IsSpace);
  }

  /** What `Trim` leaves, for any set of dropped characters. */
  lemma TrimSpec(s: string, drop: char -> bool)
    ensures var r := Trim(s, drop);
      && (|r| > 0 ==> !drop(r[0]) && !drop(r[|r| - 1]))
      && r == s[|s| - |TrimStart(s, drop)|..][..|r|]
      && (forall i :: 0 <= i < |s| - |TrimStart(s, drop)| ==> drop(s[i]))
      && (forall i :: |s| - |TrimStart(s, drop)| + |r| <= i < |s| ==> drop(s[i]))
  {
    TrimStartSpec(s, drop);
    var t := TrimStart(s, drop);
    TrimEndSpec(t, drop);
    var r := Trim(s, drop);
    var cut := |s| - |t|;
    forall i | cut + |r| <= i < |s| ensures drop(s[i]) {
      assert s[i] == t[i - cut];
    }
  }

  /** Python's `s.strip()`. */
  function Strip(s: string): string {
    Trim(s, IsSpace)
  }

  /** Python's `s.strip(c)` for a single character `c`. */
  function StripChar(s: string, c: char): string {
    Trim(s, x => x == c)
  }

  /** A string with no white space characters at either end is its own `strip()`. */
  lemma {:induction false} StripNoSpace(s: string)
    requires |s| > 0 ==> !IsSpace(s[0]) && !IsSpace(s[|s| - 1])
    ensures Strip(s) == s
  {
    assert TrimStart(s, IsSpace) == s;
    assert TrimEnd(s, IsSpace) == s;
  }

  // ---------------------------------------------------------------------------
  // Prefixes, suffixes, substrings

  predicate StartsWith(s: string, p: string) {
    |p| <= |s| && s[..|p|] == p
  }

  predicate EndsWith(s: string, p: string) {
    |p| <= |s| && s[|s| - |p|..] == p
  }

  /** `p` occurs in `s` starting at index `i`. */
  predicate OccursAt(s: string, p: string, i: int) {
    0 <= i && i + |p| <= |s| && s[i..i + |p|] == p
  }

  /** The middle of three strings starts the text after the first. */
  lemma StartsAfter(a: string, b: string, c: string)
    ensures StartsWith((a + b + c)[|a|..], b)
  {
    assert (a + b + c)[|a|..] == b + c;
    assert (b + c)[..|b|] == b;
  }

  /** Python's `p in s`. */
  function Contains(s: string, p: string): bool
    decreases |s|
  {
    if StartsWith(s, p) then true
    else if |s| == 0 then false
    else Contains(s[1..], p)
  }

  /** `p in s` holds exactly when `p` occurs somewhere in `s`. */
  lemma {:induction false} ContainsSpec(s: string, p: string)
    ensures Contains(s, p) <==> exists i :: OccursAt(s, p, i)
    decreases |s|
  {
    if StartsWith(s, p) {
      assert OccursAt(s, p, 0);
    } else if |s| > 0 {
      ContainsSpec(s[1..], p);
      if Contains(s[1..], p) {
        var i :| OccursAt(s[1..], p, i);
        assert OccursAt(s, p, i + 1);
      } else {
        forall i | OccursAt(s, p, i) ensures false {
          assert i > 0 && OccursAt(s[1..], p, i - 1);
        }
      }
    }
  }

  // ---------------------------------------------------------------------------
  // Case mapping

  function LowerChar(c: char): char {
    if 'A' <= c <= 'Z' then (c as int + 32) as char else c
  }

  function UpperChar(c: char): char {
    if 'a' <= c <= 'z' then (c as int - 32) as char else c
  }

  predicate IsLetter(c: char) {
    ('a' <= c <= 'z') || ('A' <= c <= 'Z')
  }

  /** Python's `s.lower()`, for the ASCII letters. */
  function Lower(s: string): (r: string)
    ensures |r| == |s|
  {
    seq(|s|, i requires 0 <= i < |s| => LowerChar(s[i]))
  }

  /** Python's `s.title()`, for the ASCII letters: a letter is upper-cased when it
      follows a non-letter (or starts the string) and lower-cased otherwise. */
  function Title(s: string): (r: string)
    ensures |r| == |s|
    ensures forall i :: 0 <= i < |s| ==> r[i] == TitleChar(s, i)
  {
    seq(|s|, i requires 0 <= i < |s| => TitleChar(s, i))
  }

  /** The character at `i` in `s.title()`. */
  function TitleChar(s: string, i: nat): char
    requires i < |s|
  {
    if i == 0 || !IsLetter(s[i - 1]) then UpperChar(s[i]) else LowerChar(s[i])
  }

  /** Python's `s.replace(a, b)` for single characters. */
  function ReplaceChar(s: string, a: char, b: char): (r: string)
    ensures |r| == |s|
    ensures forall i :: 0 <= i < |s| ==> r[i] == if s[i] == a then b else s[i]
  {
    seq(|s|, i requires 0 <= i < |s| => if s[i] == a then b else s[i])
  }

  // ---------------------------------------------------------------------------
  // replace(pat, '')

  /** Python's `s.replace(pat, '')`: scans left to right and deletes every
      non-overlapping occurrence of `pat`. */
  function RemoveAll(s: string, pat: string): (r: string)
    requires |pat| > 0
    ensures |r| <= |s|
    decreases |s|
  {
    if StartsWith(s, pat) then RemoveAll(s[|pat|..], pat)
    else if |s| == 0 then ""
    else [s[0]] + RemoveAll(s[1..], pat)
  }

  /** Deleting a one-character pattern leaves no copy of that character, and keeps
      every other character (in order). */
  lemma {:induction false} RemoveCharSpec(s: string, c: char)
    ensures c !in RemoveAll(s, [c])
    ensures RemoveAll(s, [c]) == Filter(s, c)
    decreases |s|
  {
    if |s| > 0 {
      RemoveCharSpec(s[1..], c);
      assert s == [s[0]] + s[1..];
    }
  }

  /** The characters of `s` other than `c`. */
  function Filter(s: string, c: char): string
    decreases |s|
  {
    if |s| == 0 then "" else (if s[0] == c then "" else [s[0]]) + Filter(s[1..], c)
  }

  /** Deleting `pat` keeps every character that does not occur in `pat`. */
  lemma {:induction false} RemoveAllKeeps(s: string, pat: string, c: char)
    requires |pat| > 0 && c in s && c !in pat
    ensures c in RemoveAll(s, pat)
    decreases |s|
  {
    if StartsWith(s, pat) {
      var k :| 0 <= k < |s| && s[k] == c;
      assert forall j :: 0 <= j < |pat| ==> s[j] == pat[j];
      assert k >= |pat|;
      assert s[|pat|..][k - |pat|] == c;
      RemoveAllKeeps(s[|pat|..], pat, c);
    } else if s[0] != c {
      var k :| 0 <= k < |s| && s[k] == c;
      assert s[1..][k - 1] == c;
      RemoveAllKeeps(s[1..], pat, c);
    }
  }

  /** A string with no occurrence of `pat` is unchanged by deleting `pat`. */
  lemma {:induction false} RemoveAbsent(s: string, pat: string)
    requires |pat| > 0
    requires !Contains(s, pat)
    ensures RemoveAll(s, pat) == s
    decreases |s|
  {
    if |s| > 0 {
      assert !OccursAt(s, pat, 0);
      ContainsTail(s, pat);
      RemoveAbsent(s[1..], pat);
      assert s == [s[0]] + s[1..];
    }
  }

  /** An occurrence in the tail of `s` is an occurrence in `s`. */
  lemma ContainsTail(s: string, pat: string)
    requires |s| > 0
    ensures Contains(s[1..], pat) ==> Contains(s, pat)
  {
    ContainsSpec(s[1..], pat);
    ContainsSpec(s, pat);
    if Contains(s[1..], pat) {
      var i :| OccursAt(s[1..], pat, i);
      assert s[1..][i..i + |pat|] == s[i + 1..i + 1 + |pat|];
      assert OccursAt(s, pat, i + 1);
    }
  }

  // ---------------------------------------------------------------------------
  // split / join

  /** Index of the first `c` in `s`. */
  function IndexOf(s: string, c: char): (k: nat)
    requires c in s
    ensures k < |s| && s[k] == c && c !in s[..k]
    decreases |s|
  {
    if s[0] == c then 0 else 1 + IndexOf(s[1..], c)
  }

  /** Python's `s.rfind(c)`: the index of the last `c`, or -1. */
  function RFind(s: string, c: char): (k: int)
    ensures -1 <= k < |s|
    ensures k >= 0 ==> s[k] == c && c !in s[k + 1..]
    ensures k == -1 <==> c !in s
    decreases |s|
  {
    if |s| == 0 then -1
    else if s[|s| - 1] == c then |s| - 1
    else RFind(s[..|s| - 1], c)
  }

  /** The last `c` of `a + b` is in `b` when `b` has one, and is `a`'s otherwise. */
  lemma {:induction false} RFindAppend(a: string, b: string, c: char)
    ensures c in b ==> RFind(a + b, c) == |a| + RFind(b, c)
    ensures c !in b ==> RFind(a + b, c) == RFind(a, c)
    decreases |b|
  {
    if |b| == 0 {
      assert a + b == a;
    } else {
      var init := b[..|b| - 1];
      assert (a + b)[..|a + b| - 1] == a + init;
      assert (a + b)[|a + b| - 1] == b[|b| - 1];
      assert b == init + [b[|b| - 1]];
      if b[|b| - 1] != c {
        RFindAppend(a, init, c);
      }
    }
  }

  /** Python's `s.split(sep)` for a one-character separator: the pieces between
      separators, at least one, none containing `sep`. */
  function Split(s: string, sep: char): (parts: seq<string>)
    ensures |parts| >= 1
    ensures forall i :: 0 <= i < |parts| ==> sep !in parts[i]
    decreases |s|
  {
    if sep !in s then [s]
    else
      var k := IndexOf(s, sep);
      [s[..k]] + Split(s[k + 1..], sep)
  }

  /** Python's `sep.join(parts)`. */
  function Join(parts: seq<string>, sep: string): string
    decreases |parts|
  {
    if |parts| == 0 then ""
    else if |parts| == 1 then parts[0]
    else parts[0] + sep + Join(parts[1..], sep)
  }

  /** Splitting at a separator and joining with it gives back the string. */
  lemma {:induction false} JoinSplit(s: string, sep: char)
    ensures Join(Split(s, sep), [sep]) == s
    decreases |s|
  {
    if sep in s {
      var k := IndexOf(s, sep);
      var rest := Split(s[k + 1..], sep);
      JoinSplit(s[k + 1..], sep);
      assert Split(s, sep) == [s[..k]] + rest;
      assert ([s[..k]] + rest)[1..] == rest;
      assert Join(Split(s, sep), [sep]) == s[..k] + [sep] + Join(rest, [sep]);
      assert s == s[..k] + [sep] + s[k + 1..];
    }
  }

  // ---------------------------------------------------------------------------
  // ' '.join(s.split())

  /** Length of the leading run of non-space characters. */
  function WordLen(s: string): (n: nat)
    ensures n <= |s|
    ensures forall i :: 0 <= i < n ==> !IsSpace(s[i])
    ensures n < |s| ==> IsSpace(s[n])
    ensures |s| > 0 && !IsSpace(s[0]) ==> n > 0
    decreases |s|
  {
    if |s| == 0 || IsSpace(s[0]) then 0 else 1 + WordLen(s[1..])
  }

  /** A word: non-empty and free of white space. */
  predicate IsWord(w: string) {
    |w| > 0 && forall i :: 0 <= i < |w| ==> !IsSpace(w[i])
  }

  /** Python's `s.split()`: the maximal runs of non-space characters. */
  function Words(s: string): (ws: seq<string>)
    ensures forall i :: 0 <= i < |ws| ==> IsWord(ws[i])
    decreases |s|
  {
    var t := TrimStart(s, IsSpace);
    TrimStartSpec(s, IsSpace);
    if |t| == 0 then []
    else
      var n := WordLen(t);
      [t[..n]] + Words(t[n..])
  }

  /** Text whose white space is single blanks between non-space characters: nothing
      leading, nothing trailing, nothing repeated. */
  predicate Normalised(r: string) {
    && (|r| > 0 ==> !IsSpace(r[0]) && !IsSpace(r[|r| - 1]))
    && (forall i :: 0 <= i < |r| && IsSpace(r[i]) ==> r[i] == ' ')
    && (forall i, j :: 0 <= i < |r| - 1 && j == i + 1 ==> !(IsSpace(r[i]) && IsSpace(r[j])))
  }

  /** Python's `' '.join(s.split())`. */
  function NormaliseSpace(s: string): (r: string)
    ensures Normalised(r)
  {
    JoinWordsNormalised(Words(s));
    Join(Words(s), " ")
  }

  lemma {:induction false} JoinWordsNormalised(ws: seq<string>)
    requires forall i :: 0 <= i < |ws| ==> IsWord(ws[i])
    ensures Normalised(Join(ws, " "))
    decreases |ws|
  {
    if |ws| == 1 {
      var w := ws[0];
      assert IsWord(w);
    } else if |ws| > 1 {
      var w := ws[0];
      assert IsWord(w);
      var rest := Join(ws[1..], " ");
      JoinWordsNormalised(ws[1..]);
      assert IsWord(ws[1..][0]);
      assert |rest| > 0 && !IsSpace(rest[0]) by {
        if |ws[1..]| > 1 {
          assert rest == ws[1..][0] + " " + Join(ws[2..], " ") by {
            assert ws[1..][1..] == ws[2..];
          }
        }
      }
      var r := w + " " + rest;
      assert Join(ws, " ") == r;
      forall i | 0 <= i < |r| && IsSpace(r[i]) ensures r[i] == ' ' {
        if i > |w| {
          assert r[i] == rest[i - |w| - 1];
        }
      }
      forall i, j | 0 <= i < |r| - 1 && j == i + 1 ensures !(IsSpace(r[i]) && IsSpace(r[j])) {
        if i > |w| {
          assert r[i] == rest[i - |w| - 1];
          assert r[j] == rest[j - |w| - 1];
        } else if i == |w| {
          assert r[j] == rest[0];
        } else if j == |w| {
          assert r[i] == w[i];
        }
      }
      assert r[|r| - 1] == rest[|rest| - 1];
    }
  }


  // ---------------------------------------------------------------------------
  // Decimal text: str(n), int(s), '{n:,}'

  function DigitChar(d: nat): char
    requires d < 10
  {
    ('0' as int + d) as char
  }

  predicate IsDigit(c: char) {
    '0' <= c <= '9'
  }

  function DigitValue(c: char): nat
    requires IsDigit(c)
  {
    c as int - '0' as int
  }

  /** Python's `str(n)` for a natural number. */
  function NatToString(n: nat): (s: string)
    ensures |s| > 0 && forall i :: 0 <= i < |s| ==> IsDigit(s[i])
    decreases n
  {
    if n < 10 then [DigitChar(n)] else NatToString(n / 10) + [DigitChar(n % 10)]
  }

  /** Python's `str(i)`. */
  function IntToString(i: int): string {
    if i < 0 then "-" + NatToString(-i) else NatToString(i)
  }

  /** A digit string with single underscores allowed between digits, as `int()`
      accepts it. */
  predicate DigitGroups(t: string) {
    && |t| > 0 && IsDigit(t[0]) && IsDigit(t[|t| - 1])
    && (forall i :: 0 <= i < |t| ==> IsDigit(t[i]) || t[i] == '_')
    && (forall i, j :: 0 <= i < |t| - 1 && j == i + 1 ==> !(t[i] == '_' && t[j] == '_'))
  }

  /** The number written by the digits of `t` (underscores skipped). */
  function DigitsValue(t: string): nat
    requires forall i :: 0 <= i < |t| ==> IsDigit(t[i]) || t[i] == '_'
    decreases |t|
  {
    if |t| == 0 then 0
    else if t[|t| - 1] == '_' then DigitsValue(t[..|t| - 1])
    else 10 * DigitsValue(t[..|t| - 1]) + DigitValue(t[|t| - 1])
  }

  /** Python's `int(s)` in base 10 for ASCII digits: surrounding white space is
      ignored, an optional sign, then digits with single underscores between them;
      anything else raises `ValueError`, which is `None` here. */
  function ParseInt(s: string): (r: Option<int>)
    ensures r.Some? ==> |Strip(s)| > 0
  {
    var t := Strip(s);
    if |t| > 0 && (t[0] == '+' || t[0] == '-') then
      var u := t[1..];
      var v: int := if DigitGroups(u) then DigitsValue(u) else 0;
      if DigitGroups(u) then Some(if t[0] == '-' then -v else v)
      else None
    else if DigitGroups(t) then Some(DigitsValue(t))
    else None
  }

  lemma {:induction false} NatToStringValue(n: nat)
    ensures DigitsValue(NatToString(n)) == n
    decreases n
  {
    var s := NatToString(n);
    if n >= 10 {
      NatToStringValue(n / 10);
      assert s[..|s| - 1] == NatToString(n / 10);
    }
  }

  /** `int()` raises on text holding a character that is neither white space, a
      digit, an underscore nor a sign. */
  lemma ParseIntRejects(s: string, c: char)
    requires c in s && !IsSpace(c) && !IsDigit(c) && c != '_' && c != '+' && c != '-'
    ensures ParseInt(s) == None
  {
    var t := Strip(s);
    StripSpec(s);
    var cut := |s| - |TrimStart(s, IsSpace)|;
    var k :| 0 <= k < |s| && s[k] == c;
    assert cut <= k < cut + |t|;
    assert t[k - cut] == c;
    if |t| > 0 && (t[0] == '+' || t[0] == '-') {
      assert t[1..][k - cut - 1] == c;
    }
  }

  /** Whatever `str()` writes, `int()` reads back. */
  lemma ParseIntToString(i: int)
    ensures ParseInt(IntToString(i)) == Some(i)
  {
    var s := IntToString(i);
    var d := NatToString(if i < 0 then -i else i);
    StripNoSpace(s);
    NatToStringValue(if i < 0 then -i else i);
    if i < 0 {
      assert s[1..] == d;
    }
  }

  /** `n % 1000` written with exactly three digits. */
  function Pad3(r: nat): (s: string)
    requires r < 1000
    ensures |s| == 3
  {
    [DigitChar(r / 100), DigitChar(r / 10 % 10), DigitChar(r % 10)]
  }

  /** Python's `f"{n:,}"`: decimal digits in groups of three separated by commas. */
  function Thousands(i: int): string {
    if i < 0 then "-" + GroupedNat(-i) else GroupedNat(i)
  }

  function GroupedNat(n: nat): string
    decreases n
  {
    if n < 1000 then NatToString(n) else GroupedNat(n / 1000) + "," + Pad3(n % 1000)
  }

  lemma {:induction false} NatToStringSplit(q: nat, r: nat)
    requires q >= 1 && r < 1000
    ensures NatToString(q * 1000 + r) == NatToString(q) + Pad3(r)
  {
    var n := q * 1000 + r;
    var n1 := q * 100 + r / 10;
    var n2 := q * 10 + r / 100;
    assert n / 10 == n1 && n % 10 == r % 10;
    assert n1 / 10 == n2 && n1 % 10 == r / 10 % 10;
    assert n2 / 10 == q && n2 % 10 == r / 100;
    assert NatToString(n) == NatToString(n1) + [DigitChar(r % 10)];
    assert NatToString(n1) == NatToString(n2) + [DigitChar(r / 10 % 10)];
    assert NatToString(n2) == NatToString(q) + [DigitChar(r / 100)];
  }

  lemma {:induction false} RemoveConcat(a: string, b: string, c: char)
    ensures Filter(a + b, c) == Filter(a, c) + Filter(b, c)
    decreases |a|
  {
    if |a| > 0 {
      RemoveConcat(a[1..], b, c);
      assert (a + b)[0] == a[0];
      assert (a + b)[1..] == a[1..] + b;
    } else {
      assert a + b == b;
    }
  }

  lemma {:induction false} FilterNoChar(s: string, c: char)
    requires c !in s
    ensures Filter(s, c) == s
    decreases |s|
  {
    if |s| > 0 {
      FilterNoChar(s[1..], c);
      assert s == [s[0]] + s[1..];
    }
  }

  /** Deleting the commas of `{n:,}` gives `str(n)`. */
  lemma {:induction false} GroupedUngroup(n: nat)
    ensures Filter(GroupedNat(n), ',') == NatToString(n)
    decreases n
  {
    if n < 1000 {
      FilterNoChar(NatToString(n), ',');
    } else {
      var g, p := GroupedNat(n / 1000), Pad3(n % 1000);
      assert GroupedNat(n) == g + ("," + p);
      GroupedUngroup(n / 1000);
      Pad3NoComma(n % 1000);
      FilterGroup(g, p);
      NatToStringSplit(n / 1000, n % 1000);
    }
  }

  lemma Pad3NoComma(r: nat)
    requires r < 1000
    ensures ',' !in Pad3(r)
  {
    var p := Pad3(r);
    assert forall i :: 0 <= i < 3 ==> IsDigit(p[i]);
  }

  /** Deleting the commas of one more group. */
  lemma {:induction false} FilterGroup(g: string, p: string)
    requires ',' !in p
    ensures Filter(g + ("," + p), ',') == Filter(g, ',') + p
  {
    var cp := "," + p;
    RemoveConcat(g, cp, ',');
    assert cp[0] == ',' && cp[1..] == p;
    assert Filter(cp, ',') == Filter(p, ',');
    FilterNoChar(p, ',');
  }

  /** An amount printed with thousands separators, commas deleted, parses back to
      the amount: `int('50,000'.replace(',', '')) == 50000`. */
  lemma ThousandsRoundTrip(i: int)
    ensures ParseInt(RemoveAll(Thousands(i), ",")) == Some(i)
  {
    RemoveCharSpec(Thousands(i), ',');
    assert Filter(Thousands(i), ',') == IntToString(i) by {
      if i < 0 {
        GroupedUngroup(-i);
        RemoveConcat("-", GroupedNat(-i), ',');
        assert Filter("-", ',') == "-";
      } else {
        GroupedUngroup(i);
      }
    }
    ParseIntToString(i);
  }

  // ---------------------------------------------------------------------------
  // Ordering: `<` on strings

  /** Python's `a < b` on strings: code point by code point, a proper prefix
      first. */
  predicate Less(a: string, b: string)
    decreases |a|
  {
    if |a| == 0 then |b| > 0
    else if |b| == 0 then false
    else if a[0] != b[0] then a[0] < b[0]
    else Less(a[1..], b[1..])
  }

  lemma {:induction false} LessIrreflexive(a: string)
    ensures !Less(a, a)
    decreases |a|
  {
    if |a| > 0 {
      LessIrreflexive(a[1..]);
    }
  }

  /** Two different strings are ordered one way or the other, never both. */
  lemma {:induction false} LessTotal(a: string, b: string)
    ensures a != b ==> Less(a, b) || Less(b, a)
    ensures !(Less(a, b) && Less(b, a))
    decreases |a|
  {
    if |a| > 0 && |b| > 0 && a[0] == b[0] {
      LessTotal(a[1..], b[1..]);
      if a != b {
        assert a == [a[0]] + a[1..] && b == [b[0]] + b[1..];
      }
    }
  }

  lemma {:induction false} LessTransitive(a: string, b: string, c: string)
    requires Less(a, b) && Less(b, c)
    ensures Less(a, c)
    decreases |a|
  {
    if |a| > 0 && a[0] == b[0] && b[0] == c[0] {
      LessTransitive(a[1..], b[1..], c[1..]);
    }
  }

  /** Every string is less than every later one. */
  predicate Ascending(s: seq<string>) {
    forall i, j :: 0 <= i < j < |s| ==> Less(s[i], s[j])
  }

  /** `x` placed in front of the first string it is less than. */
  function Insert(x: string, s: seq<string>): seq<string>
    decreases |s|
  {
    if |s| == 0 then [x]
    else if Less(x, s[0]) then [x] + s
    else [s[0]] + Insert(x, s[1..])
  }

  /** `sorted(xs)` on a list of strings. */
  function Sorted(xs: seq<string>): seq<string>
    decreases |xs|
  {
    if |xs| == 0 then [] else Insert(xs[|xs| - 1], Sorted(xs[..|xs| - 1]))
  }

  lemma {:induction false} InsertSpec(x: string, s: seq<string>)
    requires Ascending(s) && x !in s
    ensures Ascending(Insert(x, s)) && multiset(Insert(x, s)) == multiset(s) + multiset{x}
  {
    InsertCounts(x, s);
    InsertAscending(x, s);
  }

  lemma {:induction false} InsertCounts(x: string, s: seq<string>)
    ensures multiset(Insert(x, s)) == multiset(s) + multiset{x}
    ensures forall y :: y in Insert(x, s) <==> y == x || y in s
    decreases |s|
  {
    if |s| > 0 && !Less(x, s[0]) {
      InsertCounts(x, s[1..]);
      assert s == [s[0]] + s[1..];
    }
  }

  lemma {:induction false} InsertAscending(x: string, s: seq<string>)
    requires Ascending(s) && x !in s
    ensures Ascending(Insert(x, s))
    decreases |s|
  {
    if |s| == 0 {
    } else if Less(x, s[0]) {
      var r := [x] + s;
      forall i, j | 0 <= i < j < |r| ensures Less(r[i], r[j]) {
        if i == 0 {
          if j > 1 {
            LessTransitive(x, s[0], s[j - 1]);
          }
        } else {
          assert r[i] == s[i - 1] && r[j] == s[j - 1];
        }
      }
    } else {
      LessTotal(x, s[0]);
      var t := s[1..];
      assert Ascending(t) by {
        forall i, j | 0 <= i < j < |t| ensures Less(t[i], t[j]) {
          assert t[i] == s[i + 1] && t[j] == s[j + 1];
        }
      }
      InsertAscending(x, t);
      InsertCounts(x, t);
      var r' := Insert(x, t);
      var r := [s[0]] + r';
      forall i, j | 0 <= i < j < |r| ensures Less(r[i], r[j]) {
        if i == 0 {
          assert r[j] == r'[j - 1] && r'[j - 1] in r';
          if r'[j - 1] != x {
            var k :| 0 <= k < |t| && t[k] == r'[j - 1];
            assert Less(s[0], s[k + 1]);
          }
        } else {
          assert r[i] == r'[i - 1] && r[j] == r'[j - 1];
        }
      }
    }
  }

  /** Sorting distinct strings puts the same strings in ascending order. */
  lemma {:induction false} SortedSpec(xs: seq<string>)
    requires forall i, j :: 0 <= i < j < |xs| ==> xs[i] != xs[j]
    ensures Ascending(Sorted(xs)) && multiset(Sorted(xs)) == multiset(xs)
    decreases |xs|
  {
    if |xs| > 0 {
      var init := xs[..|xs| - 1];
      var x := xs[|xs| - 1];
      assert xs == init + [x];
      SortedSpec(init);
      assert x !in init;
      assert x !in multiset(Sorted(init));
      InsertSpec(x, Sorted(init));
    }
  }
}
