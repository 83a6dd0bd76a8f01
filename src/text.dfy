/** Python `str` operations the core relies on: substring search, `split`/`join`/`replace`,
    `strip`, the case mappings of `lower`/`capitalize` and of case-insensitive regular
    expressions, and `str(int)`. Strings are `seq<char>`. */
module Text {
  import opened Wrappers

  // ----- substring search -------------------------------------------------------------

  /** `p` occurs in `s` starting at index `i`. */
  predicate OccursAt(s: string, p: string, i: nat) {
    i + |p| <= |s| && s[i..i + |p|] == p
  }

  /** Leftmost occurrence of `p` in `s` at or after `from` (Python `s.find(p, from)`). */
  function IndexOfFrom(s: string, p: string, from: nat): (r: Option<nat>)
    decreases |s| - from
    ensures r.Some? ==> from <= r.value && OccursAt(s, p, r.value)
    ensures r.Some? ==> forall j :: from <= j < r.value ==> !OccursAt(s, p, j)
    ensures r.None? ==> forall j :: from <= j ==> !OccursAt(s, p, j)
  {
    if from + |p| > |s| then None
    else if s[from..from + |p|] == p then Some(from)
    else IndexOfFrom(s, p, from + 1)
  }

  function IndexOf(s: string, p: string): Option<nat> {
    IndexOfFrom(s, p, 0)
  }

  /** The first place `p` occurs is what `find` reports. */
  lemma IndexOfFirst(s: string, p: string, k: nat)
    requires OccursAt(s, p, k)
    requires forall j :: 0 <= j < k ==> !OccursAt(s, p, j)
    ensures IndexOf(s, p) == Some(k)
  {
  }

  /** Python `p in s`. */
  predicate Contains(s: string, p: string) {
    IndexOf(s, p).Some?
  }

  /** Python `s.startswith(p)`. */
  predicate StartsWith(s: string, p: string) {
    |p| <= |s| && s[..|p|] == p
  }

  /** The leftmost occurrence of `p` in `s` stays the leftmost when text is appended to `s`:
      what a decoder has already found in its buffer cannot move when more input arrives. */
  lemma IndexOfExtend(s: string, t: string, p: string)
    requires IndexOf(s, p).Some?
    ensures IndexOf(s + t, p) == IndexOf(s, p)
  {
    var k := IndexOf(s, p).value;
    assert (s + t)[k..k + |p|] == s[k..k + |p|];
    assert OccursAt(s + t, p, k);
    forall j | 0 <= j < k
      ensures !OccursAt(s + t, p, j)
    {
      assert !OccursAt(s, p, j);
      assert (s + t)[j..j + |p|] == s[j..j + |p|];
    }
  }

  /** Python truthiness of an optional string: present and non-empty. */
  predicate Truthy(o: Option<string>) {
    o.Some? && o.value != ""
  }

  // ----- split / join / replace ---------------------------------------------------------

  /** Python `s.split(p)` for a non-empty separator: the pieces between the non-overlapping
      occurrences of `p`, found left to right. No piece contains the separator. */
  function SplitAll(s: string, p: string): (r: seq<string>)
    requires |p| > 0
    decreases |s|
    ensures |r| > 0
    ensures forall i :: 0 <= i < |r| ==> !Contains(r[i], p)
  {
    match IndexOf(s, p)
    case None => [s]
    case Some(k) =>
      var head := s[..k];
      assert !Contains(head, p) by {
        if IndexOf(head, p).Some? {
          var j := IndexOf(head, p).value;
          assert head[j..j + |p|] == s[j..j + |p|];
          assert OccursAt(s, p, j);
        }
      }
      [head] + SplitAll(s[k + |p|..], p)
  }

  /** Python `sep.join(pieces)`. */
  function Join(pieces: seq<string>, sep: string): string {
    if |pieces| == 0 then ""
    else if |pieces| == 1 then pieces[0]
    else pieces[0] + sep + Join(pieces[1..], sep)
  }

  /** Joining the pieces of a split with the same separator gives the text back. */
  lemma {:induction false} JoinSplit(s: string, p: string)
    requires |p| > 0
    ensures Join(SplitAll(s, p), p) == s
    decreases |s|
  {
    match IndexOf(s, p)
    case None =>
    case Some(k) =>
      var rest := s[k + |p|..];
      JoinSplit(rest, p);
      assert SplitAll(s, p) == [s[..k]] + SplitAll(rest, p);
      assert s == s[..k] + p + rest by {
        assert s[k..k + |p|] == p;
      }
  }

  /** One step of a split: the piece before the first separator, then the split of the rest. */
  lemma SplitStep(s: string, p: string, k: nat)
    requires |p| > 0 && IndexOf(s, p) == Some(k)
    ensures k + |p| <= |s| && SplitAll(s, p) == [s[..k]] + SplitAll(s[k + |p|..], p)
  {
  }

  /** Concatenation is associative; stated once so that proofs with a large context need not
      rediscover it. */
  lemma Associative<T>(a: seq<T>, b: seq<T>, c: seq<T>)
    ensures a + (b + c) == (a + b) + c
  {
  }

  /** Regrouping a list with a new head: all but its last element, then the rest. */
  lemma Regroup<T>(head: T, rs: seq<T>, tail: seq<T>)
    requires |rs| > 0
    ensures var ps := [head] + rs;
            ps[..|ps| - 1] + tail == [head] + (rs[..|rs| - 1] + tail) && ps[|ps| - 1] == rs[|rs| - 1]
  {
    var ps := [head] + rs;
    assert ps[..|ps| - 1] == [head] + rs[..|rs| - 1];
  }

  /** Splitting `s + t`: the pieces of `s` that were already closed by a separator stay as
      they are, and only the last, unterminated piece of `s` is split again with `t`. */
  lemma {:induction false} SplitAppend(s: string, t: string, p: string)
    requires |p| > 0
    ensures var ps := SplitAll(s, p);
            SplitAll(s + t, p) == ps[..|ps| - 1] + SplitAll(ps[|ps| - 1] + t, p)
    decreases |s|
  {
    if IndexOf(s, p).Some? {
      var k := IndexOf(s, p).value;
      IndexOfExtend(s, t, p);
      var rest := s[k + |p|..];
      assert (s + t)[..k] == s[..k];
      assert (s + t)[k + |p|..] == rest + t;
      SplitAppend(rest, t, p);
      SplitStep(s, p, k);
      SplitStep(s + t, p, k);
      var rs := SplitAll(rest, p);
      var tail := SplitAll(rs[|rs| - 1] + t, p);
      Regroup(s[..k], rs, tail);
      var ps := SplitAll(s, p);
      assert ps == [s[..k]] + rs;
      calc {
        SplitAll(s + t, p);
        [s[..k]] + SplitAll(rest + t, p);
        [s[..k]] + (rs[..|rs| - 1] + tail);
        ps[..|ps| - 1] + tail;
      }
    } else {
      var ps := SplitAll(s, p);
      assert ps == [s];
      assert ps[..|ps| - 1] + SplitAll(s + t, p) == SplitAll(s + t, p);
    }
  }

  /** For a one-character separator that occurs in no piece, splitting the joined text gives
      the pieces back. */
  lemma {:induction false} SplitJoin(pieces: seq<string>, sep: string)
    requires |sep| == 1 && |pieces| > 0
    requires forall i :: 0 <= i < |pieces| ==> sep[0] !in pieces[i]
    ensures SplitAll(Join(pieces, sep), sep) == pieces
  {
    if |pieces| == 1 {
      NoCharNoOccurrence(pieces[0], sep);
    } else {
      var x := pieces[0];
      var rest := Join(pieces[1..], sep);
      var s := x + sep + rest;
      assert OccursAt(s, sep, |x|) by { assert s[|x|..|x| + 1] == sep; }
      forall j | 0 <= j < |x|
        ensures !OccursAt(s, sep, j)
      {
        assert s[j] == x[j];
      }
      IndexOfFirst(s, sep, |x|);
      assert s[..|x|] == x;
      assert s[|x| + 1..] == rest;
      SplitJoin(pieces[1..], sep);
      assert pieces == [x] + pieces[1..];
    }
  }

  lemma NoCharNoOccurrence(s: string, sep: string)
    requires |sep| == 1 && sep[0] !in s
    ensures SplitAll(s, sep) == [s]
  {
  }

  /** Python `s.replace(p, rep)`: every non-overlapping occurrence of `p`, left to right. */
  function ReplaceAll(s: string, p: string, rep: string): (r: string)
    requires |p| > 0
    ensures !Contains(s, p) ==> r == s
    ensures rep == p ==> r == s
  {
    JoinSplit(s, p);
    Join(SplitAll(s, p), rep)
  }

  // ----- whitespace -------------------------------------------------------------------

  /** Python's `str.isspace` for one character. */
  predicate IsSpace(c: char) {
    c == ' ' || ('\t' <= c <= '\r') || ('\U{1C}' <= c <= '\U{1F}') || c == '\U{85}' || c == '\U{A0}'
    || c == '\U{1680}' || ('\U{2000}' <= c <= '\U{200A}') || c == '\U{2028}' || c == '\U{2029}'
    || c == '\U{202F}' || c == '\U{205F}' || c == '\U{3000}'
  }

  predicate AllSpace(s: string) {
    forall i :: 0 <= i < |s| ==> IsSpace(s[i])
  }

  /** A text is blank exactly when both of its parts are. */
  lemma AllSpaceAppend(a: string, b: string)
    ensures AllSpace(a + b) <==> AllSpace(a) && AllSpace(b)
  {
    if AllSpace(a + b) {
      forall i | 0 <= i < |a|
        ensures IsSpace(a[i])
      {
        assert a[i] == (a + b)[i];
      }
      forall i | 0 <= i < |b|
        ensures IsSpace(b[i])
      {
        assert b[i] == (a + b)[|a| + i];
      }
    }
  }

  /** Python `s.lstrip()`: the leading whitespace removed. */
  function StripStart(s: string): (r: string)
    ensures |r| <= |s| && r == s[|s| - |r|..] && AllSpace(s[..|s| - |r|])
    ensures r != [] ==> !IsSpace(r[0])
  {
    if |s| > 0 && IsSpace(s[0]) then
      var r := StripStart(s[1..]);
      assert s[..|s| - |r|] == [s[0]] + s[1..][..|s| - 1 - |r|];
      AllSpaceAppend([s[0]], s[1..][..|s| - 1 - |r|]);
      r
    else s
  }

  /** Python `s.rstrip()`: the trailing whitespace removed. */
  function StripEnd(s: string): (r: string)
    ensures |r| <= |s| && r == s[..|r|] && AllSpace(s[|r|..])
    ensures r != [] ==> !IsSpace(r[|r| - 1])
  {
    if |s| > 0 && IsSpace(s[|s| - 1]) then
      var r := StripEnd(s[..|s| - 1]);
      assert s[|r|..] == s[..|s| - 1][|r|..] + [s[|s| - 1]];
      AllSpaceAppend(s[..|s| - 1][|r|..], [s[|s| - 1]]);
      r
    else s
  }

  /** Python `s.strip()`: what is left once the leading and trailing whitespace is removed. It
      is empty exactly when `s` is blank. */
  function Strip(s: string): (r: string)
    ensures r == "" <==> AllSpace(s)
    ensures r != "" ==> !IsSpace(r[0]) && !IsSpace(r[|r| - 1])
  {
    var a := StripStart(s);
    var r := StripEnd(a);
    if r == "" then
      assert a == a[0..];
      assert s == s[..|s| - |a|] + a;
      AllSpaceAppend(s[..|s| - |a|], a);
      r
    else
      assert r[0] == a[0] == s[|s| - |a|];
      r
  }

  // ----- case mapping -----------------------------------------------------------------

  /** Python's lower-case mapping of one character into one character; modelled for ASCII,
      the Latin-1 capitals and the Kelvin sign. */
  function LowerChar(c: char): char {
    if 'A' <= c <= 'Z' || ('À' <= c <= 'Þ' && c != '×') then (c as int + 32) as char
    else if c == '\U{212A}' then 'k'
    else c
  }

  /** Python `s.lower()`. The capital I with dot above lowers to two characters. */
  function Lower(s: string): (r: string)
    ensures |r| >= |s|
  {
    if s == [] then ""
    else (if s[0] == 'İ' then "i̇" else [LowerChar(s[0])]) + Lower(s[1..])
  }

  /** Python's upper-case mapping of one character into one character, for ASCII and the
      Latin-1 small letters that have a Latin-1 capital. */
  function UpperChar(c: char): char {
    if 'a' <= c <= 'z' || ('à' <= c <= 'þ' && c != '÷') then (c as int - 32) as char
    else c
  }

  /** Python's title-case mapping of one character, for ASCII and Latin-1: the sharp s becomes
      "Ss", and y with diaeresis and the micro sign map outside Latin-1. */
  function TitleCase(c: char): (r: string)
    ensures c != '\n' ==> '\n' !in r
  {
    if c == 'ß' then "Ss"
    else if c == 'ÿ' then "Ÿ"
    else if c == 'µ' then "Μ"
    else [UpperChar(c)]
  }

  /** Python `s.capitalize()`: the first character in title case, the rest lower-cased. */
  function Capitalize(s: string): string {
    if s == [] then "" else TitleCase(s[0]) + Lower(s[1..])
  }

  /** The character a case-insensitive regular expression compares: the simple lower-case
      mapping, with the four extra letters Python's `re.IGNORECASE` equates with ASCII ones
      (Kelvin sign, long s, dotted and dotless i). */
  function FoldChar(c: char): char {
    if c == 'ſ' then 's'
    else if c == 'İ' || c == 'ı' then 'i'
    else LowerChar(c)
  }

  function Fold(s: string): (r: string)
    ensures |r| == |s| && forall i :: 0 <= i < |s| ==> r[i] == FoldChar(s[i])
  {
    seq(|s|, i requires 0 <= i < |s| => FoldChar(s[i]))
  }

  /** `re.search(kw, s, re.IGNORECASE)` for a keyword made of lower-case letters. */
  predicate SearchIgnoreCase(s: string, kw: string) {
    Contains(Fold(s), kw)
  }

  /** A regular-expression alternation of keywords searched with IGNORECASE: one of them
      occurs somewhere, ignoring case. */
  function MatchesAny(s: string, keywords: seq<string>): (b: bool)
    ensures b <==> exists i :: 0 <= i < |keywords| && SearchIgnoreCase(s, keywords[i])
  {
    if |keywords| == 0 then false
    else SearchIgnoreCase(s, keywords[0]) || MatchesAny(s, keywords[1..])
  }

  // ----- decimal numbers ----------------------------------------------------------------

  predicate IsDigit(c: char) {
    '0' <= c <= '9'
  }

  predicate AllDigits(s: string) {
    forall i :: 0 <= i < |s| ==> IsDigit(s[i])
  }

  function DecimalDigits(n: nat): (r: string)
    ensures |r| > 0 && AllDigits(r)
  {
    if n < 10 then ["0123456789"[n]] else DecimalDigits(n / 10) + ["0123456789"[n % 10]]
  }

  /** Python `str(i)` for an integer. */
  function IntToString(i: int): (r: string)
    ensures |r| > 0
  {
    if i < 0 then "-" + DecimalDigits(-i) else DecimalDigits(i)
  }

  function ParseDigits(s: string): nat
    requires AllDigits(s)
  {
    if s == [] then 0 else ParseDigits(s[..|s| - 1]) * 10 + (s[|s| - 1] as int - '0' as int)
  }

  /** Python `int(s)` for an optional minus sign followed by decimal digits. */
  function ParseInt(s: string): Option<int> {
    if |s| > 1 && s[0] == '-' && AllDigits(s[1..]) then
      var magnitude: int := ParseDigits(s[1..]);
      Some(-magnitude)
    else if |s| > 0 && AllDigits(s) then Some(ParseDigits(s))
    else None
  }

  lemma {:induction false} ParseDecimalDigits(n: nat)
    ensures ParseDigits(DecimalDigits(n)) == n
  {
    if n >= 10 {
      var d := DecimalDigits(n / 10);
      var s := d + ["0123456789"[n % 10]];
      assert s[..|s| - 1] == d;
      ParseDecimalDigits(n / 10);
    }
  }

  /** A minus sign followed by the digits of `-i` reads as `i`. */
  lemma ParseNegative(i: int, d: string)
    requires i < 0 && |d| > 0 && AllDigits(d) && ParseDigits(d) == -i
    ensures ParseInt("-" + d) == Some(i)
  {
    var s := "-" + d;
    assert s[1..] == d;
  }

  /** The digits of a natural number read as that number. */
  lemma ParseNonNegative(i: int, d: string)
    requires 0 <= i && |d| > 0 && AllDigits(d) && ParseDigits(d) == i
    ensures ParseInt(d) == Some(i)
  {
    assert IsDigit(d[0]);
  }

  /** `int(str(i)) == i`: the decimal rendering of an integer reads back as that integer. */
  lemma ParseIntToString(i: int)
    ensures ParseInt(IntToString(i)) == Some(i)
  {
    if i < 0 {
      ParseDecimalDigits(-i);
      ParseNegative(i, DecimalDigits(-i));
    } else {
      ParseDecimalDigits(i);
      ParseNonNegative(i, DecimalDigits(i));
    }
  }
}
