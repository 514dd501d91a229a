/** The Python string built-ins the bot relies on, each with the behaviour CPython gives it:
    str.strip(), str.lower(), `in`, str.find/rfind, str.split(sep), str.join, str.replace(pat, ""),
    str.startswith/endswith, str(int) and int(str). */
module Strings {
  import opened Wrappers

  /** str.isspace() for one character. */
  predicate IsSpace(c: char) {
    || c == ' ' || ('\t' <= c <= '\r') || ('\U{1c}' <= c <= '\U{1f}')
    || c == '\U{85}' || c == '\U{a0}' || c == '\U{1680}'
    || ('\U{2000}' <= c <= '\U{200a}') || c == '\U{2028}' || c == '\U{2029}'
    || c == '\U{202f}' || c == '\U{205f}' || c == '\U{3000}'
  }

  /** The index of the first non-white-space character at or after `i`, or |s|. */
  function SkipSpace(s: string, i: nat): (k: nat)
    requires i <= |s|
    ensures i <= k <= |s|
    ensures forall j :: i <= j < k ==> IsSpace(s[j])
    ensures k == |s| || !IsSpace(s[k])
    decreases |s| - i
  {
    if i < |s| && IsSpace(s[i]) then SkipSpace(s, i + 1) else i
  }

  /** The index just after the last non-white-space character in s[lo..j], or `lo`. */
  function SkipSpaceBack(s: string, lo: nat, j: nat): (k: nat)
    requires lo <= j <= |s|
    ensures lo <= k <= j
    ensures forall x :: k <= x < j ==> IsSpace(s[x])
    ensures k == lo || !IsSpace(s[k - 1])
    decreases j - lo
  {
    if lo < j && IsSpace(s[j - 1]) then SkipSpaceBack(s, lo, j - 1) else j
  }

  /** str.strip() with no argument: what lies between the leading and the trailing
      white space. */
  function Strip(s: string): string
  {
    var a := SkipSpace(s, 0);
    s[a..SkipSpaceBack(s, a, |s|)]
  }

  /** A non-empty sequence is its front followed by its last element. */
  lemma InitLast<T>(s: seq<T>)
    requires s != []
    ensures s[..|s| - 1] + [s[|s| - 1]] == s
  {
  }

  /** A non-empty sequence is its first element followed by the rest. */
  lemma HeadTail<T>(s: seq<T>)
    requires s != []
    ensures [s[0]] + s[1..] == s
  {
  }

  /** The outer parts of a three-part concatenation are its slices. */
  lemma ConcatParts<T>(a: seq<T>, m: seq<T>, b: seq<T>)
    ensures (a + m + b)[..|a|] == a
    ensures (a + m + b)[|a|..|a| + |m|] == m
    ensures (a + m + b)[|a| + |m|..] == b
  {
  }

  /** What Strip leaves is a slice of its input with no white space at either end,
      and only white space was cut away. */
  lemma StripIsTrimmedSlice(s: string)
    ensures var r := Strip(s); var a := SkipSpace(s, 0);
      && a + |r| <= |s| && r == s[a..a + |r|]
      && (forall i :: 0 <= i < a ==> IsSpace(s[i]))
      && (forall i :: a + |r| <= i < |s| ==> IsSpace(s[i]))
      && (r == [] || (!IsSpace(r[0]) && !IsSpace(r[|r| - 1])))
  {
    var a := SkipSpace(s, 0);
    var b := SkipSpaceBack(s, a, |s|);
    var r := s[a..b];
    if r != [] {
      assert r[0] == s[a];
      assert r[|r| - 1] == s[b - 1];
    }
  }

  /** A string with no white space at either end is its own strip. */
  lemma StripUntrimmed(s: string)
    requires s == [] || (!IsSpace(s[0]) && !IsSpace(s[|s| - 1]))
    ensures Strip(s) == s
  {
    assert SkipSpace(s, 0) == 0;
    assert SkipSpaceBack(s, 0, |s|) == |s|;
  }

  /** Stripping twice is stripping once. */
  lemma StripIdempotent(s: string)
    ensures Strip(Strip(s)) == Strip(s)
  {
    StripIsTrimmedSlice(s);
    StripUntrimmed(Strip(s));
  }

  /** str.lower() on one character: ASCII letters and the Cyrillic capitals of Russian
      (U+0400..U+042F); other scripts are left as they are. */
  function LowerChar(c: char): (d: char)
  {
    if 'A' <= c <= 'Z' then (c as int + 32) as char
    else if '\U{410}' <= c <= '\U{42f}' then (c as int + 0x20) as char
    else if '\U{400}' <= c <= '\U{40f}' then (c as int + 0x50) as char
    else c
  }

  predicate IsUpper(c: char) {
    'A' <= c <= 'Z' || '\U{400}' <= c <= '\U{42f}'
  }

  /** str.lower() */
  function Lower(s: string): (r: string)
    ensures |r| == |s|
    ensures forall i :: 0 <= i < |s| ==> r[i] == LowerChar(s[i])
  {
    if s == [] then [] else [LowerChar(s[0])] + Lower(s[1..])
  }

  /** A lower-cased string holds no capital and lower-casing it again changes nothing. */
  lemma LowerIsLower(s: string)
    ensures forall i :: 0 <= i < |Lower(s)| ==> !IsUpper(Lower(s)[i])
    ensures Lower(Lower(s)) == Lower(s)
  {
  }

  /** A word that stripping and lower-casing leave as it is, and that is not empty. */
  predicate CleanWord(s: string) {
    s != "" && Strip(s) == s && Lower(s) == s
  }

  /** `pat` occurs in `s` at position `i`. */
  predicate OccursAt(s: string, pat: string, i: int) {
    0 <= i && i + |pat| <= |s| && s[i..i + |pat|] == pat
  }

  /** str.find(pat) as an Option: the first position where `pat` occurs. */
  function IndexOf(s: string, pat: string): (r: Option<nat>)
    ensures r.Some? ==> OccursAt(s, pat, r.value)
    ensures r.Some? ==> forall j :: 0 <= j < r.value ==> !OccursAt(s, pat, j)
    ensures r.None? ==> forall j :: !OccursAt(s, pat, j)
  {
    IndexFrom(s, pat, 0)
  }

  /** The first occurrence of `pat` at or after position `i`. */
  function IndexFrom(s: string, pat: string, i: nat): (r: Option<nat>)
    ensures r.Some? ==> i <= r.value && OccursAt(s, pat, r.value)
    ensures r.Some? ==> forall j :: i <= j < r.value ==> !OccursAt(s, pat, j)
    ensures r.None? ==> forall j :: i <= j ==> !OccursAt(s, pat, j)
    decreases |s| - i
  {
    if i + |pat| > |s| then None
    else if OccursAt(s, pat, i) then Some(i)
    else IndexFrom(s, pat, i + 1)
  }

  /** `pat in s` */
  predicate Contains(s: string, pat: string) {
    IndexOf(s, pat).Some?
  }

  /** str.split(sep) with a non-empty separator. */
  function Split(s: string, sep: string): (parts: seq<string>)
    requires |sep| > 0
    ensures |parts| >= 1
    decreases |s|
  {
    match IndexOf(s, sep)
    case None => [s]
    case Some(i) => [s[..i]] + Split(s[i + |sep|..], sep)
  }

  /** sep.join(parts) */
  function Join(parts: seq<string>, sep: string): string {
    if parts == [] then []
    else if |parts| == 1 then parts[0]
    else parts[0] + sep + Join(parts[1..], sep)
  }

  /** Joining the pieces of a split with the separator gives back the string, and no piece
      holds the separator. */
  lemma {:induction false} SplitJoin(s: string, sep: string)
    requires |sep| > 0
    ensures Join(Split(s, sep), sep) == s
    ensures forall k :: 0 <= k < |Split(s, sep)| ==> !Contains(Split(s, sep)[k], sep)
    decreases |s|
  {
    match IndexOf(s, sep)
    case None =>
    case Some(i) =>
      var rest := s[i + |sep|..];
      var parts := Split(rest, sep);
      SplitJoin(rest, sep);
      assert Split(s, sep) == [s[..i]] + parts;
      assert ([s[..i]] + parts)[1..] == parts;
      assert Join(Split(s, sep), sep) == s[..i] + sep + Join(parts, sep);
      assert s == s[..i] + sep + rest;
      NoEarlierOccurrence(s, sep, i);
      forall k | 0 <= k < |Split(s, sep)| ensures !Contains(Split(s, sep)[k], sep) {
        if k > 0 {
          assert Split(s, sep)[k] == parts[k - 1];
        }
      }
  }

  /** The text before the first occurrence of `sep` does not contain `sep`. */
  lemma NoEarlierOccurrence(s: string, sep: string, i: nat)
    requires |sep| > 0 && OccursAt(s, sep, i)
    requires forall j :: 0 <= j < i ==> !OccursAt(s, sep, j)
    ensures !Contains(s[..i], sep)
  {
    forall j | 0 <= j ensures !OccursAt(s[..i], sep, j) {
      if j + |sep| <= i {
        assert s[..i][j..j + |sep|] == s[j..j + |sep|];
        assert !OccursAt(s, sep, j);
      }
    }
  }

  /** The first piece of a split is the text before the first separator, or all of it. */
  lemma SplitFirst(s: string, sep: string)
    requires |sep| > 0
    ensures Split(s, sep)[0] == if Contains(s, sep) then s[..IndexOf(s, sep).value] else s
  {
  }

  /** When `sep` occurs, the split has a second piece: the text after the first
      occurrence, up to the next one. */
  lemma SplitAtFirst(s: string, sep: string)
    requires |sep| > 0 && Contains(s, sep)
    ensures |Split(s, sep)| >= 2
    ensures Split(s, sep)[0] == s[..IndexOf(s, sep).value]
    ensures Split(s, sep)[1] == Split(s[IndexOf(s, sep).value + |sep|..], sep)[0]
  {
  }

  /** Splitting what was joined with a one-character separator gives back the pieces,
      when no piece holds that character. */
  lemma {:induction false} SplitOfJoin(parts: seq<string>, c: char)
    requires |parts| >= 1
    requires forall k, j :: 0 <= k < |parts| && 0 <= j < |parts[k]| ==> parts[k][j] != c
    ensures Split(Join(parts, [c]), [c]) == parts
    decreases |parts|
  {
    var sep := [c];
    if |parts| == 1 {
      AvoidsFirstChar(parts[0], sep);
      assert Join(parts, sep) == parts[0];
    } else {
      var a := parts[0];
      var rest := Join(parts[1..], sep);
      var s := a + sep + rest;
      assert Join(parts, sep) == s;
      assert OccursAt(s, sep, |a|) by { assert s[|a|..|a| + 1] == sep; }
      forall j | 0 <= j < |a| ensures !OccursAt(s, sep, j) {
        assert s[j] == a[j];
      }
      assert IndexOf(s, sep) == Some(|a|);
      ConcatParts(a, sep, rest);
      SplitOfJoin(parts[1..], c);
      HeadTail(parts);
    }
  }

  /** A string that does not contain a one-character pattern has no such character. */
  lemma NoCharOccurs(s: string, c: char)
    requires !Contains(s, [c])
    ensures forall j :: 0 <= j < |s| ==> s[j] != c
  {
    forall j | 0 <= j < |s| ensures s[j] != c {
      assert s[j..j + 1] == [s[j]];
      assert !OccursAt(s, [c], j);
    }
  }

  /** str.split(sep)[-1]: the text after the last separator. */
  function LastPart(s: string, sep: string): string
    requires |sep| > 0
  {
    var parts := Split(s, sep);
    parts[|parts| - 1]
  }

  /** When `s` ends with a one-character separator followed by a tail without it, the last
      piece is that tail: `f"save_recipe_{i}".split("_")[-1]` gives back `str(i)`. */
  lemma {:induction false} LastPartOfSuffix(p: string, sep: string, tail: string)
    requires |sep| == 1 && !Contains(tail, sep)
    ensures LastPart(p + sep + tail, sep) == tail
    decreases |p|
  {
    var s := p + sep + tail;
    assert OccursAt(s, sep, |p|) by { assert s[|p|..|p| + |sep|] == sep; }
    var i := IndexOf(s, sep).value;
    var rest := s[i + 1..];
    if i < |p| {
      assert rest == p[i + 1..] + sep + tail;
      LastPartOfSuffix(p[i + 1..], sep, tail);
    } else {
      assert rest == tail;
      assert Split(s, sep) == [s[..i]] + Split(tail, sep);
      assert Split(tail, sep) == [tail];
    }
  }

  /** str.replace(pat, ""): every non-overlapping occurrence of `pat`, scanning from the left, removed. */
  function RemoveAll(s: string, pat: string): (r: string)
    requires |pat| > 0
    ensures |r| <= |s|
    decreases |s|
  {
    if |s| < |pat| then s
    else if s[..|pat|] == pat then RemoveAll(s[|pat|..], pat)
    else [s[0]] + RemoveAll(s[1..], pat)
  }

  /** A string without `pat` is left alone by RemoveAll. */
  lemma {:induction false} RemoveAllAbsent(s: string, pat: string)
    requires |pat| > 0 && !Contains(s, pat)
    ensures RemoveAll(s, pat) == s
    decreases |s|
  {
    if |s| >= |pat| {
      assert !OccursAt(s, pat, 0);
      forall j | 0 <= j ensures !OccursAt(s[1..], pat, j) {
        if j + |pat| <= |s| - 1 {
          assert s[1..][j..j + |pat|] == s[j + 1..j + 1 + |pat|];
          assert !OccursAt(s, pat, j + 1);
        }
      }
      RemoveAllAbsent(s[1..], pat);
    }
  }

  /** Removing the prefix that an encoder put in front of a value gives back the value,
      provided the value does not itself contain the prefix. */
  lemma RemovePrefix(pat: string, v: string)
    requires |pat| > 0 && !Contains(v, pat)
    ensures RemoveAll(pat + v, pat) == v
  {
    assert (pat + v)[..|pat|] == pat;
    assert (pat + v)[|pat|..] == v;
    RemoveAllAbsent(v, pat);
  }

  predicate StartsWith(s: string, p: string) {
    |p| <= |s| && s[..|p|] == p
  }

  predicate EndsWith(s: string, p: string) {
    |p| <= |s| && s[|s| - |p|..] == p
  }

  /** s.rfind(c, 0, end) for one character and a non-negative `end`: the last index
      below `end` holding `c`, or -1. A negative `end`, which Python counts back from
      the end of `s`, gives -1 here; every caller passes a non-negative one. */
  function RFind(s: string, c: char, end: int): (r: int)
    ensures -1 <= r < |s| && (r == -1 || r < end)
    ensures r >= 0 ==> s[r] == c
    ensures forall j :: r < j < |s| && j < end ==> s[j] != c
    decreases if end < |s| then end else |s|
  {
    var hi := if end < |s| then end else |s|;
    if hi <= 0 then -1
    else if s[hi - 1] == c then hi - 1
    else RFind(s, c, hi - 1)
  }

  // ---- integers ----

  predicate IsDigit(c: char) { '0' <= c <= '9' }

  function DigitChar(d: nat): (c: char)
    requires d < 10
    ensures IsDigit(c)
  {
    ('0' as int + d) as char
  }

  /** str(n) for n >= 0. */
  function NatToString(n: nat): (s: string)
    ensures |s| >= 1
    ensures forall i :: 0 <= i < |s| ==> IsDigit(s[i])
  {
    if n < 10 then [DigitChar(n)] else NatToString(n / 10) + [DigitChar(n % 10)]
  }

  /** str(n) */
  function IntToString(n: int): (s: string)
    ensures |s| >= 1
    ensures forall i :: 0 <= i < |s| ==> IsDigit(s[i]) || (i == 0 && s[i] == '-')
  {
    if n < 0 then "-" + NatToString(-n) else NatToString(n)
  }

  /** The value of a run of decimal digits. */
  function DigitsValue(ds: string): nat
    requires forall i :: 0 <= i < |ds| ==> IsDigit(ds[i])
  {
    if ds == [] then 0
    else
      assert IsDigit(ds[|ds| - 1]);
      DigitsValue(ds[..|ds| - 1]) * 10 + (ds[|ds| - 1] as int - '0' as int)
  }

  predicate AllDigits(ds: string) {
    |ds| > 0 && forall i :: 0 <= i < |ds| ==> IsDigit(ds[i])
  }

  /** int(s) for a base-10 string: surrounding white space is ignored, then an optional
      sign and at least one digit; anything else raises ValueError. */
  function ParseInt(s: string): (r: Option<int>)
  {
    ParseStripped(Strip(s))
  }

  /** int() after the white space is gone. */
  function ParseStripped(t: string): Option<int>
  {
    if t == [] then None
    else if t[0] == '-' || t[0] == '+' then
      (if AllDigits(t[1..]) then
         var v: int := DigitsValue(t[1..]);
         Some(if t[0] == '-' then -v else v)
       else None)
    else if AllDigits(t) then Some(DigitsValue(t))
    else None
  }

  lemma {:induction false} NatToStringValue(n: nat)
    ensures DigitsValue(NatToString(n)) == n
  {
    if n >= 10 {
      NatToStringValue(n / 10);
      var s := NatToString(n);
      assert s[..|s| - 1] == NatToString(n / 10);
    }
  }

  lemma DigitsNotSpace(s: string)
    requires forall i :: 0 <= i < |s| ==> IsDigit(s[i]) || (i == 0 && s[i] == '-')
    ensures Strip(s) == s
  {
    if s != [] {
      assert !IsSpace(s[0]) && !IsSpace(s[|s| - 1]);
    }
    StripUntrimmed(s);
  }

  lemma ParseDigits(d: string)
    requires AllDigits(d)
    ensures var v: int := DigitsValue(d); ParseInt(d) == Some(v) && ParseInt("-" + d) == Some(-v)
  {
    DigitsNotSpace(d);
    ParseUnsigned(d);
    NegDigitsNotSpace(d);
    ParseNegative(d);
  }

  lemma ParseUnsigned(d: string)
    requires AllDigits(d)
    ensures ParseStripped(d) == Some(DigitsValue(d))
  {
    assert IsDigit(d[0]);
  }

  lemma ParseNegative(d: string)
    requires AllDigits(d)
    ensures var v: int := DigitsValue(d); ParseStripped("-" + d) == Some(-v)
  {
    var m := "-" + d;
    assert m[0] == '-';
    assert m[1..] == d;
  }

  lemma NegDigitsNotSpace(d: string)
    requires AllDigits(d)
    ensures Strip("-" + d) == "-" + d
  {
    var m := "-" + d;
    forall i | 0 <= i < |m| ensures IsDigit(m[i]) || (i == 0 && m[i] == '-') {
      if i > 0 { assert m[i] == d[i - 1]; }
    }
    DigitsNotSpace(m);
  }

  /** int(str(n)) == n */
  lemma ParseIntToString(n: int)
    ensures ParseInt(IntToString(n)) == Some(n)
  {
    var d := NatToString(if n < 0 then -n else n);
    assert AllDigits(d);
    ParseDigits(d);
    NatToStringValue(if n < 0 then -n else n);
    assert IntToString(n) == if n < 0 then "-" + d else d;
  }

  /** int(str(n).strip()) == n */
  lemma ParseStrippedIntToString(n: int)
    ensures ParseInt(Strip(IntToString(n))) == Some(n)
  {
    var s := IntToString(n);
    var t := Strip(s);
    DigitsNotSpace(s);
    assert t == s;
    ParseIntToString(n);
    assert ParseInt(t) == ParseInt(s);
  }

  /** A string none of whose characters starts `pat` does not contain it. */
  lemma AvoidsFirstChar(s: string, pat: string)
    requires |pat| > 0 && forall i :: 0 <= i < |s| ==> s[i] != pat[0]
    ensures !Contains(s, pat)
  {
    forall i | 0 <= i ensures !OccursAt(s, pat, i) {
      if i + |pat| <= |s| {
        assert s[i..i + |pat|][0] == s[i];
      }
    }
  }

  /** str(n) has no occurrence of a separator that is not made of digits and '-'. */
  lemma IntToStringAvoids(n: int, sep: string)
    requires |sep| > 0 && !IsDigit(sep[0]) && sep[0] != '-'
    ensures !Contains(IntToString(n), sep)
  {
    AvoidsFirstChar(IntToString(n), sep);
  }
}
