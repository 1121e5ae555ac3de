/**
 * String helpers shared by the model. Each one mirrors the Python built-in the
 * bot relies on (truthiness of optional strings, `str.strip`, `str.split`,
 * `str.lower`, `str.join`, `int()` / `str()` on integers, `str.replace`).
 */
module Text {

  datatype Option<T> = None | Some(value: T)

  /** Python's `str()` of an optional string, as an f-string prints it: the text itself, or "None". */
  function PyStr(o: Option<string>): string {
    if o.Some? then o.value else "None"
  }

  /** Python truthiness of an optional string: present and non-empty. */
  predicate Truthy(o: Option<string>) {
    o.Some? && o.value != ""
  }

  /** The value of `a or b` for optional strings. */
  function Or(a: Option<string>, b: Option<string>): (r: Option<string>)
    ensures Truthy(a) ==> r == a
    ensures !Truthy(a) ==> r == b
  {
    if Truthy(a) then a else b
  }

  /** The characters Python's `str.isspace` accepts (used by `strip` and `split`). */
  predicate IsSpace(c: char) {
    || ('\U{9}' <= c <= '\U{D}')
    || ('\U{1C}' <= c <= '\U{20}')
    || c == '\U{85}' || c == '\U{A0}' || c == '\U{1680}'
    || ('\U{2000}' <= c <= '\U{200A}')
    || c == '\U{2028}' || c == '\U{2029}' || c == '\U{202F}'
    || c == '\U{205F}' || c == '\U{3000}'
  }

  predicate NoSpace(s: string) {
    forall i :: 0 <= i < |s| ==> !IsSpace(s[i])
  }

  /** `s.lstrip()` */
  function LStrip(s: string): (r: string)
    ensures |r| <= |s| && r == s[|s| - |r|..]
    ensures r != [] ==> !IsSpace(r[0])
  {
    if s != [] && IsSpace(s[0]) then LStrip(s[1..]) else s
  }

  /** `s.rstrip()` */
  function RStrip(s: string): (r: string)
    ensures |r| <= |s| && r == s[..|r|]
    ensures r != [] ==> !IsSpace(r[|r| - 1])
  {
    if s != [] && IsSpace(s[|s| - 1]) then RStrip(s[..|s| - 1]) else s
  }

  /** `s.strip()` */
  function Strip(s: string): (r: string)
    ensures r != [] ==> !IsSpace(r[0]) && !IsSpace(r[|r| - 1])
    ensures |r| <= |s|
  {
    RStrip(LStrip(s))
  }

  /** Length of the leading run of non-space characters. */
  function TokenLen(s: string): (n: nat)
    ensures n <= |s|
  {
    if s == [] || IsSpace(s[0]) then 0 else 1 + TokenLen(s[1..])
  }

  /** `s.split()` with no separator: the maximal runs of non-space characters. */
  function Words(s: string): seq<string>
    decreases |s|
  {
    var t := LStrip(s);
    if t == [] then []
    else
      var n := TokenLen(t);
      [t[..n]] + Words(t[n..])
  }

  /** Lower-casing of one character: ASCII and the basic Cyrillic alphabet. */
  function LowerChar(c: char): char {
    if 'A' <= c <= 'Z' then (c as int + 32) as char
    else if '\U{410}' <= c <= '\U{42F}' then (c as int + 32) as char
    else if '\U{400}' <= c <= '\U{40F}' then (c as int + 80) as char
    else c
  }

  /** `s.lower()` */
  function Lower(s: string): (r: string)
    ensures |r| == |s|
  {
    if s == [] then [] else [LowerChar(s[0])] + Lower(s[1..])
  }

  /** `sep.join(parts)` */
  function Join(sep: string, parts: seq<string>): string
  {
    if parts == [] then ""
    else if |parts| == 1 then parts[0]
    else parts[0] + sep + Join(sep, parts[1..])
  }

  /** A join begins with the first part. */
  lemma {:induction false} JoinStartsWithFirst(sep: string, parts: seq<string>)
    requires parts != []
    ensures StartsWith(Join(sep, parts), parts[0])
  {
    if |parts| > 1 {
      assert Join(sep, parts) == parts[0] + (sep + Join(sep, parts[1..]));
    }
  }

  /** Index of the first occurrence of `c` in `s`. */
  function IndexOf(s: string, c: char): (r: Option<nat>)
    ensures r.Some? ==> r.value < |s| && s[r.value] == c
  {
    if s == [] then None
    else if s[0] == c then Some(0)
    else match IndexOf(s[1..], c)
      case None => None
      case Some(i) => Some(i + 1)
  }

  /** `s.split(c)` for a one-character separator. */
  function SplitOn(s: string, c: char): (parts: seq<string>)
    ensures |parts| >= 1
    decreases |s|
  {
    match IndexOf(s, c)
    case None => [s]
    case Some(i) => [s[..i]] + SplitOn(s[i + 1..], c)
  }

  /** Splitting on a character and joining back with it gives the original text. */
  lemma {:induction false} JoinSplitOn(s: string, c: char)
    ensures Join([c], SplitOn(s, c)) == s
    decreases |s|
  {
    match IndexOf(s, c)
    case None =>
    case Some(i) =>
      var rest := SplitOn(s[i + 1..], c);
      JoinSplitOn(s[i + 1..], c);
      assert SplitOn(s, c) == [s[..i]] + rest;
      assert s == s[..i] + [c] + s[i + 1..];
  }

  function DigitChar(d: nat): (c: char)
    requires d < 10
    ensures '0' <= c <= '9' && c as int - '0' as int == d
  {
    (d + '0' as int) as char
  }

  predicate IsDigit(c: char) {
    '0' <= c <= '9'
  }

  predicate AllDigits(s: string) {
    forall i :: 0 <= i < |s| ==> IsDigit(s[i])
  }

  /** `str(n)` for a natural number. */
  function NatToString(n: nat): (s: string)
    ensures s != [] && AllDigits(s)
  {
    if n < 10 then [DigitChar(n)] else NatToString(n / 10) + [DigitChar(n % 10)]
  }

  /** `str(i)` for an integer. */
  function IntToString(i: int): (s: string)
    ensures s != [] && (s[0] == '-' || IsDigit(s[0]))
  {
    if i < 0 then "-" + NatToString(-i) else NatToString(i)
  }

  /** The value of a string of decimal digits (leading zeros allowed). */
  function DigitsValue(s: string): nat
    requires AllDigits(s)
  {
    if s == [] then 0
    else DigitsValue(s[..|s| - 1]) * 10 + (s[|s| - 1] as int - '0' as int)
  }

  /**
   * `int(s)` on a string without surrounding whitespace: an optional sign followed
   * by at least one decimal digit; anything else is Python's ValueError (None).
   */
  function ParseInt(s: string): (r: Option<int>)
    ensures r.Some? ==> s != []
    ensures AllDigits(s) && s != [] ==> r == Some(DigitsValue(s))
  {
    if s == [] then None
    else if s[0] == '-' || s[0] == '+' then
      var body := s[1..];
      if body != [] && AllDigits(body) then
        var v: int := DigitsValue(body);
        Some(if s[0] == '-' then -v else v)
      else None
    else if AllDigits(s) then Some(DigitsValue(s))
    else None
  }

  lemma {:induction false} NatToStringValue(n: nat)
    ensures DigitsValue(NatToString(n)) == n
  {
    if n >= 10 {
      NatToStringValue(n / 10);
      var s := NatToString(n);
      assert s[..|s| - 1] == NatToString(n / 10);
    }
  }

  /** `int(str(i)) == i` */
  lemma ParseIntToString(i: int)
    ensures ParseInt(IntToString(i)) == Some(i)
  {
    if i < 0 {
      NatToStringValue(-i);
      assert IntToString(i)[1..] == NatToString(-i);
    } else {
      NatToStringValue(i);
    }
  }

  /** `s.replace(c, "")` for one character. */
  function RemoveChar(s: string, c: char): (r: string)
    ensures c !in r
    ensures |r| <= |s|
    ensures c !in s ==> r == s
  {
    if s == [] then [] else (if s[0] == c then [] else [s[0]]) + RemoveChar(s[1..], c)
  }

  predicate StartsWith(s: string, prefix: string) {
    |prefix| <= |s| && s[..|prefix|] == prefix
  }

  /** `s.replace(pat, rep)` for a non-empty pattern. */
  function ReplaceAll(s: string, pat: string, rep: string): (r: string)
    requires pat != []
    decreases |s|
  {
    if |s| < |pat| then s
    else if s[..|pat|] == pat then rep + ReplaceAll(s[|pat|..], pat, rep)
    else [s[0]] + ReplaceAll(s[1..], pat, rep)
  }

  /** Python `s[:k]` for any integer `k` (a negative `k` counts from the end). */
  function PyPrefix(s: string, k: int): (r: string)
    ensures |r| <= |s| && r == s[..|r|]
    ensures k >= 0 ==> |r| == if k <= |s| then k else |s|
  {
    if k >= 0 then (if k <= |s| then s[..k] else s)
    else if |s| + k >= 0 then s[..|s| + k] else []
  }

  predicate AllSpace(w: string) {
    forall i :: 0 <= i < |w| ==> IsSpace(w[i])
  }

  /** Whitespace padding around a word-bounded core is exactly what `strip` removes. */
  lemma {:induction false} StripPadded(pad1: string, core: string, pad2: string)
    requires AllSpace(pad1) && AllSpace(pad2)
    requires core != [] && !IsSpace(core[0]) && !IsSpace(core[|core| - 1])
    ensures Strip(pad1 + core + pad2) == core
  {
    LStripSpaces(pad1, core + pad2);
    assert pad1 + core + pad2 == pad1 + (core + pad2);
    RStripSpaces(core, pad2);
  }

  /** A non-empty run of digits is its own strip. */
  lemma DigitsStripped(d: string)
    requires d != [] && AllDigits(d)
    ensures Strip(d) == d
  {
    StripPadded([], d, []);
    assert [] + d + [] == d;
  }

  lemma {:induction false} LStripSpaces(pad: string, s: string)
    requires AllSpace(pad) && s != [] && !IsSpace(s[0])
    ensures LStrip(pad + s) == s
    decreases |pad|
  {
    var t := pad + s;
    if pad != [] {
      assert t[0] == pad[0] && IsSpace(t[0]);
      assert t[1..] == pad[1..] + s;
      LStripSpaces(pad[1..], s);
      assert LStrip(t) == LStrip(t[1..]);
    } else {
      assert t == s;
      assert LStrip(s) == s;
    }
  }

  lemma {:induction false} RStripSpaces(s: string, pad: string)
    requires AllSpace(pad) && s != [] && !IsSpace(s[|s| - 1])
    ensures RStrip(s + pad) == s
    decreases |pad|
  {
    if pad != [] {
      assert (s + pad)[..|s + pad| - 1] == s + pad[..|pad| - 1];
      RStripSpaces(s, pad[..|pad| - 1]);
    } else {
      assert s + pad == s;
    }
  }

  /** `(a + " " + b).split() == [a, b]` for two words. */
  lemma WordsOfTwo(a: string, b: string)
    requires a != [] && b != [] && NoSpace(a) && NoSpace(b)
    ensures Words(a + " " + b) == [a, b]
  {
    AppendAssoc(a, " ", b);
    WordsBeforeSpacedWord(a, b);
  }

  lemma WordsBeforeSpacedWord(a: string, b: string)
    requires a != [] && b != [] && NoSpace(a) && NoSpace(b)
    ensures Words(a + (" " + b)) == [a, b]
  {
    WordsOfSpacedWord(b);
    WordsCons(a, " " + b);
  }

  lemma WordsOfSpacedWord(b: string)
    requires b != [] && NoSpace(b)
    ensures Words(" " + b) == [b]
  {
    var sb := " " + b;
    WordsLeadingSpace(sb);
    assert sb[1..] == b;
    WordsCons(b, []);
    assert b + [] == b;
  }

  /** A word followed by a space (or by nothing) is the first item of the split. */
  lemma WordsCons(w: string, rest: string)
    requires w != [] && NoSpace(w) && (rest == [] || IsSpace(rest[0]))
    ensures Words(w + rest) == [w] + Words(rest)
  {
    var s := w + rest;
    assert s[0] == w[0];
    assert LStrip(s) == s;
    TokenLenOfWord(w, rest);
    assert s[..|w|] == w;
    assert s[|w|..] == rest;
  }

  /** Leading whitespace does not change the split. */
  lemma WordsLeadingSpace(s: string)
    requires s != [] && IsSpace(s[0])
    ensures Words(s) == Words(s[1..])
  {
    assert LStrip(s) == LStrip(s[1..]);
  }

  lemma {:induction false} TokenLenOfWord(w: string, rest: string)
    requires NoSpace(w) && (rest == [] || IsSpace(rest[0]))
    ensures TokenLen(w + rest) == |w|
    decreases |w|
  {
    if w != [] {
      assert (w + rest)[1..] == w[1..] + rest;
      TokenLenOfWord(w[1..], rest);
    } else {
      assert w + rest == rest;
    }
  }

  /** `lower()` leaves a string alone when each of its characters is already lower case. */
  lemma {:induction false} LowerFixed(s: string)
    requires forall i :: 0 <= i < |s| ==> LowerChar(s[i]) == s[i]
    ensures Lower(s) == s
    decreases |s|
  {
    if s != [] {
      assert LowerChar(s[0]) == s[0];
      LowerFixed(s[1..]);
      assert s == [s[0]] + s[1..];
    }
  }

  lemma {:induction false} RemoveCharAppend(a: string, b: string, c: char)
    ensures RemoveChar(a + b, c) == RemoveChar(a, c) + RemoveChar(b, c)
    decreases |a|
  {
    if a != [] {
      assert (a + b)[0] == a[0] && (a + b)[1..] == a[1..] + b;
      RemoveCharAppend(a[1..], b, c);
      var h := if a[0] == c then [] else [a[0]];
      assert RemoveChar(a + b, c) == h + RemoveChar(a[1..] + b, c);
      assert RemoveChar(a, c) == h + RemoveChar(a[1..], c);
    } else {
      assert a + b == b;
    }
  }

  /** Concatenation regroups; stated once so long concatenations need not be compared index by index. */
  lemma AppendAssoc(a: string, b: string, c: string)
    ensures a + b + c == a + (b + c)
  {
  }
  /** The first occurrence of `c` in `a + [c] + b`, when `a` has none, is right after `a`. */
  lemma {:induction false} IndexOfSeparated(a: string, c: char, b: string)
    requires c !in a
    ensures IndexOf(a + [c] + b, c) == Some(|a|)
  {
    if a != [] {
      IndexOfSeparated(a[1..], c, b);
      assert (a + [c] + b)[1..] == a[1..] + [c] + b;
    }
  }

  lemma {:induction false} IndexOfAbsent(a: string, c: char)
    requires c !in a
    ensures IndexOf(a, c) == None
  {
    if a != [] {
      IndexOfAbsent(a[1..], c);
    }
  }

  /** Splitting on `c` peels off a leading field that does not contain `c`. */
  lemma SplitOnSeparated(a: string, c: char, b: string)
    requires c !in a
    ensures SplitOn(a + [c] + b, c) == [a] + SplitOn(b, c)
  {
    IndexOfSeparated(a, c, b);
    var s := a + [c] + b;
    assert s[..|a|] == a && s[|a| + 1..] == b;
  }

  /** A text without `c` splits into itself. */
  lemma SplitOnAbsent(a: string, c: char)
    requires c !in a
    ensures SplitOn(a, c) == [a]
  {
    IndexOfAbsent(a, c);
  }

  /** `str(i)` holds only digits and a leading minus sign. */
  lemma IntToStringChars(i: int, c: char)
    requires !IsDigit(c) && c != '-'
    ensures c !in IntToString(i)
  {
  }
  /** Joining fields free of `c` with `c` and splitting on `c` gives the fields back. */
  lemma {:induction false} SplitOnJoin(parts: seq<string>, c: char)
    requires parts != []
    requires forall i :: 0 <= i < |parts| ==> c !in parts[i]
    ensures SplitOn(Join([c], parts), c) == parts
  {
    if |parts| == 1 {
      SplitOnAbsent(parts[0], c);
    } else {
      var rest := parts[1..];
      SplitOnJoin(rest, c);
      SplitOnSeparated(parts[0], c, Join([c], rest));
      assert parts == [parts[0]] + rest;
    }
  }
  /** A text built as `pre + mid + part + tail` begins with `pre` and ends with `tail`. */
  lemma Framed(pre: string, mid: string, part: string, tail: string)
    ensures StartsWith(pre + mid + part + tail, pre)
    ensures |tail| <= |pre + mid + part + tail|
    ensures (pre + mid + part + tail)[|pre + mid + part + tail| - |tail|..] == tail
  {
    var r := pre + mid + part + tail;
    assert r[..|pre|] == pre;
  }
  /** A text built as `head + (body + tail)` begins with `head` and ends with `tail`. */
  lemma Bracketed(head: string, body: string, tail: string)
    ensures StartsWith(head + (body + tail), head)
    ensures |tail| <= |head + (body + tail)|
    ensures (head + (body + tail))[|head + (body + tail)| - |tail|..] == tail
  {
    var r := head + (body + tail);
    assert r[..|head|] == head;
  }
}
