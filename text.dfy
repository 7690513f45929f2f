/** String operations of the JavaScript runtime that the application relies on:
    `trim`, `includes`, `startsWith`, `split`, `toLowerCase`, `padStart`,
    number-to-string conversion, `parseInt` and `length`. Strings are
    sequences of Unicode scalar values; `length` and `substring` count
    UTF-16 code units, in which a character outside the Basic Multilingual
    Plane takes two. */
module Text {
  import opened Wrappers

  // ---------------------------------------------------------------------------
  // Whitespace, trim and blankness

  /** The WhiteSpace and LineTerminator code points of ECMAScript: what `trim`
      removes and what the regular-expression class `\s` matches. */
  predicate IsJsWhitespace(c: char)
  {
    || c == '\t' || c == '\n' || c == '\U{000B}' || c == '\U{000C}' || c == '\r'
    || c == ' ' || c == '\U{00A0}' || c == '\U{1680}'
    || ('\U{2000}' <= c <= '\U{200A}')
    || c == '\U{2028}' || c == '\U{2029}' || c == '\U{202F}' || c == '\U{205F}'
    || c == '\U{3000}' || c == '\U{FEFF}'
  }

  /** `s.trim() === ""`: every character is whitespace. */
  predicate IsBlank(s: string)
  {
    forall i :: 0 <= i < |s| ==> IsJsWhitespace(s[i])
  }

  function TrimStart(s: string): (r: string)
    ensures |r| <= |s|
    ensures r != [] ==> !IsJsWhitespace(r[0])
  {
    if |s| > 0 && IsJsWhitespace(s[0]) then TrimStart(s[1..]) else s
  }

  function TrimEnd(s: string): (r: string)
    ensures |r| <= |s|
    ensures r != [] ==> !IsJsWhitespace(r[|r| - 1])
  {
    if |s| > 0 && IsJsWhitespace(s[|s| - 1]) then TrimEnd(s[..|s| - 1]) else s
  }

  /** `s.trim()`. */
  function Trim(s: string): (r: string)
    ensures |r| <= |s|
    ensures r != [] ==> !IsJsWhitespace(r[0]) && !IsJsWhitespace(r[|r| - 1])
  {
    TrimEndIsPrefix(TrimStart(s));
    TrimEnd(TrimStart(s))
  }

  /** `trim` only removes characters from the two ends: the result is a
      suffix of a prefix of the input. */
  lemma {:induction false} TrimStartIsSuffix(s: string)
    ensures TrimStart(s) == s[|s| - |TrimStart(s)|..]
  {
    if |s| > 0 && IsJsWhitespace(s[0]) {
      TrimStartIsSuffix(s[1..]);
      assert s[1..][|s[1..]| - |TrimStart(s[1..])|..] == s[|s| - |TrimStart(s)|..];
    }
  }

  lemma {:induction false} TrimEndIsPrefix(s: string)
    ensures TrimEnd(s) == s[..|TrimEnd(s)|]
  {
    if |s| > 0 && IsJsWhitespace(s[|s| - 1]) {
      TrimEndIsPrefix(s[..|s| - 1]);
      assert s[..|s| - 1][..|TrimEnd(s)|] == s[..|TrimEnd(s)|];
    }
  }

  lemma TrimIsInfix(s: string)
    ensures exists i, j :: 0 <= i <= j <= |s| && Trim(s) == s[i..j]
  {
    var t := TrimStart(s);
    TrimStartIsSuffix(s);
    TrimEndIsPrefix(t);
    var i := |s| - |t|;
    var j := i + |Trim(s)|;
    assert t[..|Trim(s)|] == s[i..j];
  }

  lemma {:induction false} TrimStartEmptyIffBlank(s: string)
    ensures TrimStart(s) == [] <==> IsBlank(s)
  {
    if |s| > 0 && IsJsWhitespace(s[0]) {
      TrimStartEmptyIffBlank(s[1..]);
      assert IsBlank(s) <==> IsBlank(s[1..]) by {
        if IsBlank(s[1..]) {
          forall i | 0 <= i < |s| ensures IsJsWhitespace(s[i]) {
            if i > 0 { assert s[i] == s[1..][i - 1]; }
          }
        }
        if IsBlank(s) {
          forall i | 0 <= i < |s[1..]| ensures IsJsWhitespace(s[1..][i]) {
            assert s[1..][i] == s[i + 1];
          }
        }
      }
    } else if |s| > 0 {
      assert !IsJsWhitespace(s[0]);
    }
  }

  lemma {:induction false} TrimEndEmptyIffBlank(s: string)
    ensures TrimEnd(s) == [] <==> IsBlank(s)
  {
    if |s| > 0 && IsJsWhitespace(s[|s| - 1]) {
      var p := s[..|s| - 1];
      TrimEndEmptyIffBlank(p);
      assert IsBlank(s) <==> IsBlank(p) by {
        if IsBlank(p) {
          forall i | 0 <= i < |s| ensures IsJsWhitespace(s[i]) {
            if i < |s| - 1 { assert s[i] == p[i]; }
          }
        }
        if IsBlank(s) {
          forall i | 0 <= i < |p| ensures IsJsWhitespace(p[i]) {
            assert p[i] == s[i];
          }
        }
      }
    } else if |s| > 0 {
      assert !IsJsWhitespace(s[|s| - 1]);
    }
  }

  /** `s.trim() === ""` holds exactly for blank strings, so the forms' blank
      check may be stated without computing the trimmed string. */
  lemma TrimEmptyIffBlank(s: string)
    ensures Trim(s) == [] <==> IsBlank(s)
  {
    var t := TrimStart(s);
    TrimStartEmptyIffBlank(s);
    TrimEndEmptyIffBlank(t);
    if t != [] {
      assert !IsJsWhitespace(t[0]);
      assert !IsBlank(t);
    }
  }

  // ---------------------------------------------------------------------------
  // Case folding

  /** One character of `toLowerCase`, for the Latin and Cyrillic letters the
      application's names use: A-Z, А-Я and Ѐ-Џ (which includes Ё). */
  function LowerChar(c: char): (r: char)
    ensures !('A' <= r <= 'Z') && !('\U{0400}' <= r <= '\U{042F}')
  {
    if 'A' <= c <= 'Z' then (c as int + 32) as char
    else if '\U{0410}' <= c <= '\U{042F}' then (c as int + 32) as char
    else if '\U{0400}' <= c <= '\U{040F}' then (c as int + 80) as char
    else c
  }

  function Lower(s: string): (r: string)
    ensures |r| == |s|
    ensures forall i :: 0 <= i < |s| ==> r[i] == LowerChar(s[i])
  {
    seq(|s|, i requires 0 <= i < |s| => LowerChar(s[i]))
  }

  lemma LowerIdempotent(s: string)
    ensures Lower(Lower(s)) == Lower(s)
  {
  }

  /** Equality ignoring case, as the store's case-insensitive `equals` filter. */
  predicate EqualsIgnoreCase(a: string, b: string)
  {
    Lower(a) == Lower(b)
  }

  // ---------------------------------------------------------------------------
  // Substrings

  predicate OccursAt(s: string, t: string, i: nat)
  {
    i + |t| <= |s| && s[i..i + |t|] == t
  }

  /** `s.includes(t)`. */
  predicate HasSubstring(s: string, t: string)
  {
    exists i: nat | i <= |s| :: OccursAt(s, t, i)
  }

  /** `s.startsWith(p)`. */
  predicate StartsWith(s: string, p: string)
  {
    |p| <= |s| && s[..|p|] == p
  }

  /** `s.indexOf(t, from)`: the first position at or after `from` where `t`
      occurs. */
  function IndexOfFrom(s: string, t: string, from: nat): (r: Option<nat>)
    ensures r.Some? ==> from <= r.value && OccursAt(s, t, r.value)
    ensures r.Some? ==> forall i :: from <= i < r.value ==> !OccursAt(s, t, i)
    ensures r.None? ==> forall i :: from <= i ==> !OccursAt(s, t, i)
    decreases |s| + 1 - from
  {
    if from > |s| then None
    else if OccursAt(s, t, from) then Some(from)
    else IndexOfFrom(s, t, from + 1)
  }

  function IndexOf(s: string, t: string): (r: Option<nat>)
    ensures r.Some? ==> OccursAt(s, t, r.value) && forall i :: 0 <= i < r.value ==> !OccursAt(s, t, i)
    ensures r.None? <==> !HasSubstring(s, t)
  {
    IndexOfFrom(s, t, 0)
  }

  /** `s.replace(t, rep)` with a string pattern: only the first occurrence
      is replaced. */
  function ReplaceFirst(s: string, t: string, rep: string): string
  {
    match IndexOf(s, t)
    case None => s
    case Some(i) => s[..i] + rep + s[i + |t|..]
  }

  /** When `s` starts with `t`, replacing `t` by `rep` swaps exactly that
      prefix; without an occurrence nothing changes. */
  lemma ReplaceFirstPrefix(s: string, t: string, rep: string)
    requires StartsWith(s, t)
    ensures ReplaceFirst(s, t, rep) == rep + s[|t|..]
  {
    assert OccursAt(s, t, 0);
  }

  lemma ReplaceFirstAbsent(s: string, t: string, rep: string)
    requires !HasSubstring(s, t)
    ensures ReplaceFirst(s, t, rep) == s
  {
  }

  lemma OccursInSuffix(pre: string, s: string, t: string)
    requires HasSubstring(s, t)
    ensures HasSubstring(pre + s, t)
  {
    var i: nat :| i <= |s| && OccursAt(s, t, i);
    assert i + |t| <= |s|;
    assert (pre + s)[|pre| + i..|pre| + i + |t|] == s[i..i + |t|];
    assert OccursAt(pre + s, t, |pre| + i);
  }

  lemma OccursInPrefix(s: string, post: string, t: string)
    requires HasSubstring(s, t)
    ensures HasSubstring(s + post, t)
  {
    var i: nat :| i <= |s| && OccursAt(s, t, i);
    assert i + |t| <= |s|;
    assert (s + post)[i..i + |t|] == s[i..i + |t|];
    assert OccursAt(s + post, t, i);
  }

  lemma OccursItself(t: string)
    ensures HasSubstring(t, t)
  {
    assert t[0..|t|] == t;
    assert OccursAt(t, t, 0);
  }

  /** The index of the first occurrence of `c` in `s`. */
  function IndexOfChar(s: string, c: char): (i: nat)
    requires c in s
    ensures i < |s| && s[i] == c && c !in s[..i]
  {
    if s[0] == c then 0 else 1 + IndexOfChar(s[1..], c)
  }

  // ---------------------------------------------------------------------------
  // Split and join

  /** `s.split(sep)` for a one-character separator: never empty, and no piece
      contains the separator. */
  function Split(s: string, sep: char): (r: seq<string>)
    ensures |r| >= 1
    ensures forall k :: 0 <= k < |r| ==> sep !in r[k]
    decreases |s|
  {
    if sep !in s then [s]
    else
      var i := IndexOfChar(s, sep);
      [s[..i]] + Split(s[i + 1..], sep)
  }

  /** `parts.join(sep)`. */
  function Join(parts: seq<string>, sep: string): string
  {
    if |parts| == 0 then ""
    else if |parts| == 1 then parts[0]
    else parts[0] + sep + Join(parts[1..], sep)
  }

  lemma {:induction false} JoinSplit(s: string, sep: char)
    ensures Join(Split(s, sep), [sep]) == s
    decreases |s|
  {
    if sep in s {
      var i := IndexOfChar(s, sep);
      var rest := Split(s[i + 1..], sep);
      JoinSplit(s[i + 1..], sep);
      assert Split(s, sep) == [s[..i]] + rest;
      assert s == s[..i] + [sep] + s[i + 1..];
    }
  }

  /** A split into pieces that contain no separator can be undone: splitting
      the join of such pieces gives the pieces back. */
  lemma {:induction false} SplitJoin(parts: seq<string>, sep: char)
    requires |parts| >= 1
    requires forall k :: 0 <= k < |parts| ==> sep !in parts[k]
    ensures Split(Join(parts, [sep]), sep) == parts
    decreases |parts|
  {
    if |parts| > 1 {
      var tail := Join(parts[1..], [sep]);
      var s := parts[0] + [sep] + tail;
      assert Join(parts, [sep]) == s;
      assert s[|parts[0]|] == sep;
      assert sep in s;
      var i := IndexOfChar(s, sep);
      assert s[..|parts[0]|] == parts[0];
      assert i == |parts[0]|;
      assert s[i + 1..] == tail;
      SplitJoin(parts[1..], sep);
      assert parts == [parts[0]] + parts[1..];
    }
  }

  /** Three pieces without the separator, joined by it, split back into
      themselves. */
  lemma SplitThree(a: string, b: string, c: string, sep: char)
    requires sep !in a && sep !in b && sep !in c
    ensures Split(a + [sep] + b + [sep] + c, sep) == [a, b, c]
  {
    var parts := [a, b, c];
    assert parts[1..] == [b, c] && [b, c][1..] == [c];
    assert Join(parts[2..], [sep]) == c;
    assert Join(parts[1..], [sep]) == b + [sep] + c;
    assert Join(parts, [sep]) == a + [sep] + (b + [sep] + c);
    assert a + [sep] + b + [sep] + c == a + [sep] + (b + [sep] + c);
    SplitJoin(parts, sep);
  }

  /** The first piece is everything before the first separator. */
  lemma SplitFirstPiece(w: string, rest: string, sep: char)
    requires sep !in w
    ensures Split(w + [sep] + rest, sep)[0] == w
  {
    var s := w + [sep] + rest;
    assert s[|w|] == sep;
    var i := IndexOfChar(s, sep);
    assert s[..|w|] == w;
    assert i == |w|;
  }

  /** `s.split(/\s+/)`: pieces between maximal runs of whitespace. A leading
      or trailing run yields an empty first or last piece. */
  function SplitWhitespace(s: string): (r: seq<string>)
    ensures |r| >= 1
    decreases |s|
  {
    if FirstWhitespace(s) == |s| then [s]
    else
      var i := FirstWhitespace(s);
      var j := EndOfRun(s, i);
      [s[..i]] + SplitWhitespace(s[j..])
  }

  function FirstWhitespace(s: string): (i: nat)
    ensures i <= |s|
    ensures forall k :: 0 <= k < i ==> !IsJsWhitespace(s[k])
    ensures i < |s| ==> IsJsWhitespace(s[i])
  {
    if |s| == 0 then 0
    else if IsJsWhitespace(s[0]) then 0
    else 1 + FirstWhitespace(s[1..])
  }

  function EndOfRun(s: string, i: nat): (j: nat)
    requires i < |s| && IsJsWhitespace(s[i])
    ensures i < j <= |s|
    ensures j < |s| ==> !IsJsWhitespace(s[j])
    decreases |s| - i
  {
    if i + 1 < |s| && IsJsWhitespace(s[i + 1]) then EndOfRun(s, i + 1) else i + 1
  }

  predicate NoWhitespace(s: string)
  {
    forall k :: 0 <= k < |s| ==> !IsJsWhitespace(s[k])
  }

  /** Two words joined by one space split back into those two words. */
  lemma SplitWhitespaceTwoWords(w: string, p: string)
    requires NoWhitespace(w) && NoWhitespace(p)
    ensures SplitWhitespace(w + " " + p) == [w, p]
  {
    var s := w + " " + p;
    assert s[|w|] == ' ';
    assert FirstWhitespace(s) == |w|;
    assert EndOfRun(s, |w|) == |w| + 1;
    assert s[..|w|] == w;
    assert s[|w| + 1..] == p;
    assert FirstWhitespace(p) == |p|;
  }

  /** `!v || v.trim() === ""` for a form value that may be absent. */
  predicate BlankValue(v: Option<string>)
  {
    v.None? || Trim(v.value) == ""
  }

  /** A string that may be absent is truthy when present and not empty. */
  predicate Truthy(v: Option<string>)
  {
    v.Some? && v.value != ""
  }

  // ---------------------------------------------------------------------------
  // Decimal numbers

  predicate IsDigit(c: char)
  {
    '0' <= c <= '9'
  }

  /** The regular expression `/^\d+$/`: one or more ASCII digits. */
  predicate AllDigits(s: string)
  {
    |s| > 0 && forall i :: 0 <= i < |s| ==> IsDigit(s[i])
  }

  function DigitChar(d: nat): (c: char)
    requires d < 10
    ensures IsDigit(c)
  {
    ('0' as int + d) as char
  }

  /** `n.toString()` for a non-negative integer. */
  function NatToString(n: nat): (r: string)
    ensures AllDigits(r)
  {
    if n < 10 then [DigitChar(n)] else NatToString(n / 10) + [DigitChar(n % 10)]
  }

  /** `n.toString()` for any integer. */
  function IntToString(n: int): string
  {
    if n < 0 then "-" + NatToString(-n) else NatToString(n)
  }

  function DigitsValue(s: string): nat
    requires forall i :: 0 <= i < |s| ==> IsDigit(s[i])
  {
    if s == [] then 0
    else 10 * DigitsValue(s[..|s| - 1]) + DigitValue(s[|s| - 1])
  }

  function DigitValue(c: char): (d: nat)
    requires IsDigit(c)
    ensures d < 10
  {
    c as int - '0' as int
  }

  lemma {:induction false} NatToStringValue(n: nat)
    ensures DigitsValue(NatToString(n)) == n
  {
    if n >= 10 {
      NatToStringValue(n / 10);
      var s := NatToString(n);
      assert s[..|s| - 1] == NatToString(n / 10);
    }
  }

  /** Six-digit numbers print as exactly six digits. */
  lemma SixDigitLength(n: nat)
    requires 100000 <= n <= 999999
    ensures |NatToString(n)| == 6
  {
    assert |NatToString(n / 100000)| == 1;
    assert |NatToString(n / 10000)| == 2;
    assert |NatToString(n / 1000)| == 3;
    assert |NatToString(n / 100)| == 4;
    assert |NatToString(n / 10)| == 5;
  }

  /** `s.padStart(width, c)`. */
  function PadStart(s: string, width: nat, c: char): (r: string)
    ensures |r| == if |s| >= width then |s| else width
    ensures r[|r| - |s|..] == s
    ensures forall i :: 0 <= i < |r| - |s| ==> r[i] == c
  {
    if |s| >= width then s else seq(width - |s|, _ => c) + s
  }

  lemma {:induction false} LeadingZerosValue(z: string, s: string)
    requires forall i :: 0 <= i < |z| ==> z[i] == '0'
    requires forall i :: 0 <= i < |s| ==> IsDigit(s[i])
    ensures DigitsValue(z + s) == DigitsValue(s)
    decreases |s|, |z|
  {
    if s == [] {
      assert z + s == z;
      if z != [] {
        LeadingZerosValue(z[..|z| - 1], []);
        assert z[..|z| - 1] + [] == z[..|z| - 1];
      }
    } else {
      var p := s[..|s| - 1];
      LeadingZerosValue(z, p);
      assert (z + s)[..|z + s| - 1] == z + p;
    }
  }

  /** A zero-padded decimal still denotes its number. */
  lemma PaddedValue(n: nat, width: nat)
    ensures AllDigits(PadStart(NatToString(n), width, '0'))
    ensures DigitsValue(PadStart(NatToString(n), width, '0')) == n
  {
    var s := NatToString(n);
    NatToStringValue(n);
    PaddedDigits(s, width);
  }

  /** Padding digits with zeros keeps them digits and keeps their value. */
  lemma PaddedDigits(s: string, width: nat)
    requires forall i :: 0 <= i < |s| ==> IsDigit(s[i])
    ensures forall i :: 0 <= i < |PadStart(s, width, '0')| ==> IsDigit(PadStart(s, width, '0')[i])
    ensures DigitsValue(PadStart(s, width, '0')) == DigitsValue(s)
  {
    var r := PadStart(s, width, '0');
    if |s| < width {
      var z := seq(width - |s|, _ => '0');
      assert r == z + s;
      forall i | 0 <= i < |r|
        ensures IsDigit(r[i])
      {
        if i < |z| {
          assert r[i] == z[i];
        } else {
          assert r[i] == s[i - |z|];
        }
      }
      LeadingZerosValue(z, s);
    }
  }

  /** The longest prefix of `s` made of digits. */
  function DigitPrefix(s: string): (r: string)
    ensures |r| <= |s| && r == s[..|r|]
    ensures forall i :: 0 <= i < |r| ==> IsDigit(r[i])
    ensures |r| < |s| ==> !IsDigit(s[|r|])
  {
    if |s| > 0 && IsDigit(s[0]) then [s[0]] + DigitPrefix(s[1..]) else ""
  }

  lemma {:induction false} DigitPrefixOfDigits(s: string)
    requires forall i :: 0 <= i < |s| ==> IsDigit(s[i])
    ensures DigitPrefix(s) == s
  {
    if |s| > 0 {
      DigitPrefixOfDigits(s[1..]);
    }
  }

  /** `parseInt(s, 10)`: skips leading whitespace, takes an optional sign and
      the longest run of digits that follows; `NaN` (here `None`) when there
      is no digit. */
  function ParseInt(s: string): (r: Option<int>)
    ensures IsBlank(s) ==> r.None?
    ensures var t := TrimStart(s); t != [] && t[0] != '-' && t[0] != '+' && !IsDigit(t[0]) ==> r.None?
    ensures r.Some? ==> TrimStart(s) != [] && (r.value < 0 <==> TrimStart(s)[0] == '-' && r.value != 0)
  {
    TrimStartEmptyIffBlank(s);
    var t := TrimStart(s);
    var neg := |t| > 0 && t[0] == '-';
    var body := if |t| > 0 && (t[0] == '-' || t[0] == '+') then t[1..] else t;
    var digits := DigitPrefix(body);
    if digits == "" then None
    else
      var v: int := DigitsValue(digits);
      Some(if neg then -v else v)
  }

  /** `parseInt` reads back what `toString` prints. */
  lemma ParseIntToString(n: int)
    ensures ParseInt(IntToString(n)) == Some(n)
  {
    var s := IntToString(n);
    if n < 0 {
      assert !IsJsWhitespace(s[0]);
      assert TrimStart(s) == s;
      assert s[1..] == NatToString(-n);
      DigitPrefixOfDigits(NatToString(-n));
      NatToStringValue(-n);
    } else {
      assert !IsJsWhitespace(s[0]);
      assert TrimStart(s) == s;
      DigitPrefixOfDigits(s);
      NatToStringValue(n);
    }
  }

  /** `parseInt(s)` without a radix: the decimal reading, except that a `0x`
      or `0X` after the sign makes the digits that follow hexadecimal (and
      `NaN` when no hexadecimal digit follows). */
  function ParseIntAuto(s: string): (r: Option<int>)
    ensures !HexPrefixed(SignStripped(TrimStart(s))) ==> r == ParseInt(s)
  {
    var t := TrimStart(s);
    var body := SignStripped(t);
    if HexPrefixed(body) then
      var digits := HexDigitPrefix(body[2..]);
      if digits == "" then None
      else
        var v: int := HexValue(digits);
        Some(if |t| > 0 && t[0] == '-' then -v else v)
    else ParseInt(s)
  }

  function SignStripped(t: string): string
  {
    if |t| > 0 && (t[0] == '-' || t[0] == '+') then t[1..] else t
  }

  predicate HexPrefixed(body: string)
  {
    |body| >= 2 && body[0] == '0' && (body[1] == 'x' || body[1] == 'X')
  }

  predicate IsHexDigit(c: char)
  {
    IsDigit(c) || 'a' <= c <= 'f' || 'A' <= c <= 'F'
  }

  function HexDigitValue(c: char): (d: nat)
    requires IsHexDigit(c)
    ensures d < 16
  {
    if IsDigit(c) then DigitValue(c)
    else if 'a' <= c <= 'f' then c as int - 'a' as int + 10
    else c as int - 'A' as int + 10
  }

  function HexValue(s: string): nat
    requires forall i :: 0 <= i < |s| ==> IsHexDigit(s[i])
  {
    if s == [] then 0
    else 16 * HexValue(s[..|s| - 1]) + HexDigitValue(s[|s| - 1])
  }

  /** The longest prefix of `s` made of hexadecimal digits. */
  function HexDigitPrefix(s: string): (r: string)
    ensures |r| <= |s| && r == s[..|r|]
    ensures forall i :: 0 <= i < |r| ==> IsHexDigit(r[i])
    ensures |r| < |s| ==> !IsHexDigit(s[|r|])
  {
    if |s| > 0 && IsHexDigit(s[0]) then [s[0]] + HexDigitPrefix(s[1..]) else ""
  }

  /** A printed integer never looks hexadecimal, so the radix-less
      `parseInt` reads it back too. */
  lemma ParseIntAutoToString(n: int)
    ensures ParseIntAuto(IntToString(n)) == Some(n)
  {
    var s := IntToString(n);
    assert !IsJsWhitespace(s[0]);
    assert TrimStart(s) == s;
    var digits := if n < 0 then NatToString(-n) else NatToString(n);
    assert SignStripped(s) == digits;
    assert !HexPrefixed(digits) by {
      if |digits| >= 2 {
        assert IsDigit(digits[1]);
      }
    }
    ParseIntToString(n);
  }

  /** Unlike `parseInt(s, 10)`, the radix-less reading takes `0x10` as
      sixteen. */
  lemma HexPrefixRead()
    ensures ParseIntAuto("0x10") == Some(16)
    ensures ParseInt("0x10") == Some(0)
  {
    var s := "0x10";
    assert !IsJsWhitespace(s[0]);
    assert TrimStart(s) == s;
    assert SignStripped(s) == s;
    assert HexPrefixed(s);
    assert s[2..] == "10";
    assert HexDigitPrefix("10") == "10" by {
      assert HexDigitPrefix("10"[1..]) == "0" by {
        assert "10"[1..] == "0";
        assert HexDigitPrefix("0"[1..]) == "";
      }
    }
    assert HexValue("10") == 16 by {
      assert "10"[..1] == "1";
      assert "1"[..0] == "";
    }
    assert DigitPrefix(s) == "0" by {
      assert s[1..] == "x10";
      assert DigitPrefix("x10") == "";
    }
    assert DigitsValue("0") == 0 by {
      assert "0"[..0] == "";
    }
  }

  // ---------------------------------------------------------------------------
  // UTF-16 length

  /** The code units of one character: two outside the Basic Multilingual
      Plane, one inside it. */
  function Utf16Units(c: char): (n: nat)
    ensures 1 <= n <= 2
  {
    if c as int >= 0x1_0000 then 2 else 1
  }

  /** JavaScript's `length`: the number of UTF-16 code units. */
  function Utf16Length(s: string): (n: nat)
    ensures |s| <= n <= 2 * |s|
  {
    if s == [] then 0 else Utf16Units(s[0]) + Utf16Length(s[1..])
  }

  lemma {:induction false} Utf16LengthAppend(a: string, b: string)
    ensures Utf16Length(a + b) == Utf16Length(a) + Utf16Length(b)
    decreases |a|
  {
    if a == [] {
      assert a + b == b;
    } else {
      assert (a + b)[0] == a[0] && (a + b)[1..] == a[1..] + b;
      Utf16LengthAppend(a[1..], b);
    }
  }

  /** Inside the Basic Multilingual Plane the two lengths agree. */
  lemma {:induction false} Utf16LengthBmp(s: string)
    requires forall i :: 0 <= i < |s| ==> s[i] as int < 0x1_0000
    ensures Utf16Length(s) == |s|
    decreases |s|
  {
    if s != [] {
      Utf16LengthBmp(s[1..]);
    }
  }

  /** A run of one character is as long as that character times the run. */
  lemma {:induction false} Utf16LengthRun(n: nat, c: char)
    ensures Utf16Length(seq(n, _ => c)) == n * Utf16Units(c)
    decreases n
  {
    if n > 0 {
      assert seq(n, _ => c)[1..] == seq(n - 1, _ => c);
      Utf16LengthRun(n - 1, c);
    }
  }

  /** `s.substring(0, n)` on whole characters: the longest prefix of `s`
      that takes at most `n` code units. */
  function Utf16Prefix(s: string, n: nat): (r: string)
    ensures |r| <= |s| && r == s[..|r|]
    ensures Utf16Length(r) <= n
    ensures |r| < |s| ==> Utf16Length(r) + Utf16Units(s[|r|]) > n
    ensures Utf16Length(s) <= n ==> r == s
    ensures Utf16Length(s) > n ==> |r| < |s|
    decreases |s|
  {
    if s == [] || Utf16Units(s[0]) > n then ""
    else [s[0]] + Utf16Prefix(s[1..], n - Utf16Units(s[0]))
  }
}
