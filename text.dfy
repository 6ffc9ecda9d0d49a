/**
 * The JavaScript string built-ins the core relies on (`trim`, `split`,
 * `join`, `toUpperCase`/`toLowerCase`, `includes`, `parseInt(s, 10)`,
 * `Number.prototype.toString(radix)`), written out with their edge cases.
 */
module Text {
  import opened Wrappers

  /** The code points JavaScript's `trim` and the regular expression `\s` match:
    * WhiteSpace (TAB, VT, FF, SP, NBSP, ZWNBSP, the Zs category) and LineTerminator. */
  predicate IsSpace(c: char) {
    c in SPACES || '\U{2000}' <= c <= '\U{200A}'
  }

  const SPACES: set<char> := {
    '\t', '\n', '\U{000B}', '\U{000C}', '\r', ' ', '\U{00A0}', '\U{1680}',
    '\U{2028}', '\U{2029}', '\U{202F}', '\U{205F}', '\U{3000}', '\U{FEFF}'
  }

  predicate NoSpace(s: string) {
    forall i :: 0 <= i < |s| ==> !IsSpace(s[i])
  }

  /** `String.prototype.trimStart`. */
  function TrimStart(s: string): (r: string)
    ensures |r| <= |s| && r == s[|s| - |r|..]
    ensures r == [] || !IsSpace(r[0])
    ensures forall i :: 0 <= i < |s| - |r| ==> IsSpace(s[i])
  {
    if |s| > 0 && IsSpace(s[0]) then
      var r := TrimStart(s[1..]);
      assert s[1..][|s| - 1 - |r|..] == s[|s| - |r|..];
      assert forall i :: 1 <= i < |s| - |r| ==> s[1..][i - 1] == s[i];
      r
    else s
  }

  /** `String.prototype.trimEnd`. */
  function TrimEnd(s: string): (r: string)
    ensures |r| <= |s| && r == s[..|r|]
    ensures r == [] || !IsSpace(r[|r| - 1])
    ensures forall i :: |r| <= i < |s| ==> IsSpace(s[i])
  {
    if |s| > 0 && IsSpace(s[|s| - 1]) then
      var r := TrimEnd(s[..|s| - 1]);
      assert s[..|s| - 1][..|r|] == s[..|r|];
      assert forall i :: |r| <= i < |s| - 1 ==> s[..|s| - 1][i] == s[i];
      r
    else s
  }

  /** `String.prototype.trim`. */
  function Trim(s: string): string {
    TrimEnd(TrimStart(s))
  }

  /** `s.split(sep)` for a one-character separator: "" gives [""], and two
    * adjacent separators give an empty piece between them. */
  function Split(s: string, sep: char): (parts: seq<string>)
    ensures |parts| >= 1
    decreases |s|
  {
    if |s| == 0 then [""]
    else if s[0] == sep then [""] + Split(s[1..], sep)
    else
      var rest := Split(s[1..], sep);
      [[s[0]] + rest[0]] + rest[1..]
  }

  /** `s.split(/\s+/)`: cut at every maximal run of whitespace; a leading or
    * trailing run yields an empty first or last piece. */
  function SplitWs(s: string): (parts: seq<string>)
    ensures |parts| >= 1
    decreases |s|
  {
    if |s| == 0 then [""]
    else if IsSpace(s[0]) then [""] + SplitWs(TrimStart(s))
    else
      var rest := SplitWs(s[1..]);
      [[s[0]] + rest[0]] + rest[1..]
  }

  /** `parts.join(sep)`. */
  function Join(parts: seq<string>, sep: string): string {
    if |parts| == 0 then ""
    else if |parts| == 1 then parts[0]
    else parts[0] + sep + Join(parts[1..], sep)
  }

  lemma JoinPrepend(c: char, parts: seq<string>, sep: string)
    requires |parts| >= 1
    ensures Join([[c] + parts[0]] + parts[1..], sep) == [c] + Join(parts, sep)
  {
    var ps := [[c] + parts[0]] + parts[1..];
    if |parts| > 1 {
      assert ps[1..] == parts[1..];
    }
  }

  lemma JoinEmptyFirst(parts: seq<string>, sep: string)
    requires |parts| >= 1
    ensures Join([""] + parts, sep) == sep + Join(parts, sep)
  {
    assert ([""] + parts)[1..] == parts;
    assert "" + sep == sep;
  }

  /** Joining the pieces of a split with the separator gives the string back. */
  lemma {:induction false} SplitJoin(s: string, sep: char)
    ensures Join(Split(s, sep), [sep]) == s
    decreases |s|
  {
    if |s| == 0 {
    } else if s[0] == sep {
      SplitJoin(s[1..], sep);
      var rest := Split(s[1..], sep);
      assert Split(s, sep) == [""] + rest;
      JoinEmptyFirst(rest, [sep]);
      assert s == [sep] + s[1..];
    } else {
      SplitJoin(s[1..], sep);
      JoinPrepend(s[0], Split(s[1..], sep), [sep]);
      assert s == [s[0]] + s[1..];
    }
  }

  /** No piece of a split contains the separator. */
  lemma {:induction false} SplitPiecesAvoidSep(s: string, sep: char)
    ensures forall k :: 0 <= k < |Split(s, sep)| ==> sep !in Split(s, sep)[k]
    decreases |s|
  {
    if |s| > 0 {
      SplitPiecesAvoidSep(s[1..], sep);
    }
  }

  lemma {:induction false} SplitPrefix(p: string, sep: char, rest: string)
    requires sep !in p
    ensures Split(p + [sep] + rest, sep) == [p] + Split(rest, sep)
    decreases |p|
  {
    if |p| == 0 {
      assert p + [sep] + rest == [sep] + rest;
      assert ([sep] + rest)[1..] == rest;
    } else {
      var s := p + [sep] + rest;
      assert s[0] == p[0];
      assert s[1..] == p[1..] + [sep] + rest;
      SplitPrefix(p[1..], sep, rest);
      assert [p[0]] + p[1..] == p;
    }
  }

  lemma {:induction false} SplitNoSep(p: string, sep: char)
    requires sep !in p
    ensures Split(p, sep) == [p]
    decreases |p|
  {
    if |p| > 0 {
      SplitNoSep(p[1..], sep);
      assert [p[0]] + p[1..] == p;
    }
  }

  /** Splitting a join recovers the pieces when none of them contains the separator. */
  lemma {:induction false} JoinSplit(parts: seq<string>, sep: char)
    requires |parts| >= 1
    requires forall k :: 0 <= k < |parts| ==> sep !in parts[k]
    ensures Split(Join(parts, [sep]), sep) == parts
    decreases |parts|
  {
    if |parts| == 1 {
      SplitNoSep(parts[0], sep);
    } else {
      JoinSplit(parts[1..], sep);
      SplitPrefix(parts[0], sep, Join(parts[1..], [sep]));
      assert [parts[0]] + parts[1..] == parts;
    }
  }

  /** Every whitespace character is a single ' ' followed by a non-space character. */
  predicate SingleSpaced(s: string) {
    forall i :: 0 <= i < |s| && IsSpace(s[i]) ==> s[i] == ' ' && i + 1 < |s| && !IsSpace(s[i + 1])
  }

  lemma SingleSpacedTail(s: string)
    requires |s| > 0 && SingleSpaced(s)
    ensures SingleSpaced(s[1..])
  {
    forall i | 0 <= i < |s[1..]| && IsSpace(s[1..][i])
      ensures s[1..][i] == ' ' && i + 1 < |s[1..]| && !IsSpace(s[1..][i + 1])
    {
      assert s[1..][i] == s[i + 1];
      assert i + 1 < |s| && IsSpace(s[i + 1]);
    }
  }

  lemma SplitWsJoinSpace(s: string)
    requires |s| > 0 && IsSpace(s[0]) && SingleSpaced(s)
    requires Join(SplitWs(s[1..]), " ") == s[1..]
    ensures Join(SplitWs(s), " ") == s
  {
    assert s[0] == ' ' && |s| > 1 && !IsSpace(s[1]);
    assert TrimStart(s[1..]) == s[1..];
    assert TrimStart(s) == s[1..];
    var w := SplitWs(s[1..]);
    assert SplitWs(s) == [""] + w;
    assert ([""] + w)[1..] == w;
    assert s == " " + s[1..];
  }

  lemma SplitWsJoinChar(s: string)
    requires |s| > 0 && !IsSpace(s[0])
    requires Join(SplitWs(s[1..]), " ") == s[1..]
    ensures Join(SplitWs(s), " ") == s
  {
    JoinPrepend(s[0], SplitWs(s[1..]), " ");
    assert s == [s[0]] + s[1..];
  }

  /** On single-spaced text, `split(/\s+/)` followed by `join(' ')` is the identity. */
  lemma {:induction false} SplitWsJoin(s: string)
    requires SingleSpaced(s)
    ensures Join(SplitWs(s), " ") == s
    decreases |s|
  {
    if |s| > 0 {
      SingleSpacedTail(s);
      SplitWsJoin(s[1..]);
      if IsSpace(s[0]) {
        SplitWsJoinSpace(s);
      } else {
        SplitWsJoinChar(s);
      }
    }
  }

  /** A space-free word followed by a space and text that does not start with
    * whitespace splits into that word and the pieces of the text. */
  lemma {:induction false} SplitWsHead(word: string, rest: string)
    requires NoSpace(word)
    requires rest == [] || !IsSpace(rest[0])
    ensures SplitWs(word + " " + rest) == [word] + SplitWs(rest)
    decreases |word|
  {
    var s := word + " " + rest;
    if |word| == 0 {
      assert s == " " + rest;
      assert TrimStart(s) == TrimStart(s[1..]) == rest by {
        assert s[1..] == rest;
      }
    } else {
      assert s[0] == word[0];
      assert s[1..] == word[1..] + " " + rest;
      SplitWsHead(word[1..], rest);
      assert [word[0]] + word[1..] == word;
    }
  }

  /** ASCII upper-casing of one character. */
  function UpperChar(c: char): char {
    if 'a' <= c <= 'z' then (c as int - 32) as char else c
  }

  /** ASCII lower-casing of one character. */
  function LowerChar(c: char): char {
    if 'A' <= c <= 'Z' then (c as int + 32) as char else c
  }

  /** `toUpperCase` on ASCII letters. */
  function ToUpper(s: string): (r: string)
    ensures |r| == |s| && forall i :: 0 <= i < |s| ==> r[i] == UpperChar(s[i])
  {
    seq(|s|, i requires 0 <= i < |s| => UpperChar(s[i]))
  }

  /** `toLowerCase` on ASCII letters. */
  function ToLower(s: string): (r: string)
    ensures |r| == |s| && forall i :: 0 <= i < |s| ==> r[i] == LowerChar(s[i])
  {
    seq(|s|, i requires 0 <= i < |s| => LowerChar(s[i]))
  }

  /** `s.includes(sub)`. */
  predicate Contains(s: string, sub: string) {
    exists i | 0 <= i <= |s| - |sub| :: OccursAt(s, sub, i)
  }

  predicate OccursAt(s: string, sub: string, i: int) {
    0 <= i && i + |sub| <= |s| && s[i..i + |sub|] == sub
  }

  /** The digit character of Number.prototype.toString(radix). */
  function DigitChar(d: nat): char
    requires d < 36
  {
    if d < 10 then ('0' as int + d) as char else ('a' as int + d - 10) as char
  }

  /** The value of a digit character in bases up to 36, or -1. */
  function DigitValue(c: char): int {
    if '0' <= c <= '9' then c as int - '0' as int
    else if 'a' <= c <= 'z' then c as int - 'a' as int + 10
    else -1
  }

  predicate IsDecimalDigit(c: char) {
    '0' <= c <= '9'
  }

  /** `n.toString(base)` for a non-negative integer: most significant digit first, no leading zeros. */
  function NatToRadix(n: nat, base: nat): (s: string)
    requires 2 <= base <= 36
    ensures |s| >= 1
    decreases n
  {
    if n < base then [DigitChar(n)] else NatToRadix(n / base, base) + [DigitChar(n % base)]
  }

  /** `n.toString(base)` for an integer: a '-' then the digits of |n| when negative. */
  function IntToRadix(n: int, base: nat): string
    requires 2 <= base <= 36
  {
    if n < 0 then "-" + NatToRadix(-n, base) else NatToRadix(n, base)
  }

  /** Decimal rendering, as in a template literal `${n}`. */
  function IntToString(n: int): string {
    IntToRadix(n, 10)
  }

  /** The number a string of digits denotes in the given base. */
  function DigitsValue(s: string, base: nat): int
    decreases |s|
  {
    if |s| == 0 then 0 else DigitsValue(s[..|s| - 1], base) * base + DigitValue(s[|s| - 1])
  }

  lemma DigitCharValue(d: nat)
    requires d < 36
    ensures DigitValue(DigitChar(d)) == d
  {
  }

  lemma DivMod(n: nat, base: nat)
    requires base > 0
    ensures n == (n / base) * base + n % base
  {
  }

  lemma DigitsValueSnoc(p: string, c: char, base: nat)
    ensures DigitsValue(p + [c], base) == DigitsValue(p, base) * base + DigitValue(c)
  {
    assert (p + [c])[..|p|] == p;
  }

  lemma NatToRadixStep(n: nat, base: nat)
    requires 2 <= base <= 36 && n >= base
    requires DigitsValue(NatToRadix(n / base, base), base) == n / base
    ensures DigitsValue(NatToRadix(n, base), base) == n
  {
    var q, r := n / base, n % base;
    DivMod(n, base);
    var p := NatToRadix(q, base);
    assert NatToRadix(n, base) == p + [DigitChar(r)];
    DigitCharValue(r);
    DigitsValueSnoc(p, DigitChar(r), base);
  }

  /** Reading back the digits of `n.toString(base)` gives n. */
  lemma {:induction false} NatToRadixValue(n: nat, base: nat)
    requires 2 <= base <= 36
    ensures DigitsValue(NatToRadix(n, base), base) == n
    decreases n
  {
    if n < base {
      DigitCharValue(n);
      assert NatToRadix(n, base)[..0] == [];
    } else {
      NatToRadixValue(n / base, base);
      NatToRadixStep(n, base);
    }
  }

  /** Every character of `s` is a digit below the base. */
  predicate DigitsBelow(s: string, base: nat) {
    forall i :: 0 <= i < |s| ==> 0 <= DigitValue(s[i]) < base
  }

  lemma NatToRadixDigitsStep(n: nat, base: nat)
    requires 2 <= base <= 36 && n >= base
    requires DigitsBelow(NatToRadix(n / base, base), base)
    ensures DigitsBelow(NatToRadix(n, base), base)
  {
    var p, r := NatToRadix(n / base, base), n % base;
    assert r < base;
    DigitCharValue(r);
    assert NatToRadix(n, base) == p + [DigitChar(r)];
  }

  /** Every digit of `n.toString(base)` is below the base. */
  lemma {:induction false} NatToRadixDigits(n: nat, base: nat)
    requires 2 <= base <= 36
    ensures DigitsBelow(NatToRadix(n, base), base)
    decreases n
  {
    if n < base {
      DigitCharValue(n);
    } else {
      NatToRadixDigits(n / base, base);
      NatToRadixDigitsStep(n, base);
    }
  }

  /** `n.toString(base)` reads back as n: an optional '-' and digits whose
    * value is the magnitude of n. */
  lemma IntToRadixDenotes(n: int, base: nat)
    requires 2 <= base <= 36
    ensures var d := IntToRadix(n, base);
            |d| > 0 &&
            (n < 0 ==> d[0] == '-' && DigitsValue(d[1..], base) == -n) &&
            (n >= 0 ==> d[0] != '-' && DigitsValue(d, base) == n)
  {
    var m: nat := if n < 0 then -n else n;
    NatToRadixValue(m, base);
    NatToRadixDigits(m, base);
    var digits := NatToRadix(m, base);
    if n < 0 {
      assert ("-" + digits)[1..] == digits;
    } else {
      assert 0 <= DigitValue(digits[0]) < base;
    }
  }

  /** The longest prefix of decimal digits. */
  function DigitPrefix(s: string): (d: string)
    ensures |d| <= |s| && d == s[..|d|]
    ensures forall i :: 0 <= i < |d| ==> IsDecimalDigit(d[i])
    ensures |d| < |s| ==> !IsDecimalDigit(s[|d|])
  {
    if |s| > 0 && IsDecimalDigit(s[0]) then [s[0]] + DigitPrefix(s[1..]) else []
  }

  /** `parseInt(s, 10)`: skip leading whitespace, take an optional sign and the
    * longest run of decimal digits; None stands for NaN (no digit at all). */
  function ParseInt(s: string): Option<int> {
    var t := TrimStart(s);
    if |t| > 0 && (t[0] == '-' || t[0] == '+') then
      var d := DigitPrefix(t[1..]);
      if d == [] then None
      else Some(if t[0] == '-' then -DigitsValue(d, 10) else DigitsValue(d, 10))
    else
      var d := DigitPrefix(t);
      if d == [] then None else Some(DigitsValue(d, 10))
  }

  lemma {:induction false} DecimalDigitsAreDigits(s: string)
    requires forall i :: 0 <= i < |s| ==> 0 <= DigitValue(s[i]) < 10
    ensures DigitPrefix(s) == s
  {
    if |s| > 0 {
      assert 0 <= DigitValue(s[0]) < 10;
      DecimalDigitsAreDigits(s[1..]);
      assert [s[0]] + s[1..] == s;
    }
  }

  /** `parseInt` of a non-empty run of decimal digits is their value. */
  lemma ParseIntDigits(digits: string)
    requires |digits| > 0 && forall i :: 0 <= i < |digits| ==> 0 <= DigitValue(digits[i]) < 10
    ensures ParseInt(digits) == Some(DigitsValue(digits, 10))
  {
    assert IsDecimalDigit(digits[0]);
    assert !IsSpace(digits[0]);
    assert TrimStart(digits) == digits;
    assert digits[0] != '-' && digits[0] != '+';
    DecimalDigitsAreDigits(digits);
    assert DigitPrefix(digits) == digits;
  }

  /** `parseInt` of a '-' and a non-empty run of decimal digits is minus their value. */
  lemma ParseIntNegative(digits: string)
    requires |digits| > 0 && forall i :: 0 <= i < |digits| ==> 0 <= DigitValue(digits[i]) < 10
    ensures ParseInt("-" + digits) == Some(-DigitsValue(digits, 10))
  {
    DecimalDigitsAreDigits(digits);
    var s := "-" + digits;
    assert !IsSpace(s[0]);
    assert TrimStart(s) == s;
    assert s[1..] == digits;
  }

  /** `parseInt` reads back what a template literal renders. */
  lemma ParseIntToString(n: int)
    ensures ParseInt(IntToString(n)) == Some(n)
  {
    var m: nat := if n < 0 then -n else n;
    var digits := NatToRadix(m, 10);
    NatToRadixValue(m, 10);
    NatToRadixDigits(m, 10);
    if n < 0 {
      ParseIntNegative(digits);
    } else {
      ParseIntDigits(digits);
    }
  }

  /** A rendered integer is a '-' and decimal digits only. */
  lemma IntToStringChars(n: int)
    ensures forall i :: 0 <= i < |IntToString(n)| ==>
              IntToString(n)[i] == '-' || IsDecimalDigit(IntToString(n)[i])
  {
    var m: nat := if n < 0 then -n else n;
    NatToRadixDigits(m, 10);
    var digits := NatToRadix(m, 10);
    assert forall i :: 0 <= i < |digits| ==> IsDecimalDigit(digits[i]);
    if n < 0 {
      assert IntToString(n) == "-" + digits;
    }
  }

  /** A rendered integer is untouched by `trim` and holds no comma. */
  lemma IntToStringTrimmed(n: int)
    ensures Trim(IntToString(n)) == IntToString(n) && ',' !in IntToString(n)
  {
    var s := IntToString(n);
    IntToStringChars(n);
    forall i | 0 <= i < |s| ensures !IsSpace(s[i]) && s[i] != ',' {
      var c := s[i];
      assert c == '-' || '0' <= c <= '9';
      assert c !in SPACES;
    }
    TrimNoSpace(s);
  }

  lemma TrimNoSpace(s: string)
    requires NoSpace(s)
    ensures Trim(s) == s
  {
  }

  /** Two space-free strings joined by a non-space character have no space. */
  lemma NoSpaceAround(a: string, c: char, b: string)
    requires NoSpace(a) && NoSpace(b) && !IsSpace(c)
    ensures NoSpace(a + [c] + b)
  {
    var s := a + [c] + b;
    forall i | 0 <= i < |s| ensures !IsSpace(s[i]) {
      if i < |a| {
        assert s[i] == a[i];
      } else if i > |a| {
        assert s[i] == b[i - |a| - 1];
      }
    }
  }

  /** A word without whitespace is one piece of `split(/\s+/)`. */
  lemma {:induction false} SplitWsWord(word: string)
    requires NoSpace(word)
    ensures SplitWs(word) == [word]
    decreases |word|
  {
    if |word| > 0 {
      SplitWsWord(word[1..]);
      assert [word[0]] + word[1..] == word;
    }
  }
}
