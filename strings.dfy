/** The PHP string built-ins the plugin's core relies on, on strings of
    single-byte characters: trim, substr from offset 0, strpos, substr_count,
    explode, implode, strtolower, PHP's `empty` on strings, the quote-stripping
    regular expression and the first run of decimal digits. */
module Strings {

  /** A string that PHP's `empty` treats as empty: "" and "0". */
  predicate IsEmpty(s: string) {
    s == "" || s == "0"
  }

  /** The characters PHP's trim removes by default: space, tab, newline,
      carriage return, NUL and vertical tab. */
  predicate IsTrimChar(c: char) {
    c == ' ' || c == '\t' || c == '\n' || c == '\r' || c as int == 0 || c as int == 11
  }

  /** `a` occurs in `b` as a contiguous piece. */
  ghost predicate IsInfix(a: string, b: string) {
    exists i :: InfixAt(a, b, i)
  }

  /** `a` occurs in `b` starting at position `i`. */
  ghost predicate InfixAt(a: string, b: string, i: int) {
    0 <= i <= |b| - |a| && b[i..i + |a|] == a
  }

  /** What ltrim removes: exactly the leading trim characters. */
  function TrimLeft(s: string): (r: string)
    ensures |r| <= |s| && r == s[|s| - |r|..]
    ensures forall k :: 0 <= k < |s| - |r| ==> IsTrimChar(s[k])
    ensures r == [] || !IsTrimChar(r[0])
  {
    if |s| > 0 && IsTrimChar(s[0]) then TrimLeft(s[1..]) else s
  }

  /** What rtrim removes: exactly the trailing trim characters. */
  function TrimRight(s: string): (r: string)
    ensures |r| <= |s| && r == s[..|r|]
    ensures forall k :: |r| <= k < |s| ==> IsTrimChar(s[k])
    ensures r == [] || !IsTrimChar(r[|r| - 1])
  {
    if |s| > 0 && IsTrimChar(s[|s| - 1]) then TrimRight(s[..|s| - 1]) else s
  }

  /** `r` is `s` with some trim characters cut from its front and its end. */
  ghost predicate IsTrimmedPiece(r: string, s: string) {
    exists i, j :: 0 <= i <= j <= |s| && r == s[i..j] &&
      (forall k :: 0 <= k < i ==> IsTrimChar(s[k])) && (forall k :: j <= k < |s| ==> IsTrimChar(s[k]))
  }

  /** PHP trim: no trim character is left at either end. */
  function Trim(s: string): (r: string)
    ensures |r| <= |s|
    ensures r == [] || (!IsTrimChar(r[0]) && !IsTrimChar(r[|r| - 1]))
    ensures IsTrimmedPiece(r, s)
  {
    var l := TrimLeft(s);
    var r := TrimRight(l);
    TrimmedEnds(s, l, r);
    r
  }

  /** Cutting trim characters from the front and then from the back leaves
      a piece of the text with only trim characters around it. */
  lemma TrimmedEnds(s: string, l: string, r: string)
    requires |l| <= |s| && l == s[|s| - |l|..] && forall k :: 0 <= k < |s| - |l| ==> IsTrimChar(s[k])
    requires l == [] || !IsTrimChar(l[0])
    requires |r| <= |l| && r == l[..|r|] && forall k :: |r| <= k < |l| ==> IsTrimChar(l[k])
    ensures r == [] || !IsTrimChar(r[0])
    ensures IsTrimmedPiece(r, s)
  {
    assert r == [] || r[0] == l[0];
    var i := |s| - |l|;
    var j := i + |r|;
    assert r == s[i..j];
    forall k | j <= k < |s|
      ensures IsTrimChar(s[k])
    {
      assert s[k] == l[k - i];
    }
    assert 0 <= i <= j <= |s| && r == s[i..j] &&
           (forall k :: 0 <= k < i ==> IsTrimChar(s[k])) && (forall k :: j <= k < |s| ==> IsTrimChar(s[k]));
  }

  lemma TrimIsInfix(s: string)
    ensures IsInfix(Trim(s), s)
  {
    var l := TrimLeft(s);
    var r := Trim(s);
    var i := |s| - |l|;
    assert s[i..i + |r|] == l[..|r|];
    assert InfixAt(r, s, i);
  }

  lemma {:induction false} TrimLeftKeeps(s: string)
    requires s == [] || !IsTrimChar(s[0])
    ensures TrimLeft(s) == s
  {
  }

  lemma {:induction false} TrimRightKeeps(s: string)
    requires s == [] || !IsTrimChar(s[|s| - 1])
    ensures TrimRight(s) == s
  {
  }

  /** Trimming twice is trimming once. */
  lemma TrimIdempotent(s: string)
    ensures Trim(Trim(s)) == Trim(s)
  {
    var t := Trim(s);
    TrimLeftKeeps(t);
    TrimRightKeeps(t);
  }

  /** substr($s, 0, $n) for a non-negative length. */
  function Prefix(s: string, n: nat): (r: string)
    ensures |r| == if |s| <= n then |s| else n
    ensures r == s[..|r|]
  {
    if |s| <= n then s else s[..n]
  }

  /** preg_replace('/^"(.*)"$/s', '$1', $s): when the text starts with a
      double quote and ends with one (PCRE's `$` also matches just before a
      final newline), the outermost pair is removed. */
  function StripQuotes(s: string): (r: string)
    ensures |r| <= |s|
    ensures |s| >= 2 && s[0] == '"' && s[|s| - 1] == '"' ==> r == s[1..|s| - 1]
    ensures (s == [] || s[0] != '"') ==> r == s
  {
    if |s| >= 2 && s[0] == '"' && s[|s| - 1] == '"' then s[1..|s| - 1]
    else if |s| >= 3 && s[0] == '"' && s[|s| - 1] == '\n' && s[|s| - 2] == '"' then s[1..|s| - 2] + "\n"
    else s
  }

  /** On trimmed text the regular expression removes one enclosing pair of
      quotes and nothing else, and leaves unquoted text alone. */
  lemma StripQuotesOfTrimmed(s: string)
    requires s == Trim(s)
    ensures |s| >= 2 && s[0] == '"' && s[|s| - 1] == '"' ==> StripQuotes(s) == s[1..|s| - 1]
    ensures !(|s| >= 2 && s[0] == '"' && s[|s| - 1] == '"') ==> StripQuotes(s) == s
    ensures IsInfix(StripQuotes(s), s)
  {
    if |s| >= 2 && s[0] == '"' && s[|s| - 1] == '"' {
      assert s[1..1 + |StripQuotes(s)|] == StripQuotes(s);
      assert InfixAt(StripQuotes(s), s, 1);
    } else {
      assert s[0..|s|] == s;
      assert InfixAt(s, s, 0);
    }
  }

  predicate StartsWith(s: string, p: string) {
    |p| <= |s| && s[..|p|] == p
  }

  /** strpos($s, $p) !== false. An empty needle is found (PHP 8). */
  predicate Contains(s: string, p: string)
    decreases |s|
  {
    StartsWith(s, p) || (|s| > 0 && Contains(s[1..], p))
  }

  lemma ContainsIsInfix(s: string, p: string)
    ensures Contains(s, p) <==> IsInfix(p, s)
  {
    if IsInfix(p, s) {
      var i :| InfixAt(p, s, i);
      ContainsAt(s, p, i);
    }
    if Contains(s, p) {
      InfixOfContains(s, p);
    }
  }

  lemma {:induction false} InfixOfContains(s: string, p: string)
    requires Contains(s, p)
    ensures IsInfix(p, s)
    decreases |s|
  {
    if StartsWith(s, p) {
      assert InfixAt(p, s, 0);
    } else {
      InfixOfContains(s[1..], p);
      var i :| InfixAt(p, s[1..], i);
      assert s[i + 1..i + 1 + |p|] == s[1..][i..i + |p|];
      assert InfixAt(p, s, i + 1);
    }
  }

  lemma {:induction false} ContainsAt(s: string, p: string, i: int)
    requires InfixAt(p, s, i)
    ensures Contains(s, p)
    decreases i
  {
    if i > 0 {
      assert s[1..][i - 1..i - 1 + |p|] == s[i..i + |p|];
      ContainsAt(s[1..], p, i - 1);
    } else {
      assert StartsWith(s, p);
    }
  }

  /** substr_count: the number of non-overlapping occurrences of `p`,
      scanning from the left. PHP refuses an empty needle. */
  function SubstrCount(s: string, p: string): (n: nat)
    requires |p| > 0
    ensures n * |p| <= |s|
    decreases |s|
  {
    if |s| < |p| then 0
    else if s[..|p|] == p then 1 + SubstrCount(s[|p|..], p)
    else SubstrCount(s[1..], p)
  }

  /** The needle is counted at least once exactly when strpos finds it. */
  lemma {:induction false} SubstrCountPositive(s: string, p: string)
    requires |p| > 0
    ensures SubstrCount(s, p) > 0 <==> Contains(s, p)
    decreases |s|
  {
    if |s| < |p| {
      NotContainsShort(s, p);
    } else if s[..|p|] != p {
      SubstrCountPositive(s[1..], p);
    }
  }

  lemma {:induction false} NotContainsShort(s: string, p: string)
    requires |s| < |p|
    ensures !Contains(s, p)
    decreases |s|
  {
    if |s| > 0 {
      NotContainsShort(s[1..], p);
    }
  }

  /** explode($sep, $s) for a one-character separator. */
  function Split(s: string, sep: char): (parts: seq<string>)
    ensures |parts| >= 1
    ensures forall i, k :: 0 <= i < |parts| && 0 <= k < |parts[i]| ==> parts[i][k] != sep
  {
    if s == [] then [""]
    else
      var rest := Split(s[1..], sep);
      if s[0] == sep then [""] + rest
      else [[s[0]] + rest[0]] + rest[1..]
  }

  /** implode($glue, $parts). */
  function Implode(parts: seq<string>, glue: string): string {
    if |parts| == 0 then ""
    else if |parts| == 1 then parts[0]
    else parts[0] + glue + Implode(parts[1..], glue)
  }

  /** Splitting and gluing back with the same separator gives the text back. */
  lemma {:induction false} ImplodeSplit(s: string, sep: char)
    ensures Implode(Split(s, sep), [sep]) == s
  {
    if s != [] {
      var rest := Split(s[1..], sep);
      ImplodeSplit(s[1..], sep);
      if s[0] == sep {
        assert Split(s, sep) == [""] + rest;
        assert Implode([""] + rest, [sep]) == "" + [sep] + Implode(rest, [sep]);
      } else {
        var parts := Split(s, sep);
        assert parts == [[s[0]] + rest[0]] + rest[1..];
        if |rest| == 1 {
          assert parts == [[s[0]] + rest[0]];
        } else {
          assert parts[1..] == rest[1..];
          assert Implode(rest, [sep]) == rest[0] + [sep] + Implode(rest[1..], [sep]);
        }
      }
    }
  }

  /** strtolower on ASCII letters. */
  function LowerChar(c: char): char {
    if 'A' <= c <= 'Z' then (c as int + 32) as char else c
  }

  function ToLower(s: string): (r: string)
    ensures |r| == |s|
    ensures forall k :: 0 <= k < |s| ==> r[k] == LowerChar(s[k])
  {
    seq(|s|, k requires 0 <= k < |s| => LowerChar(s[k]))
  }

  predicate IsLower(s: string) {
    forall k :: 0 <= k < |s| ==> !('A' <= s[k] <= 'Z')
  }

  lemma ToLowerIsLower(s: string)
    ensures IsLower(ToLower(s))
    ensures IsLower(s) ==> ToLower(s) == s
  {
  }

  /** PCRE `\d` without the u flag: an ASCII digit. */
  predicate IsDigit(c: char) {
    '0' <= c <= '9'
  }

  predicate AllDigits(s: string) {
    forall k :: 0 <= k < |s| ==> IsDigit(s[k])
  }

  /** The leading run of digits of `s`, as long as possible. */
  function DigitPrefix(s: string): (r: string)
    ensures |r| <= |s| && r == s[..|r|] && AllDigits(r)
    ensures |r| == |s| || !IsDigit(s[|r|])
  {
    if |s| > 0 && IsDigit(s[0]) then [s[0]] + DigitPrefix(s[1..]) else ""
  }

  /** `s` from its first digit on ("" when it has none). */
  function FromFirstDigit(s: string): (r: string)
    ensures |r| <= |s| && r == s[|s| - |r|..]
    ensures forall k :: 0 <= k < |s| - |r| ==> !IsDigit(s[k])
    ensures r == [] || IsDigit(r[0])
  {
    if |s| > 0 && !IsDigit(s[0]) then
      var r := FromFirstDigit(s[1..]);
      assert forall k :: 0 < k < |s| - |r| ==> s[k] == s[1..][k - 1];
      r
    else s
  }

  /** The match of preg_match('/(\d+)/'): the first maximal digit run, or ""
      when the text has no digit. */
  function FirstDigitRun(s: string): (r: string)
    ensures AllDigits(r)
    ensures r == [] <==> (forall k :: 0 <= k < |s| ==> !IsDigit(s[k]))
  {
    DigitPrefix(FromFirstDigit(s))
  }

  function DigitValue(c: char): nat
    requires IsDigit(c)
  {
    c as int - '0' as int
  }

  /** The number a run of decimal digits denotes (leading zeros allowed). */
  function DecimalValue(ds: string): nat
    requires AllDigits(ds)
  {
    if ds == [] then 0 else DecimalValue(ds[..|ds| - 1]) * 10 + DigitValue(ds[|ds| - 1])
  }

  /** The shortest decimal spelling of `n`. */
  function Decimal(n: nat): (r: string)
    ensures |r| > 0 && AllDigits(r)
  {
    var d := ['0' + (n % 10) as char];
    if n < 10 then d else Decimal(n / 10) + d
  }

  lemma {:induction false} DecimalRoundTrip(n: nat)
    ensures DecimalValue(Decimal(n)) == n
  {
    var d := ['0' + (n % 10) as char];
    if n >= 10 {
      DecimalRoundTrip(n / 10);
      assert (Decimal(n / 10) + d)[..|Decimal(n)| - 1] == Decimal(n / 10);
    }
  }

  /** The first digit run of `prefix + digits + suffix`, when `prefix` has no
      digit and `suffix` does not continue the run, is `digits`. */
  lemma {:induction false} FirstDigitRunOf(prefix: string, digits: string, suffix: string)
    requires forall k :: 0 <= k < |prefix| ==> !IsDigit(prefix[k])
    requires |digits| > 0 && AllDigits(digits)
    requires suffix == [] || !IsDigit(suffix[0])
    ensures FirstDigitRun(prefix + digits + suffix) == digits
  {
    var rest := digits + suffix;
    assert prefix + digits + suffix == prefix + rest;
    FromFirstDigitSkips(prefix, rest);
    DigitPrefixOf(digits, suffix);
  }

  lemma {:induction false} FromFirstDigitSkips(prefix: string, rest: string)
    requires forall k :: 0 <= k < |prefix| ==> !IsDigit(prefix[k])
    requires |rest| > 0 && IsDigit(rest[0])
    ensures FromFirstDigit(prefix + rest) == rest
  {
    if |prefix| > 0 {
      assert (prefix + rest)[1..] == prefix[1..] + rest;
      FromFirstDigitSkips(prefix[1..], rest);
    }
  }

  lemma {:induction false} DigitPrefixOf(digits: string, suffix: string)
    requires AllDigits(digits)
    requires suffix == [] || !IsDigit(suffix[0])
    ensures DigitPrefix(digits + suffix) == digits
  {
    if |digits| > 0 {
      assert (digits + suffix)[1..] == digits[1..] + suffix;
      DigitPrefixOf(digits[1..], suffix);
    }
  }
}
