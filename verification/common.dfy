/** Shared vocabulary of the model: optional values, results, settled
    promises, and the handful of JavaScript string operations the remote
    test tooling relies on (parseInt, String.prototype.replace, split,
    indexOf, toUpperCase), written out so that their edge cases are part
    of the model. */
module Common {

  datatype Option<T> = None | Some(value: T)

  /** The outcome of a step that either produces a value or throws. */
  datatype Result<T> = Ok(value: T) | Err(message: string)

  /** Why a promise was rejected: an Error with a message, a raw HTTP
      response object whose status code was not the expected one, or a
      transport-level failure reported by the HTTP library. */
  datatype Failure = ErrorMessage(message: string) | HttpResponse(statusCode: int) | Transport(detail: string)

  /** The eventual state of a promise. `Pending` stands for a promise that
      never settles under the inputs given (a poll that never sees a final
      status, a step whose completion handler is never called). */
  datatype Promise<T> = Resolved(value: T) | Rejected(reason: Failure) | Pending

  /** What an HTTP request produced: a transport error, or a response with a
      status code and a (decoded) body. */
  datatype HttpResult<T> = TransportError(detail: string) | Http(statusCode: int, body: T)

  /** Line separator used when messages are built with os.EOL; the model
      fixes the POSIX value. */
  const EOL: string := "\n"

  /** JavaScript truthiness of an optional string: present and non-empty. */
  predicate Truthy(s: Option<string>) {
    s.Some? && s.value != ""
  }

  /** An optional string as `util.format("%s")` or `+` prints it:
      "undefined" when unset. */
  function Formatted(name: Option<string>): string {
    if name.Some? then name.value else "undefined"
  }

  // ---------------------------------------------------------------------
  // Numbers as text

  predicate IsDigit(c: char) {
    '0' <= c <= '9'
  }

  predicate IsHexDigit(c: char) {
    IsDigit(c) || 'a' <= c <= 'f' || 'A' <= c <= 'F'
  }

  function DigitValue(c: char): (d: nat)
    requires IsHexDigit(c)
    ensures IsDigit(c) ==> d < 10
    ensures d < 16
  {
    if IsDigit(c) then (c as int) - ('0' as int)
    else if 'a' <= c <= 'f' then (c as int) - ('a' as int) + 10
    else (c as int) - ('A' as int) + 10
  }

  function DigitChar(d: nat): (c: char)
    requires d < 10
    ensures IsDigit(c) && DigitValue(c) == d
  {
    (('0' as int) + d) as char
  }

  /** Decimal rendering of a natural number, as `"" + n` gives it. */
  function NatToString(n: nat): (s: string)
    ensures |s| > 0
    decreases n
  {
    if n < 10 then [DigitChar(n)] else NatToString(n / 10) + [DigitChar(n % 10)]
  }

  /** Decimal rendering of an integer, as `"" + n` and `%d` give it. */
  function IntToString(n: int): string {
    if n < 0 then "-" + NatToString(-n) else NatToString(n)
  }

  /** The longest prefix of `s` made of digits of the given base (10 or 16). */
  function DigitRun(s: string, hex: bool): (d: string)
    ensures d <= s
    ensures forall i :: 0 <= i < |d| ==> (if hex then IsHexDigit(d[i]) else IsDigit(d[i]))
    ensures |d| < |s| ==> !(if hex then IsHexDigit(s[|d|]) else IsDigit(s[|d|]))
  {
    if s != [] && (if hex then IsHexDigit(s[0]) else IsDigit(s[0])) then [s[0]] + DigitRun(s[1..], hex) else []
  }

  /** The value of a run of digits in the given base. */
  function DigitsValue(d: string, base: nat): nat
    requires base == 10 || base == 16
    requires forall i :: 0 <= i < |d| ==> IsHexDigit(d[i])
  {
    if d == [] then 0 else DigitsValue(d[..|d| - 1], base) * base + DigitValue(d[|d| - 1])
  }

  /** The characters `parseInt` skips before a number: white space and
      line terminators as JavaScript defines them (the space separators of
      Unicode among them). */
  predicate IsJsWhitespace(c: char) {
    || c == ' ' || c == '\t' || c == '\n' || c == '\r' || c == '\U{0B}' || c == '\U{0C}'
    || c == '\U{A0}' || c == '\U{FEFF}' || c == '\U{1680}' || '\U{2000}' <= c <= '\U{200A}'
    || c == '\U{2028}' || c == '\U{2029}' || c == '\U{202F}' || c == '\U{205F}' || c == '\U{3000}'
  }

  function TrimStart(s: string): (t: string)
    ensures |t| <= |s|
    ensures t == [] || !IsJsWhitespace(t[0])
  {
    if s != [] && IsJsWhitespace(s[0]) then TrimStart(s[1..]) else s
  }

  /** The radix argument of parseInt: `Auto` is an absent radix or 0 (base
      16 after a "0x" prefix, otherwise 10); `Decimal` is an explicit 10. */
  datatype Radix = Auto | Decimal

  /** JavaScript `parseInt`: leading white space is skipped, one sign is
      accepted, then the longest run of digits is read; no digit at all
      gives NaN, modelled as None. */
  function ParseInt(s: string, radix: Radix): (r: Option<int>)
  {
    var t := TrimStart(s);
    var negative := t != [] && t[0] == '-';
    var u := if t != [] && (t[0] == '-' || t[0] == '+') then t[1..] else t;
    var hex := radix == Auto && |u| >= 2 && u[0] == '0' && (u[1] == 'x' || u[1] == 'X');
    var body := if hex then u[2..] else u;
    var d := DigitRun(body, hex);
    if d == [] then None
    else
      var v: int := DigitsValue(d, if hex then 16 else 10);
      Some(if negative then -v else v)
  }

  lemma {:induction false} NatToStringDigits(n: nat)
    ensures forall i :: 0 <= i < |NatToString(n)| ==> IsDigit(NatToString(n)[i])
    decreases n
  {
    if n >= 10 {
      NatToStringDigits(n / 10);
    }
  }

  lemma {:induction false} DigitRunOfDigits(s: string, hex: bool)
    requires forall i :: 0 <= i < |s| ==> IsDigit(s[i])
    ensures DigitRun(s, hex) == s
  {
    if s != [] {
      DigitRunOfDigits(s[1..], hex);
    }
  }

  lemma {:induction false} NatToStringValue(n: nat)
    ensures forall i :: 0 <= i < |NatToString(n)| ==> IsHexDigit(NatToString(n)[i])
    ensures DigitsValue(NatToString(n), 10) == n
    decreases n
  {
    NatToStringDigits(n);
    if n >= 10 {
      NatToStringValue(n / 10);
      var s := NatToString(n);
      assert s[..|s| - 1] == NatToString(n / 10);
    }
  }

  /** Rendering a natural number and reading it back with parseInt (radix 10
      or no radix) gives the number again. */
  lemma ParseNatToString(n: nat, radix: Radix)
    ensures ParseInt(NatToString(n), radix) == Some(n)
  {
    var s := NatToString(n);
    NatToStringDigits(n);
    NatToStringValue(n);
    assert IsDigit(s[0]);
    assert TrimStart(s) == s;
    assert !(s[0] == '-' || s[0] == '+');
    assert !(|s| >= 2 && s[0] == '0' && (s[1] == 'x' || s[1] == 'X')) by {
      if |s| >= 2 { assert IsDigit(s[1]); }
    }
    DigitRunOfDigits(s, false);
  }

  /** Different natural numbers have different renderings. */
  lemma NatToStringInjective(m: nat, n: nat)
    requires m != n
    ensures NatToString(m) != NatToString(n)
  {
    ParseNatToString(m, Decimal);
    ParseNatToString(n, Decimal);
  }

  /** Different integers have different renderings. */
  lemma IntToStringInjective(m: int, n: int)
    requires m != n
    ensures IntToString(m) != IntToString(n)
  {
    if m >= 0 && n >= 0 {
      NatToStringInjective(m, n);
    } else if m < 0 && n < 0 {
      NatToStringInjective(-m, -n);
      assert IntToString(m)[1..] == NatToString(-m);
      assert IntToString(n)[1..] == NatToString(-n);
    } else {
      var p := if m >= 0 then m else n;
      var q := if m >= 0 then n else m;
      NatToStringDigits(p);
      assert IntToString(p)[0] != '-';
      assert IntToString(q)[0] == '-';
    }
  }

  /** `process.env[key]`: undefined (None) when the key is absent. */
  function Lookup(env: map<string, string>, key: string): (v: Option<string>)
    ensures v.Some? <==> key in env
    ensures v.Some? ==> v.value == env[key]
  {
    if key in env then Some(env[key]) else None
  }

  // ---------------------------------------------------------------------
  // Searching and replacing

  /** `s.indexOf(t) >= 0`. */
  predicate Contains(s: string, t: string)
    decreases |s|
  {
    t <= s || (s != [] && Contains(s[1..], t))
  }

  lemma {:induction false} ContainsInside(a: string, t: string, b: string)
    ensures Contains(a + t + b, t)
    decreases |a|
  {
    if a != [] {
      assert (a + t + b)[1..] == a[1..] + t + b;
      ContainsInside(a[1..], t, b);
    } else {
      assert t <= t + b;
    }
  }

  /** Text before a string that contains `t` keeps it contained. */
  lemma {:induction false} ContainsAfter(a: string, s: string, t: string)
    requires Contains(s, t)
    ensures Contains(a + s, t)
    decreases |a|
  {
    if a != [] {
      assert (a + s)[1..] == a[1..] + s;
      ContainsAfter(a[1..], s, t);
    } else {
      assert a + s == s;
    }
  }

  /** Text after a string that contains `t` keeps it contained. */
  lemma {:induction false} ContainsBefore(s: string, b: string, t: string)
    requires Contains(s, t)
    ensures Contains(s + b, t)
    decreases |s|
  {
    if !(t <= s) {
      assert (s + b)[1..] == s[1..] + b;
      ContainsBefore(s[1..], b, t);
    }
  }

  /** The collected standard error of a failed child process, when there
      is some. */
  function StderrSection(errorOutput: string): string {
    if errorOutput != "" then EOL + "stderr:" + EOL + errorOutput else ""
  }

  /** The reason given for a child process's non-zero exit code. */
  function ExitReason(code: int, errorOutput: string): string {
    "Exit code: " + IntToString(code) + StderrSection(errorOutput)
  }

  /** The reason carries the error output whenever there is some. */
  lemma ExitReasonMentions(code: int, errorOutput: string)
    ensures errorOutput != "" ==> Contains(ExitReason(code, errorOutput), errorOutput)
  {
    if errorOutput != "" {
      assert Contains(errorOutput, errorOutput);
      ContainsAfter(EOL + "stderr:" + EOL, errorOutput, errorOutput);
      ContainsAfter("Exit code: " + IntToString(code), StderrSection(errorOutput), errorOutput);
    }
  }

  /** `s.indexOf(c)` for a one-character needle: the first position of `c`,
      or -1. */
  function IndexOfChar(s: string, c: char): (i: int)
    ensures -1 <= i < |s|
    ensures i >= 0 ==> s[i] == c
  {
    if s == [] then -1
    else if s[0] == c then 0
    else
      var j := IndexOfChar(s[1..], c);
      if j == -1 then -1 else j + 1
  }

  /** `IndexOfChar` finds the first `c`: none occurs before it, and none at
      all when it answers -1. */
  lemma {:induction false} IndexOfCharFirst(s: string, c: char)
    ensures forall k :: 0 <= k < |s| && (IndexOfChar(s, c) == -1 || k < IndexOfChar(s, c)) ==> s[k] != c
    decreases |s|
  {
    if s != [] && s[0] != c {
      var t := s[1..];
      IndexOfCharFirst(t, c);
      forall k | 0 <= k < |s| && (IndexOfChar(s, c) == -1 || k < IndexOfChar(s, c)) ensures s[k] != c {
        if k > 0 {
          assert s[k] == t[k - 1];
        }
      }
    }
  }

  /** Conversely, a position holding `c` with no `c` before it is what
      `IndexOfChar` answers, and so is -1 for a text without `c`. */
  lemma {:induction false} IndexOfCharIs(s: string, c: char, i: int)
    requires -1 <= i < |s| && (i >= 0 ==> s[i] == c)
    requires forall k :: 0 <= k < |s| && (i == -1 || k < i) ==> s[k] != c
    ensures IndexOfChar(s, c) == i
    decreases |s|
  {
    if s != [] && s[0] != c {
      var t := s[1..];
      var j := if i == -1 then -1 else i - 1;
      forall k | 0 <= k < |t| && (j == -1 || k < j) ensures t[k] != c {
        assert t[k] == s[k + 1];
      }
      IndexOfCharIs(t, c, j);
    }
  }

  /** `s.replace(t, r)` with a string pattern: the first (leftmost)
      occurrence of `t` is replaced; an empty pattern matches at 0. The
      `$`-sequences of a replacement string are not modelled. */
  function ReplaceFirst(s: string, t: string, r: string): string
    decreases |s|
  {
    if t <= s then r + s[|t|..]
    else if s == [] then s
    else [s[0]] + ReplaceFirst(s[1..], t, r)
  }

  /** `s.replace(new RegExp(t, "g"), r)` for a token without regular
      expression metacharacters: every non-overlapping occurrence, left to
      right, is replaced; an empty token matches between every pair of
      characters and at both ends. */
  function ReplaceAll(s: string, t: string, r: string): string
    decreases |s|
  {
    if t == [] then (if s == [] then r else r + [s[0]] + ReplaceAll(s[1..], t, r))
    else if t <= s then r + ReplaceAll(s[|t|..], t, r)
    else if s == [] then s
    else [s[0]] + ReplaceAll(s[1..], t, r)
  }

  /** `s.replace(/a/g, b)` for a single character. */
  function ReplaceChar(s: string, a: char, b: char): (u: string)
    ensures |u| == |s|
    ensures forall i :: 0 <= i < |s| ==> u[i] == (if s[i] == a then b else s[i])
  {
    if s == [] then [] else [if s[0] == a then b else s[0]] + ReplaceChar(s[1..], a, b)
  }

  /** A token that does not occur in a string leaves it unchanged under
      either kind of replacement. */
  lemma {:induction false} ReplaceAbsent(s: string, t: string, r: string)
    requires t != [] && !Contains(s, t)
    ensures ReplaceFirst(s, t, r) == s && ReplaceAll(s, t, r) == s
    decreases |s|
  {
    if s != [] {
      ReplaceAbsent(s[1..], t, r);
    }
  }

  /** A token without `c` that is not a prefix of `a` is not a prefix of
      anything that continues `a` with `c`. */
  lemma NotPrefixAcross(a: string, c: char, b: string, t: string)
    requires c !in t && !(t <= a)
    ensures !(t <= a + [c] + b)
  {
    var s := a + [c] + b;
    if |a| < |t| {
      assert t[|a|] != c;
      if |t| <= |s| {
        assert s[|a|] == c;
      }
    } else {
      assert a[..|t|] != t;
      assert s[..|t|] == a[..|t|];
    }
  }

  /** With a token that does not contain `c`, global replacement works
      independently on both sides of a `c`. */
  lemma {:induction false} ReplaceAllSplitsAt(a: string, c: char, b: string, t: string, r: string)
    requires t != [] && c !in t
    ensures ReplaceAll(a + [c] + b, t, r) == ReplaceAll(a, t, r) + [c] + ReplaceAll(b, t, r)
    decreases |a|
  {
    if t <= a {
      ReplaceAllSplitsAt(a[|t|..], c, b, t, r);
      ReplaceAllSplitsAfterToken(a, c, b, t, r);
    } else {
      NotPrefixAcross(a, c, b, t);
      if a == [] {
        ReplaceAllSplitsAtEmpty(c, b, t, r);
      } else {
        ReplaceAllSplitsAt(a[1..], c, b, t, r);
        ReplaceAllSplitsAfterChar(a, c, b, t, r);
      }
    }
  }

  lemma ReplaceAllSplitsAfterToken(a: string, c: char, b: string, t: string, r: string)
    requires t != [] && t <= a
    requires ReplaceAll(a[|t|..] + [c] + b, t, r) == ReplaceAll(a[|t|..], t, r) + [c] + ReplaceAll(b, t, r)
    ensures ReplaceAll(a + [c] + b, t, r) == ReplaceAll(a, t, r) + [c] + ReplaceAll(b, t, r)
  {
    var s := a + [c] + b;
    PrefixAcross(a, c, b, t);
    var x, y := ReplaceAll(a[|t|..], t, r), ReplaceAll(b, t, r);
    assert ReplaceAll(s, t, r) == r + (x + [c] + y);
    assert ReplaceAll(a, t, r) == r + x;
    ConcatAssoc4(r, x, [c], y);
  }

  lemma PrefixAcross(a: string, c: char, b: string, t: string)
    requires t <= a
    ensures t <= a + [c] + b && (a + [c] + b)[|t|..] == a[|t|..] + [c] + b
  {
  }

  lemma ReplaceAllSplitsAfterChar(a: string, c: char, b: string, t: string, r: string)
    requires t != [] && a != [] && !(t <= a) && !(t <= a + [c] + b)
    requires ReplaceAll(a[1..] + [c] + b, t, r) == ReplaceAll(a[1..], t, r) + [c] + ReplaceAll(b, t, r)
    ensures ReplaceAll(a + [c] + b, t, r) == ReplaceAll(a, t, r) + [c] + ReplaceAll(b, t, r)
  {
    var s := a + [c] + b;
    assert s[0] == a[0];
    assert s[1..] == a[1..] + [c] + b;
    var x, y := ReplaceAll(a[1..], t, r), ReplaceAll(b, t, r);
    assert ReplaceAll(s, t, r) == [a[0]] + (x + [c] + y);
    assert ReplaceAll(a, t, r) == [a[0]] + x;
    ConcatAssoc4([a[0]], x, [c], y);
  }

  lemma ReplaceAllSplitsAtEmpty(c: char, b: string, t: string, r: string)
    requires t != [] && !(t <= [] + [c] + b)
    ensures ReplaceAll([] + [c] + b, t, r) == ReplaceAll([], t, r) + [c] + ReplaceAll(b, t, r)
  {
    var s := [] + [c] + b;
    assert s[0] == c && s[1..] == b;
  }

  lemma ConcatAssoc4<T>(w: seq<T>, x: seq<T>, y: seq<T>, z: seq<T>)
    ensures w + (x + y + z) == (w + x) + y + z
  {
  }

  // ---------------------------------------------------------------------
  // Splitting and joining

  /** `s.split(c)` for a one-character separator: the pieces between the
      separators, always at least one. */
  function Split(s: string, c: char): (parts: seq<string>)
    ensures |parts| >= 1
    decreases |s|
  {
    var i := IndexOfChar(s, c);
    if i == -1 then [s] else [s[..i]] + Split(s[i + 1..], c)
  }

  /** No part of a split holds the separator. */
  lemma {:induction false} SplitPartsFree(s: string, c: char)
    ensures forall i :: 0 <= i < |Split(s, c)| ==> c !in Split(s, c)[i]
    decreases |s|
  {
    var i := IndexOfChar(s, c);
    IndexOfCharFirst(s, c);
    if i != -1 {
      SplitPartsFree(s[i + 1..], c);
      SplitAtBreak(s, c, i);
      var rest := Split(s[i + 1..], c);
      forall k | 0 <= k < |Split(s, c)|
        ensures c !in Split(s, c)[k]
      {
        if k == 0 {
          assert Split(s, c)[0] == s[..i];
          forall m | 0 <= m < i ensures s[..i][m] != c {
            assert s[..i][m] == s[m];
          }
        } else {
          assert Split(s, c)[k] == rest[k - 1];
        }
      }
    } else {
      assert Split(s, c) == [s];
    }
  }

  /** `parts.join(sep)`. */
  function JoinWith(parts: seq<string>, sep: string): string {
    if parts == [] then ""
    else if |parts| == 1 then parts[0]
    else parts[0] + sep + JoinWith(parts[1..], sep)
  }

  /** Splitting then joining with the same separator gives the input back. */
  lemma {:induction false} SplitJoin(s: string, c: char)
    ensures JoinWith(Split(s, c), [c]) == s
    decreases |s|
  {
    var i := IndexOfChar(s, c);
    if i != -1 {
      var rest := s[i + 1..];
      SplitJoin(rest, c);
      var parts := Split(s, c);
      SplitAtBreak(s, c, i);
      assert parts[1..] == Split(rest, c);
      assert JoinWith(parts, [c]) == s[..i] + [c] + JoinWith(Split(rest, c), [c]);
      BreakAt(s, i);
    }
  }

  /** Splitting at `c` and joining with `d` replaces every `c` by `d`. */
  lemma {:induction false} SplitJoinReplaces(s: string, c: char, d: char)
    ensures JoinWith(Split(s, c), [d]) == ReplaceChar(s, c, d)
    decreases |s|
  {
    var i := IndexOfChar(s, c);
    IndexOfCharFirst(s, c);
    if i == -1 {
      assert Split(s, c) == [s];
      assert ReplaceChar(s, c, d) == s;
    } else {
      var rest := s[i + 1..];
      SplitJoinReplaces(rest, c, d);
      SplitAtBreak(s, c, i);
      var parts := Split(s, c);
      assert parts[1..] == Split(rest, c);
      assert JoinWith(parts, [d]) == s[..i] + [d] + JoinWith(Split(rest, c), [d]);
      ReplaceCharAtBreak(s, c, d, i);
    }
  }

  lemma ReplaceCharAtBreak(s: string, c: char, d: char, i: int)
    requires 0 <= i < |s| && s[i] == c
    requires forall k :: 0 <= k < i ==> s[k] != c
    ensures ReplaceChar(s, c, d) == s[..i] + [d] + ReplaceChar(s[i + 1..], c, d)
  {
    var u, v := ReplaceChar(s, c, d), s[..i] + [d] + ReplaceChar(s[i + 1..], c, d);
    assert |u| == |v|;
    forall k | 0 <= k < |u|
      ensures u[k] == v[k]
    {
      if k > i {
        assert v[k] == ReplaceChar(s[i + 1..], c, d)[k - i - 1];
      }
    }
  }

  /** Where `c` first occurs, the split takes the text before it as its
      first part and splits the rest. */
  lemma SplitAtBreak(s: string, c: char, i: int)
    requires i == IndexOfChar(s, c) && i != -1
    ensures Split(s, c) == [s[..i]] + Split(s[i + 1..], c)
  {
  }

  lemma BreakAt<T>(s: seq<T>, i: int)
    requires 0 <= i < |s|
    ensures s == s[..i] + [s[i]] + s[i + 1..]
  {
    assert s == s[..i] + s[i..];
  }

  /** Appending text to the input changes its split only from the last
      piece on: the complete pieces stay, and the last one is split again
      together with the new text. */
  lemma {:induction false} SplitAppend(a: string, b: string, c: char)
    ensures var p := Split(a, c);
            Split(a + b, c) == p[..|p| - 1] + Split(p[|p| - 1] + b, c)
    decreases |a|
  {
    var i := IndexOfChar(a, c);
    if i == -1 {
      var p := Split(a, c);
      assert p == [a];
      assert p[..|p| - 1] == [];
    } else {
      SplitAppend(a[i + 1..], b, c);
      SplitAppendStep(a, b, c, i);
    }
  }

  /** The step of `SplitAppend` at the first `c`, given the property for
      the text after it. */
  lemma SplitAppendStep(a: string, b: string, c: char, i: int)
    requires i == IndexOfChar(a, c) && i != -1
    requires var q := Split(a[i + 1..], c);
             Split(a[i + 1..] + b, c) == q[..|q| - 1] + Split(q[|q| - 1] + b, c)
    ensures var p := Split(a, c);
            Split(a + b, c) == p[..|p| - 1] + Split(p[|p| - 1] + b, c)
  {
    var q := Split(a[i + 1..], c);
    SplitAppendHead(a, b, c, i);
    SplitAtBreak(a, c, i);
    var p := Split(a, c);
    LastOfCons(a[..i], q, p);
    AppendAssemble(a[..i], q, p, Split(a + b, c), Split(q[|q| - 1] + b, c), Split(p[|p| - 1] + b, c));
  }

  /** Text appended after the first `c` stays after it. */
  lemma SplitAppendHead(a: string, b: string, c: char, i: int)
    requires i == IndexOfChar(a, c) && i != -1
    ensures Split(a + b, c) == [a[..i]] + Split(a[i + 1..] + b, c)
  {
    IndexOfCharExtends(a, b, c, i);
    SplitAtBreak(a + b, c, i);
    AppendSlices(a, b, i);
  }

  lemma AppendSlices<T>(a: seq<T>, b: seq<T>, i: int)
    requires 0 <= i < |a|
    ensures (a + b)[..i] == a[..i] && (a + b)[i + 1..] == a[i + 1..] + b
  {
  }

  /** The sequence algebra behind `SplitAppendStep`. */
  lemma AppendAssemble<T>(h: T, q: seq<T>, p: seq<T>, whole: seq<T>, last: seq<T>, last': seq<T>)
    requires q != [] && p == [h] + q && whole == [h] + (q[..|q| - 1] + last) && last' == last
    ensures whole == p[..|p| - 1] + last'
  {
    assert p[..|p| - 1] == [h] + q[..|q| - 1];
  }

  lemma LastOfCons<T>(h: T, q: seq<T>, p: seq<T>)
    requires q != [] && p == [h] + q
    ensures p[|p| - 1] == q[|q| - 1]
  {
  }

  /** The first `c` of a text is still the first after more text follows. */
  lemma IndexOfCharExtends(a: string, b: string, c: char, i: int)
    requires i == IndexOfChar(a, c) && i != -1
    ensures IndexOfChar(a + b, c) == i
  {
    var ab := a + b;
    IndexOfCharFirst(a, c);
    forall k | 0 <= k < |ab| && k < i ensures ab[k] != c {
      assert ab[k] == a[k];
    }
    assert ab[i] == c;
    IndexOfCharIs(ab, c, i);
  }

  /** The position of `c` in a text that continues a piece without `c` is
      found after that piece. */
  lemma IndexOfCharAfter(x: string, b: string, c: char)
    requires c !in x
    ensures IndexOfChar(x + b, c) == (if IndexOfChar(b, c) == -1 then -1 else |x| + IndexOfChar(b, c))
  {
    var s := x + b;
    var j := IndexOfChar(b, c);
    IndexOfCharFirst(b, c);
    var i := if j == -1 then -1 else |x| + j;
    forall k | 0 <= k < |s| && (i == -1 || k < i) ensures s[k] != c {
      if k < |x| {
        assert s[k] == x[k];
      } else {
        assert s[k] == b[k - |x|];
      }
    }
    if j != -1 {
      assert s[|x| + j] == c;
    }
    IndexOfCharIs(s, c, i);
  }

  /** Splitting a piece without the separator followed by more text: the
      piece is glued to the front of the first part. */
  lemma SplitAfterPiece(x: string, b: string, c: char)
    requires c !in x
    ensures var p := Split(b, c); Split(x + b, c) == [x + p[0]] + p[1..]
  {
    IndexOfCharAfter(x, b, c);
    var j := IndexOfChar(b, c);
    if j == -1 {
      var p := Split(b, c);
      assert p == [b];
      assert p[1..] == [];
    } else {
      SplitAfterPieceAt(x, b, c, j);
    }
  }

  lemma SplitAfterPieceAt(x: string, b: string, c: char, j: int)
    requires j == IndexOfChar(b, c) && j != -1
    requires IndexOfChar(x + b, c) == |x| + j
    ensures var p := Split(b, c); Split(x + b, c) == [x + p[0]] + p[1..]
  {
    SplitAtBreak(b, c, j);
    SplitAtBreak(x + b, c, |x| + j);
    AppendSlicesAfter(x, b, j);
    ConsParts(b[..j], Split(b[j + 1..], c), Split(b, c));
  }

  lemma AppendSlicesAfter<T>(x: seq<T>, b: seq<T>, j: int)
    requires 0 <= j < |b|
    ensures (x + b)[..|x| + j] == x + b[..j] && (x + b)[|x| + j + 1..] == b[j + 1..]
  {
  }

  lemma ConsParts<T>(h: T, r: seq<T>, p: seq<T>)
    requires p == [h] + r
    ensures p[0] == h && p[1..] == r
  {
  }

  lemma ConcatAssoc<T>(a: seq<T>, b: seq<T>, c: seq<T>)
    ensures (a + b) + c == a + (b + c)
  {
  }

  // ---------------------------------------------------------------------
  // Promise chains

  /** Applies `f` to the value of a resolved promise. */
  function MapPromise<A, B>(p: Promise<A>, f: A -> B): (q: Promise<B>)
    ensures q.Resolved? <==> p.Resolved?
    ensures p.Rejected? ==> q == Rejected(p.reason)
  {
    match p
    case Resolved(v) => Resolved(f(v))
    case Rejected(e) => Rejected(e)
    case Pending => Pending
  }

  /** `p.then(() => next)`: `next` starts only once `p` resolved; otherwise
      the settlement of `p` (or its absence) is passed on. */
  function Then<T>(p: Promise<T>, next: Promise<T>): Promise<T> {
    if p.Resolved? then next else p
  }

  /** `steps.reduce((previous, step) => previous.then(() => step), start)`,
      where `steps[i]` is how step `i` would settle once started. */
  function ChainSteps<T>(start: Promise<T>, steps: seq<Promise<T>>): Promise<T>
    decreases |steps|
  {
    if steps == [] then start else ChainSteps(Then(start, steps[0]), steps[1..])
  }

  /** How many steps of such a chain are started. */
  function StepsStarted<T>(start: Promise<T>, steps: seq<Promise<T>>): nat
    decreases |steps|
  {
    if steps == [] || !start.Resolved? then 0 else 1 + StepsStarted(steps[0], steps[1..])
  }

  /** The index of the first step that does not resolve, or the number of
      steps when all do. */
  function FirstUnresolved<T>(steps: seq<Promise<T>>): (k: nat)
    ensures k <= |steps|
    ensures forall i :: 0 <= i < k ==> steps[i].Resolved?
    ensures k < |steps| ==> !steps[k].Resolved?
  {
    if steps == [] then 0
    else if !steps[0].Resolved? then 0
    else 1 + FirstUnresolved(steps[1..])
  }

  /** A chain that does not start passes its start on and starts nothing. */
  lemma {:induction false} ChainBlocked<T>(start: Promise<T>, steps: seq<Promise<T>>)
    requires !start.Resolved?
    ensures ChainSteps(start, steps) == start && StepsStarted(start, steps) == 0
    decreases |steps|
  {
    if steps != [] {
      ChainBlocked(start, steps[1..]);
    }
  }

  /** A chain from a resolved start runs its steps in order up to and
      including the first that does not resolve, and settles as that step
      does; when every step resolves, all run and the chain settles as the
      last one. */
  lemma {:induction false} ChainOutcome<T>(v: T, steps: seq<Promise<T>>)
    ensures var k := FirstUnresolved(steps);
            && StepsStarted(Resolved(v), steps) == (if k == |steps| then k else k + 1)
            && ChainSteps(Resolved(v), steps)
               == (if k < |steps| then steps[k] else if steps == [] then Resolved(v) else steps[|steps| - 1])
    decreases |steps|
  {
    if steps != [] {
      if steps[0].Resolved? {
        ChainOutcome(steps[0].value, steps[1..]);
        if |steps| > 1 {
          assert steps[1..][|steps| - 2] == steps[|steps| - 1];
        }
      } else {
        ChainBlocked(steps[0], steps[1..]);
      }
    }
  }

  // ---------------------------------------------------------------------
  // Case and paths

  /** `toUpperCase` on the ASCII letters; other characters are kept. */
  function ToUpper(s: string): (u: string)
    ensures |u| == |s|
  {
    if s == [] then []
    else [if 'a' <= s[0] <= 'z' then ((s[0] as int) - 32) as char else s[0]] + ToUpper(s[1..])
  }

  /** `path.join(a, b)` without normalisation: the second part is appended
      after a separator; an empty part contributes nothing. */
  function PathJoin(a: string, b: string): (p: string)
    ensures b == "" ==> p == a
    ensures a != "" && b != "" ==> p == a + "/" + b
  {
    if b == "" then a else if a == "" then b else a + "/" + b
  }

  /** `path.isAbsolute` on POSIX paths. */
  predicate IsAbsolute(p: string) {
    p != "" && p[0] == '/'
  }

  /** `path.resolve(base, p)` without normalisation: an absolute `p` is
      kept, a relative one joined onto `base`. */
  function ResolvePath(base: string, p: string): (r: string)
    ensures IsAbsolute(p) ==> r == p
    ensures IsAbsolute(base) ==> IsAbsolute(r)
  {
    if IsAbsolute(p) then p else PathJoin(base, p)
  }

  /** `path.basename(p)`: the text after the last '/'. */
  function Basename(p: string): string
    decreases |p|
  {
    if p == [] then []
    else if p[|p| - 1] == '/' then []
    else Basename(p[..|p| - 1]) + [p[|p| - 1]]
  }

  /** The base name is the longest suffix of the path without a '/': it is
      a suffix, holds no '/', and is the whole path or follows a '/'. */
  lemma {:induction false} BasenameIsLastSegment(p: string)
    ensures var b := Basename(p);
            && '/' !in b && |b| <= |p| && p[|p| - |b|..] == b
            && (|b| < |p| ==> p[|p| - |b| - 1] == '/')
    decreases |p|
  {
    if p != [] && p[|p| - 1] != '/' {
      var q := p[..|p| - 1];
      BasenameIsLastSegment(q);
      var b := Basename(q);
      assert p[|p| - |b| - 1..] == q[|q| - |b|..] + [p[|p| - 1]];
      if |b| < |q| {
        assert p[|p| - |b| - 2] == q[|q| - |b| - 1];
      }
    }
  }

  /** The present values of a sequence of options, in order (a `filter`
      that drops NaN after `map(parseInt)`). */
  function Somes(xs: seq<Option<int>>): (ns: seq<int>)
    ensures forall n :: n in ns <==> Some(n) in xs
    ensures |ns| <= |xs|
  {
    if xs == [] then []
    else
      var rest := Somes(xs[1..]);
      assert forall o :: o in xs <==> o == xs[0] || o in xs[1..];
      if xs[0].Some? then [xs[0].value] + rest else rest
  }

  /** The largest value of a non-empty sequence (the head after a
      descending sort). */
  function Highest(ns: seq<int>): (m: int)
    requires ns != []
    ensures m in ns
    ensures forall x :: x in ns ==> x <= m
  {
    if |ns| == 1 then ns[0]
    else
      var rest := Highest(ns[1..]);
      assert forall x :: x in ns <==> x == ns[0] || x in ns[1..];
      if ns[0] > rest then ns[0] else rest
  }

  /** `(highest || 0) + 1`: one more than the largest value, or 1 when
      there is none (a largest value of 0 gives 1 either way). */
  function HighestPlusOne(ns: seq<int>): (n: int)
    ensures forall x :: x in ns ==> x < n
    ensures ns == [] ==> n == 1
    ensures ns != [] ==> n - 1 in ns
  {
    if ns == [] then 1 else Highest(ns) + 1
  }

  // ---------------------------------------------------------------------
  // Child processes

  /** What a child process reports, in the order it emits it: output
      chunks, then an `exit` (code None when killed by a signal) or an
      `error` when it cannot be spawned. */
  datatype ProcessEvent =
    | Stdout(chunk: string)
    | Stderr(chunk: string)
    | Exit(code: Option<int>)
    | SpawnError(message: string)

  /** The concatenated chunks of one stream. */
  function StdoutOf(events: seq<ProcessEvent>): string {
    if events == [] then ""
    else StdoutOf(events[..|events| - 1]) + (if events[|events| - 1].Stdout? then events[|events| - 1].chunk else "")
  }

  function StderrOf(events: seq<ProcessEvent>): string {
    if events == [] then ""
    else StderrOf(events[..|events| - 1]) + (if events[|events| - 1].Stderr? then events[|events| - 1].chunk else "")
  }

  /** The index of the first `error` or `exit` event, or the number of
      events when there is none. */
  function FirstSettling(events: seq<ProcessEvent>): (k: nat)
    ensures k <= |events|
    ensures forall i :: 0 <= i < k ==> !(events[i].Exit? || events[i].SpawnError?)
    ensures k < |events| ==> events[k].Exit? || events[k].SpawnError?
  {
    if events == [] then 0
    else if events[0].Exit? || events[0].SpawnError? then 0
    else 1 + FirstSettling(events[1..])
  }
}
