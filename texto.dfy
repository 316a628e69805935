/** The JavaScript string methods the application uses, on `seq<char>`:
    `toLowerCase`/`toUpperCase` (restricted to ASCII letters), `includes`,
    `trim`, `split(" ")`/`join`, `replace` with a string pattern and
    `Number.prototype.toString` for integers. */
module Texto {
  import opened Seqs

  function LowerChar(c: char): char {
    if 'A' <= c <= 'Z' then (c as int + 32) as char else c
  }

  function UpperChar(c: char): char {
    if 'a' <= c <= 'z' then (c as int - 32) as char else c
  }

  /** `toLowerCase`, letter by letter; the length never changes. */
  function Lower(s: string): (r: string)
    ensures |r| == |s| && forall i :: 0 <= i < |s| ==> r[i] == LowerChar(s[i])
  {
    seq(|s|, i requires 0 <= i < |s| => LowerChar(s[i]))
  }

  /** `toUpperCase`, letter by letter; the length never changes. */
  function Upper(s: string): (r: string)
    ensures |r| == |s| && forall i :: 0 <= i < |s| ==> r[i] == UpperChar(s[i])
  {
    seq(|s|, i requires 0 <= i < |s| => UpperChar(s[i]))
  }

  lemma LowerIsIdempotent(s: string)
    ensures Lower(Lower(s)) == Lower(s)
  {
  }

  /** `s.includes(t)`: `t` occurs in `s` at some position. */
  predicate Contains(s: string, t: string) {
    exists i :: 0 <= i <= |s| && t <= s[i..]
  }

  /** Every string contains the empty string and itself. */
  lemma ContainsTrivial(s: string)
    ensures Contains(s, "") && Contains(s, s)
  {
    assert "" <= s[0..];
  }

  // ---------------------------------------------------------------- trim

  /** The characters `String.prototype.trim` removes: ECMAScript WhiteSpace
      (including the Unicode space separators) and LineTerminator. */
  predicate IsWhiteSpace(c: char) {
    c == '\t' || c == '\n' || c == '\U{000B}' || c == '\U{000C}' || c == '\r' || c == ' ' ||
    c == '\U{00A0}' || c == '\U{1680}' || ('\U{2000}' <= c <= '\U{200A}') ||
    c == '\U{2028}' || c == '\U{2029}' || c == '\U{202F}' || c == '\U{205F}' ||
    c == '\U{3000}' || c == '\U{FEFF}'
  }

  /** Drops the leading white space: the result is the suffix of `s` that
      starts at its first non-white-space character. */
  function TrimStart(s: string): (r: string)
    ensures |r| <= |s| && r == s[|s| - |r|..]
    ensures forall i :: 0 <= i < |s| - |r| ==> IsWhiteSpace(s[i])
    ensures r == [] || !IsWhiteSpace(r[0])
  {
    if s != [] && IsWhiteSpace(s[0]) then TrimStart(s[1..]) else s
  }

  /** Drops the trailing white space: the result is the prefix of `s` that
      ends at its last non-white-space character. */
  function TrimEnd(s: string): (r: string)
    ensures |r| <= |s| && r == s[..|r|]
    ensures forall i :: |r| <= i < |s| ==> IsWhiteSpace(s[i])
    ensures r == [] || !IsWhiteSpace(r[|r| - 1])
  {
    if s != [] && IsWhiteSpace(s[|s| - 1]) then TrimEnd(s[..|s| - 1]) else s
  }

  function Trim(s: string): string {
    TrimEnd(TrimStart(s))
  }

  /** `s.trim()` is empty exactly when every character of `s` is white space. */
  lemma TrimEmptyIffBlank(s: string)
    ensures Trim(s) == [] <==> forall i :: 0 <= i < |s| ==> IsWhiteSpace(s[i])
  {
    var t := TrimStart(s);
    if Trim(s) != [] {
      assert t != [] && !IsWhiteSpace(t[0]);
      assert s[|s| - |t|] == t[0];
    }
  }

  // ---------------------------------------------------------- split / join

  /** `s.split(sep)` for a one-character separator: the pieces between the
      separators, empty pieces included; `"".split(sep)` is `[""]`. */
  function Split(s: string, sep: char): (parts: seq<string>)
    ensures |parts| >= 1
  {
    if s == [] then [""]
    else if s[0] == sep then [""] + Split(s[1..], sep)
    else
      var rest := Split(s[1..], sep);
      [[s[0]] + rest[0]] + rest[1..]
  }

  /** `parts.join(sep)` for a one-character separator. */
  function Join(parts: seq<string>, sep: char): string {
    if parts == [] then ""
    else if |parts| == 1 then parts[0]
    else parts[0] + [sep] + Join(parts[1..], sep)
  }

  /** `parts.join("")`. */
  function Concat(parts: seq<string>): string {
    if parts == [] then "" else parts[0] + Concat(parts[1..])
  }

  /** Splitting and joining back with the same separator gives the input back. */
  lemma {:induction false} JoinSplit(s: string, sep: char)
    ensures Join(Split(s, sep), sep) == s
  {
    if s != [] {
      JoinSplit(s[1..], sep);
      var rest := Split(s[1..], sep);
      if s[0] == sep {
        assert Split(s, sep) == [""] + rest;
        assert Split(s, sep)[1..] == rest;
      } else {
        var parts := Split(s, sep);
        assert parts[1..] == rest[1..];
        if |rest| == 1 {
          assert parts == [[s[0]] + rest[0]];
        } else {
          assert Join(rest, sep) == rest[0] + [sep] + Join(rest[1..], sep);
        }
      }
    }
  }

  /** Joining pieces that do not contain the separator and splitting again
      gives the pieces back. */
  lemma {:induction false} SplitJoin(parts: seq<string>, sep: char)
    requires |parts| >= 1
    requires forall k, i :: 0 <= k < |parts| && 0 <= i < |parts[k]| ==> parts[k][i] != sep
    ensures Split(Join(parts, sep), sep) == parts
  {
    if |parts| == 1 {
      SplitPiece(parts[0], [], sep);
      assert parts[0] + [] == parts[0];
    } else {
      SplitJoin(parts[1..], sep);
      SplitPiece(parts[0], [sep] + Join(parts[1..], sep), sep);
      assert parts[0] + [sep] + Join(parts[1..], sep) == parts[0] + ([sep] + Join(parts[1..], sep));
      assert ([sep] + Join(parts[1..], sep))[1..] == Join(parts[1..], sep);
    }
  }

  /** A piece without separators in front of a tail that is empty or starts
      with the separator becomes the first part of the split. */
  lemma {:induction false} SplitPiece(w: string, tail: string, sep: char)
    requires forall i :: 0 <= i < |w| ==> w[i] != sep
    requires tail == [] || tail[0] == sep
    ensures Split(w + tail, sep) ==
      if tail == [] then [w] else [w] + Split(tail[1..], sep)
  {
    if w == [] {
      assert w + tail == tail;
    } else {
      var s := w + tail;
      SplitPiece(w[1..], tail, sep);
      assert s[0] == w[0] && s[1..] == w[1..] + tail;
      var rest := Split(s[1..], sep);
      assert rest[0] == w[1..];
      assert Split(s, sep) == [[w[0]] + w[1..]] + rest[1..];
      assert [w[0]] + w[1..] == w;
    }
  }

  // ------------------------------------------------------ replace / search

  /** The first position of `pat` in `s` (`indexOf`), if there is one. */
  function IndexOf(s: string, pat: string): (r: Option<nat>)
    ensures r.Some? ==> r.value <= |s|
  {
    if pat <= s then Some(0)
    else if s == [] then None
    else
      match IndexOf(s[1..], pat)
      case None => None
      case Some(k) => Some(k + 1)
  }

  /** `pat` starts at `i` in `s` and at no earlier position. */
  predicate FirstOccurrence(s: string, pat: string, i: nat) {
    i <= |s| && pat <= s[i..] && forall j :: 0 <= j < i ==> !(pat <= s[j..])
  }

  /** Where `IndexOf` answers `i`, `i` is the first occurrence. */
  lemma {:induction false} IndexOfFound(s: string, pat: string, i: nat)
    requires IndexOf(s, pat) == Some(i)
    ensures FirstOccurrence(s, pat, i)
  {
    assert s[0..] == s;
    if !(pat <= s) {
      assert s != [] && IndexOf(s[1..], pat) == Some(i - 1);
      IndexOfFound(s[1..], pat, i - 1);
      assert s[1..][i - 1..] == s[i..];
      forall j | 0 < j < i ensures !(pat <= s[j..]) {
        assert s[1..][j - 1..] == s[j..];
      }
    }
  }

  /** Where `IndexOf` finds nothing, `pat` starts at no position. */
  lemma {:induction false} IndexOfAbsent(s: string, pat: string)
    requires IndexOf(s, pat) == None
    ensures !Contains(s, pat)
  {
    assert s[0..] == s;
    if s != [] {
      IndexOfAbsent(s[1..], pat);
      forall i | 0 < i <= |s| ensures !(pat <= s[i..]) {
        assert s[1..][i - 1..] == s[i..];
      }
    }
  }

  /** `IndexOf` finds `pat` exactly when `s` contains it, and then at its
      first occurrence, which is unique. */
  lemma IndexOfIsFirst(s: string, pat: string)
    ensures IndexOf(s, pat).None? <==> !Contains(s, pat)
    ensures IndexOf(s, pat).Some? ==> FirstOccurrence(s, pat, IndexOf(s, pat).value)
    ensures forall i: nat :: FirstOccurrence(s, pat, i) ==> IndexOf(s, pat) == Some(i)
  {
    var r := IndexOf(s, pat);
    if r.Some? {
      IndexOfFound(s, pat, r.value);
    } else {
      IndexOfAbsent(s, pat);
    }
  }

  /** `s.replace(pat, rep)` with a string pattern: the first occurrence of
      `pat` is cut out and `rep` put in its place; without one, `s` is kept. */
  function ReplaceFirst(s: string, pat: string, rep: string): (r: string)
    ensures !Contains(s, pat) ==> r == s
    ensures forall i: nat :: FirstOccurrence(s, pat, i) ==>
      i + |pat| <= |s| && r == s[..i] + rep + s[i + |pat|..]
  {
    IndexOfIsFirst(s, pat);
    match IndexOf(s, pat)
    case None => s
    case Some(i) => s[..i] + rep + s[i + |pat|..]
  }

  // --------------------------------------------------- numbers as strings

  function DigitChar(d: nat): char
    requires d < 10
  {
    ('0' as int + d) as char
  }

  /** `n.toString()` for a non-negative integer: its decimal digits. */
  function NatToString(n: nat): (r: string)
    ensures |r| >= 1 && forall i :: 0 <= i < |r| ==> '0' <= r[i] <= '9'
  {
    if n < 10 then [DigitChar(n)] else NatToString(n / 10) + [DigitChar(n % 10)]
  }

  /** `n.toString()` for an integer. */
  function IntToString(n: int): string {
    if n < 0 then "-" + NatToString(-n) else NatToString(n)
  }

  /** Reads a string of decimal digits back as a number. */
  function ParseDigits(s: string): int {
    if s == [] then 0 else ParseDigits(s[..|s| - 1]) * 10 + (s[|s| - 1] as int - '0' as int)
  }

  /** Reads the output of `IntToString` back as a number. */
  function ParseInt(s: string): int {
    if s != [] && s[0] == '-' then -ParseDigits(s[1..]) else ParseDigits(s)
  }

  lemma {:induction false} ParseNatToString(n: nat)
    ensures ParseDigits(NatToString(n)) == n
  {
    if n >= 10 {
      ParseNatToString(n / 10);
      var s := NatToString(n);
      assert s[..|s| - 1] == NatToString(n / 10);
    }
  }

  /** Decimal rendering loses nothing: the number can be read back. */
  lemma IntToStringRoundTrip(n: int)
    ensures ParseInt(IntToString(n)) == n
  {
    var s := IntToString(n);
    if n < 0 {
      ParseNatToString(-n);
      assert s[0] == '-' && s[1..] == NatToString(-n);
    } else {
      ParseNatToString(n);
      assert s == NatToString(n) && s[0] != '-';
    }
  }

  /** Different numbers render as different strings. */
  lemma IntToStringInjective(m: int, n: int)
    ensures IntToString(m) == IntToString(n) <==> m == n
  {
    IntToStringRoundTrip(m);
    IntToStringRoundTrip(n);
  }
}
