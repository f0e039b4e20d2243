/** String operations the core uses: JavaScript's `split`, `trim`, `startsWith`, `includes`,
    ASCII case folding, the two address regular expressions' character tests, and decimal digits. */
module Text {
  import Seqs

  /** The characters matched by the regular-expression class `\s` and removed by `trim`. */
  predicate IsWhitespace(c: char) {
    c == ' ' || c == '\t' || c == '\n' || c == '\r' || c == '\U{000B}' || c == '\U{000C}'
    || c == '\U{00A0}' || c == '\U{1680}' || ('\U{2000}' <= c <= '\U{200A}')
    || c == '\U{2028}' || c == '\U{2029}' || c == '\U{202F}' || c == '\U{205F}'
    || c == '\U{3000}' || c == '\U{FEFF}'
  }

  /** Drops leading white space. */
  function TrimStart(s: string): (r: string)
    ensures |r| <= |s| && r == s[|s| - |r|..]
    ensures r == [] || !IsWhitespace(r[0])
    ensures forall k :: 0 <= k < |s| - |r| ==> IsWhitespace(s[k])
  {
    if s != [] && IsWhitespace(s[0]) then TrimStart(s[1..]) else s
  }

  /** Drops trailing white space. */
  function TrimEnd(s: string): (r: string)
    ensures |r| <= |s| && r == s[..|r|]
    ensures r == [] || !IsWhitespace(r[|r| - 1])
    ensures forall k :: |r| <= k < |s| ==> IsWhitespace(s[k])
  {
    if s != [] && IsWhitespace(s[|s| - 1]) then TrimEnd(s[..|s| - 1]) else s
  }

  /** `r` is the slice of `s` starting at `i`, and everything around it is white space. */
  predicate TrimmedAt(s: string, r: string, i: int) {
    0 <= i <= |s| - |r| && s[i..i + |r|] == r
    && (forall k :: 0 <= k < i ==> IsWhitespace(s[k]))
    && (forall k :: i + |r| <= k < |s| ==> IsWhitespace(s[k]))
  }

  /** `s.trim()`: leading and trailing white space removed. */
  function Trim(s: string): string {
    TrimEnd(TrimStart(s))
  }

  /** The trimmed string is the slice of `s` that neither starts nor ends with white space,
      obtained by removing only white space. */
  lemma TrimShape(s: string)
    ensures var r := Trim(s); r == [] || (!IsWhitespace(r[0]) && !IsWhitespace(r[|r| - 1]))
    ensures exists i :: TrimmedAt(s, Trim(s), i)
  {
    var a := TrimStart(s);
    var b := TrimEnd(a);
    var i := |s| - |a|;
    assert s[i..i + |b|] == b;
    assert TrimmedAt(s, b, i);
  }

  /** `s.split(sep)` where `isSep` tells which characters separate pieces: every separator
      character ends a piece, so the result has one more piece than `s` has separators. */
  function Split(s: string, isSep: char -> bool): (r: seq<string>)
    ensures |r| >= 1
  {
    if s == [] then [""]
    else
      var rest := Split(s[1..], isSep);
      if isSep(s[0]) then [""] + rest
      else [[s[0]] + rest[0]] + rest[1..]
  }

  /** No piece contains a separator. */
  lemma {:induction false} SplitPiecesFree(s: string, isSep: char -> bool)
    ensures forall k, j :: 0 <= k < |Split(s, isSep)| && 0 <= j < |Split(s, isSep)[k]| ==> !isSep(Split(s, isSep)[k][j])
  {
    if s != [] {
      SplitPiecesFree(s[1..], isSep);
      var rest := Split(s[1..], isSep);
      if !isSep(s[0]) {
        var r := Split(s, isSep);
        assert r[0] == [s[0]] + rest[0];
        forall k, j | 0 <= k < |r| && 0 <= j < |r[k]| ensures !isSep(r[k][j]) {
          if k == 0 {
            if j > 0 { assert r[0][j] == rest[0][j - 1]; }
          } else {
            assert r[k] == rest[k];
          }
        }
      }
    }
  }

  /** Every character of every piece is a character of the split text. */
  lemma {:induction false} SplitChars(s: string, isSep: char -> bool, ok: char -> bool)
    requires forall k :: 0 <= k < |s| ==> ok(s[k])
    ensures forall k, j :: 0 <= k < |Split(s, isSep)| && 0 <= j < |Split(s, isSep)[k]| ==> ok(Split(s, isSep)[k][j])
  {
    if s != [] {
      SplitChars(s[1..], isSep, ok);
    }
  }

  /** A string without separators is a single piece. */
  lemma {:induction false} SplitWithoutSeparator(s: string, isSep: char -> bool)
    requires forall k :: 0 <= k < |s| ==> !isSep(s[k])
    ensures Split(s, isSep) == [s]
  {
    if s != [] {
      SplitWithoutSeparator(s[1..], isSep);
      assert [s[0]] + s[1..] == s;
    }
  }

  /** A separator after a separator-free prefix ends the first piece. */
  lemma {:induction false} SplitAtSeparator(a: string, c: char, b: string, isSep: char -> bool)
    requires forall k :: 0 <= k < |a| ==> !isSep(a[k])
    requires isSep(c)
    ensures Split(a + [c] + b, isSep) == [a] + Split(b, isSep)
  {
    if a == [] {
      assert (a + [c] + b)[1..] == b;
    } else {
      var s := a + [c] + b;
      assert s[1..] == a[1..] + [c] + b;
      SplitAtSeparator(a[1..], c, b, isSep);
      assert [a[0]] + a[1..] == a;
    }
  }

  /** `pieces.join([c])`. */
  function Join(pieces: seq<string>, c: char): string
    requires |pieces| >= 1
  {
    if |pieces| == 1 then pieces[0] else pieces[0] + [c] + Join(pieces[1..], c)
  }

  /** Splitting on a single character and joining with it again gives back the text. */
  lemma {:induction false} SplitJoin(s: string, c: char, isSep: char -> bool)
    requires forall x :: isSep(x) <==> x == c
    ensures Join(Split(s, isSep), c) == s
  {
    if s != [] {
      var rest := Split(s[1..], isSep);
      SplitJoin(s[1..], c, isSep);
      if isSep(s[0]) {
        assert ([""] + rest)[1..] == rest;
        assert Join([""] + rest, c) == [c] + Join(rest, c);
        assert s == [s[0]] + s[1..];
      } else {
        var r := [[s[0]] + rest[0]] + rest[1..];
        if |rest| == 1 {
          assert Join(r, c) == [s[0]] + rest[0];
        } else {
          assert r[1..] == rest[1..];
          assert Join(rest, c) == rest[0] + [c] + Join(rest[1..], c);
        }
        assert s == [s[0]] + s[1..];
      }
    }
  }

  predicate IsNewline(c: char) { c == '\n' }

  /** `text.split('\n')`. */
  function Lines(text: string): seq<string> {
    Split(text, IsNewline)
  }

  /** No line contains a newline. */
  lemma LinesHaveNoNewline(text: string)
    ensures forall k, j :: 0 <= k < |Lines(text)| && 0 <= j < |Lines(text)[k]| ==> Lines(text)[k][j] != '\n'
  {
    SplitPiecesFree(text, IsNewline);
  }

  /** The lines, joined again by newlines, are the text. */
  lemma LinesJoin(text: string)
    ensures Join(Lines(text), '\n') == text
  {
    SplitJoin(text, '\n', IsNewline);
  }

  /** The characters of the regular expression `/[,\s]+/`. */
  predicate IsSeparator(c: char) { c == ',' || IsWhitespace(c) }

  predicate NonEmpty(t: string) { t != [] }

  /** `line.split(/[,\s]+/).filter(Boolean)`: the maximal runs of characters other than
      commas and white space, in order. Splitting at every separator and dropping the empty
      pieces is the same as splitting at runs of separators and dropping empty pieces. */
  function Tokens(line: string): seq<string> {
    Seqs.Filter(Split(line, IsSeparator), NonEmpty)
  }

  /** Every token is non-empty and free of commas and white space. */
  lemma TokensShape(line: string)
    ensures forall k :: 0 <= k < |Tokens(line)| ==> Tokens(line)[k] != []
    ensures forall k, j :: 0 <= k < |Tokens(line)| && 0 <= j < |Tokens(line)[k]| ==> !IsSeparator(Tokens(line)[k][j])
  {
    var pieces := Split(line, IsSeparator);
    Seqs.FilterMembers(pieces, NonEmpty);
    SplitPiecesFree(line, IsSeparator);
  }

  /** `s.startsWith(p)`. */
  predicate StartsWith(s: string, p: string) {
    |p| <= |s| && s[..|p|] == p
  }

  /** `s.includes(t)`: `t` occurs in `s` at some position. */
  predicate Contains(s: string, t: string)
    decreases |s|
  {
    StartsWith(s, t) || (s != [] && Contains(s[1..], t))
  }

  /** `t` occurs in `s` starting at index `i`. */
  predicate OccursAt(s: string, t: string, i: int) {
    0 <= i <= |s| - |t| && s[i..i + |t|] == t
  }

  /** `Contains` holds exactly when `t` is a slice of `s`. */
  lemma {:induction false} ContainsAt(s: string, t: string)
    ensures Contains(s, t) <==> exists i :: OccursAt(s, t, i)
    decreases |s|
  {
    if StartsWith(s, t) {
      assert OccursAt(s, t, 0);
    } else if s == [] {
    } else {
      ContainsAt(s[1..], t);
      if exists i :: OccursAt(s, t, i) {
        var i :| OccursAt(s, t, i);
        assert i != 0;
        assert OccursAt(s[1..], t, i - 1) by {
          assert s[1..][i - 1..i - 1 + |t|] == s[i..i + |t|];
        }
      }
      if Contains(s[1..], t) {
        var i :| OccursAt(s[1..], t, i);
        assert OccursAt(s, t, i + 1) by {
          assert s[1..][i..i + |t|] == s[i + 1..i + 1 + |t|];
        }
      }
    }
  }

  /** What a prefix contains, the whole string contains. */
  lemma {:induction false} PrefixContains(s: string, n: nat, t: string)
    requires n <= |s| && Contains(s[..n], t)
    ensures Contains(s, t)
    decreases n
  {
    if StartsWith(s[..n], t) {
      assert s[..n][..|t|] == s[..|t|];
    } else {
      assert s[..n][1..] == s[1..][..n - 1];
      PrefixContains(s[1..], n - 1, t);
    }
  }

  /** Lower-casing of the ASCII letters `A`–`Z`. */
  function LowerAscii(c: char): char {
    if 'A' <= c <= 'Z' then (c as int + 32) as char else c
  }

  function ToLowerAscii(s: string): (r: string)
    ensures |r| == |s| && forall k :: 0 <= k < |s| ==> r[k] == LowerAscii(s[k])
  {
    seq(|s|, k requires 0 <= k < |s| => LowerAscii(s[k]))
  }

  /** `s.toLowerCase().startsWith(p)` for a lower-case ASCII prefix `p`. */
  predicate StartsWithIgnoreCase(s: string, p: string) {
    StartsWith(ToLowerAscii(s), p)
  }

  predicate IsHexDigit(c: char) {
    ('0' <= c <= '9') || ('a' <= c <= 'f') || ('A' <= c <= 'F')
  }

  /** The regular expression `/^0x[a-fA-F0-9]{40}$/`: `0x` followed by exactly 40 hex digits. */
  predicate IsHexAddress(s: string) {
    |s| == 42 && s[0] == '0' && s[1] == 'x' && forall k :: 2 <= k < 42 ==> IsHexDigit(s[k])
  }

  predicate IsDigit(c: char) { '0' <= c <= '9' }

  function DigitValue(c: char): nat
    requires IsDigit(c)
  {
    c as int - '0' as int
  }

  function DigitChar(d: nat): (c: char)
    requires d < 10
    ensures IsDigit(c) && DigitValue(c) == d
  {
    ('0' as int + d) as char
  }

  predicate AllDigits(s: string) {
    forall k :: 0 <= k < |s| ==> IsDigit(s[k])
  }

  /** The number a string of decimal digits denotes, most significant digit first. */
  function DigitsValue(s: string): nat
    requires AllDigits(s)
  {
    if s == [] then 0 else DigitsValue(s[..|s| - 1]) * 10 + DigitValue(s[|s| - 1])
  }

  function Pow10(k: nat): (r: nat)
    ensures r >= 1
  {
    if k == 0 then 1 else 10 * Pow10(k - 1)
  }

  /** The decimal representation of `n` without leading zeros (`String(n)`). */
  function NatToString(n: nat): (r: string)
    ensures r != [] && AllDigits(r)
  {
    if n < 10 then [DigitChar(n)] else NatToString(n / 10) + [DigitChar(n % 10)]
  }

  /** `NatToString` denotes the number it was given. */
  lemma {:induction false} NatToStringValue(n: nat)
    ensures DigitsValue(NatToString(n)) == n
  {
    if n >= 10 {
      NatToStringValue(n / 10);
      var r := NatToString(n);
      assert r[..|r| - 1] == NatToString(n / 10);
    }
  }

  /** The last `width` decimal digits of `n`, padded with leading zeros. */
  function PaddedDigits(n: nat, width: nat): (r: string)
    ensures |r| == width && AllDigits(r)
  {
    if width == 0 then "" else PaddedDigits(n / 10, width - 1) + [DigitChar(n % 10)]
  }

  /** `n` with its last `width` decimal digits removed (`n / 10^width`). */
  function DropDigits(n: nat, width: nat): nat {
    if width == 0 then n else DropDigits(n / 10, width - 1)
  }

  lemma ShiftDigitStep(hi: int, p: int, low: int, q: int, d: int, n: int)
    requires hi * p + low == q && n == 10 * q + d
    ensures hi * (10 * p) + (low * 10 + d) == n
  {
    assert hi * (10 * p) == 10 * (hi * p);
  }

  /** `n` is its leading part followed by its last `width` digits. */
  lemma {:induction false} PaddedDigitsValue(n: nat, width: nat)
    ensures DropDigits(n, width) * Pow10(width) + DigitsValue(PaddedDigits(n, width)) == n
  {
    if width > 0 {
      PaddedDigitsValue(n / 10, width - 1);
      var r := PaddedDigits(n, width);
      var low := PaddedDigits(n / 10, width - 1);
      assert r[..|r| - 1] == low;
      assert DigitsValue(r) == DigitsValue(low) * 10 + n % 10;
      ShiftDigitStep(DropDigits(n / 10, width - 1), Pow10(width - 1), DigitsValue(low), n / 10, n % 10, n);
    }
  }

  lemma MulShift(v: int, p: int)
    ensures v * p * 10 == v * (10 * p)
  {
  }

  /** Appending `m` zeros multiplies the value by 10^m. */
  lemma {:induction false} TrailingZeros(s: string, m: nat)
    requires AllDigits(s)
    ensures AllDigits(s + Zeros(m)) && DigitsValue(s + Zeros(m)) == DigitsValue(s) * Pow10(m)
  {
    if m > 0 {
      TrailingZeros(s, m - 1);
      var t := s + Zeros(m);
      assert t[..|t| - 1] == s + Zeros(m - 1);
      assert t[|t| - 1] == '0';
      MulShift(DigitsValue(s), Pow10(m - 1));
    } else {
      assert s + Zeros(m) == s;
    }
  }

  function Zeros(m: nat): (r: string)
    ensures |r| == m && forall k :: 0 <= k < m ==> r[k] == '0'
  {
    if m == 0 then "" else Zeros(m - 1) + "0"
  }
}
