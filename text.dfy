/**
 * The small pieces of JavaScript string behaviour the model relies on:
 * decimal rendering of a non-negative number (template literals),
 * `substring(0, n)`, and `split('\n')` / `join('\n')`.
 */
module Text {

  predicate IsDigit(c: char) {
    '0' <= c <= '9'
  }

  predicate AllDigits(s: string) {
    forall i :: 0 <= i < |s| ==> IsDigit(s[i])
  }

  function DigitChar(d: nat): (c: char)
    requires d < 10
    ensures IsDigit(c) && c as int - '0' as int == d
  {
    ('0' as int + d) as char
  }

  /** Decimal text of `n`, as `${n}` renders a non-negative integer. */
  function NatToString(n: nat): (s: string)
    ensures |s| > 0 && AllDigits(s)
    ensures n < 10 <==> |s| == 1
    decreases n
  {
    if n < 10 then [DigitChar(n)] else NatToString(n / 10) + [DigitChar(n % 10)]
  }

  /** Value of a string of decimal digits (the inverse of NatToString). */
  function ParseNat(s: string): nat
    requires AllDigits(s)
  {
    if s == [] then 0
    else 10 * ParseNat(s[..|s| - 1]) + (s[|s| - 1] as int - '0' as int)
  }

  lemma {:induction false} ParseNatToString(n: nat)
    ensures ParseNat(NatToString(n)) == n
    decreases n
  {
    if n >= 10 {
      var s := NatToString(n);
      assert s[..|s| - 1] == NatToString(n / 10);
      ParseNatToString(n / 10);
    }
  }

  /** Distinct numbers render as distinct strings. */
  lemma NatToStringInjective(a: nat, b: nat)
    requires NatToString(a) == NatToString(b)
    ensures a == b
  {
    ParseNatToString(a);
    ParseNatToString(b);
  }

  function Min(a: int, b: int): int {
    if a <= b then a else b
  }

  /** JavaScript `s.substring(0, n)` for n >= 0: the first n characters, or all of s if shorter. */
  function Prefix(s: string, n: nat): (p: string)
    ensures |p| == Min(n, |s|)
    ensures p <= s
  {
    if n <= |s| then s[..n] else s
  }

  /** Number of newline characters in `s`. */
  function NewlineCount(s: string): nat {
    if s == [] then 0 else (if s[0] == '\n' then 1 else 0) + NewlineCount(s[1..])
  }

  /** JavaScript `s.split('\n')`: the pieces between newlines, never an empty list. */
  function SplitLines(s: string): (lines: seq<string>)
    ensures |lines| == NewlineCount(s) + 1
    ensures forall i :: 0 <= i < |lines| ==> '\n' !in lines[i]
  {
    if s == [] then [""]
    else
      var rest := SplitLines(s[1..]);
      if s[0] == '\n' then [""] + rest
      else [[s[0]] + rest[0]] + rest[1..]
  }

  /** JavaScript `lines.join('\n')`. */
  function JoinLines(lines: seq<string>): string {
    if |lines| == 0 then ""
    else if |lines| == 1 then lines[0]
    else lines[0] + "\n" + JoinLines(lines[1..])
  }

  /** Prepending a character to the first line prepends it to the joined text. */
  lemma JoinConsFirst(c: char, lines: seq<string>)
    requires |lines| > 0
    ensures JoinLines([[c] + lines[0]] + lines[1..]) == [c] + JoinLines(lines)
  {
  }

  /** Joining the split pieces gives back the original text. */
  lemma {:induction false} JoinSplitLines(s: string)
    ensures JoinLines(SplitLines(s)) == s
  {
    if s != [] {
      var rest := SplitLines(s[1..]);
      JoinSplitLines(s[1..]);
      if s[0] == '\n' {
        assert ([""] + rest)[1..] == rest;
      } else {
        JoinConsFirst(s[0], rest);
      }
    }
  }

  /**
   * Joining the first k pieces of the split gives a prefix of the original
   * text, cut just before a newline when pieces were left out.
   */
  lemma {:induction false} JoinTakePrefix(s: string, k: nat)
    requires 0 < k <= |SplitLines(s)|
    ensures JoinLines(SplitLines(s)[..k]) <= s
    ensures k < |SplitLines(s)| ==>
      |JoinLines(SplitLines(s)[..k])| < |s| && s[|JoinLines(SplitLines(s)[..k])|] == '\n'
  {
    if s != [] {
      var rest := SplitLines(s[1..]);
      if s[0] == '\n' {
        var lines := [""] + rest;
        if k == 1 {
          assert lines[..k] == [""];
        } else {
          assert lines[..k][1..] == rest[..k - 1];
          JoinTakePrefix(s[1..], k - 1);
        }
      } else {
        var lines := [[s[0]] + rest[0]] + rest[1..];
        assert lines[..k] == [[s[0]] + rest[..k][0]] + rest[..k][1..];
        JoinConsFirst(s[0], rest[..k]);
        JoinTakePrefix(s[1..], k);
      }
    }
  }

  lemma {:induction false} NewlineCountAppend(a: string, b: string)
    ensures NewlineCount(a + b) == NewlineCount(a) + NewlineCount(b)
  {
    if a == [] {
      assert a + b == b;
    } else {
      assert (a + b)[1..] == a[1..] + b;
      NewlineCountAppend(a[1..], b);
    }
  }

  lemma NewlineFree(s: string)
    requires '\n' !in s
    ensures NewlineCount(s) == 0
  {
  }

  /** Joining k newline-free pieces puts exactly k - 1 newlines in the text. */
  lemma {:induction false} NewlineCountJoin(lines: seq<string>)
    requires |lines| > 0
    requires forall i :: 0 <= i < |lines| ==> '\n' !in lines[i]
    ensures NewlineCount(JoinLines(lines)) == |lines| - 1
  {
    NewlineFree(lines[0]);
    if |lines| > 1 {
      NewlineCountJoin(lines[1..]);
      NewlineCountAppend(lines[0], "\n");
      NewlineCountAppend(lines[0] + "\n", JoinLines(lines[1..]));
    }
  }
}
