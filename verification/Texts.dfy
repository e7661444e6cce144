/** Characters and strings: white space, numerals, and where a pattern occurs in a text. */
module Texts {

  predicate IsSpace(c: char) {
    c == ' ' || c == '\n' || c == '\t' || c == '\r'
  }

  /** Drops leading white space. */
  function TrimLeft(s: string): (r: string)
    ensures |r| <= |s| && (s != "" && IsSpace(s[0]) ==> |r| < |s|)
  {
    if s != "" && IsSpace(s[0]) then TrimLeft(s[1..]) else s
  }

  /** Drops trailing white space. */
  function TrimRight(s: string): (r: string)
    ensures |r| <= |s|
  {
    if s != "" && IsSpace(s[|s| - 1]) then TrimRight(s[..|s| - 1]) else s
  }

  function Trim(s: string): (r: string)
    ensures |r| <= |s|
  {
    TrimRight(TrimLeft(s))
  }

  function Digits(n: nat): string {
    if n < 10 then ["0123456789"[n]] else Digits(n / 10) + ["0123456789"[n % 10]]
  }

  predicate AllDigits(s: string) {
    forall i :: 0 <= i < |s| ==> '0' <= s[i] <= '9'
  }

  lemma {:induction false} DigitsAreDigits(n: nat)
    ensures AllDigits(Digits(n))
  {
    if n >= 10 { DigitsAreDigits(n / 10); }
  }

  function Lower(c: char): char {
    if 'A' <= c <= 'Z' then c - 'A' + 'a' else c
  }

  /** `p` is written in lower case and occurs in `s` at `i` in any case. */
  predicate OccursAt(s: string, p: string, i: nat) {
    i + |p| <= |s| && forall k :: 0 <= k < |p| ==> Lower(s[i + k]) == p[k]
  }

  predicate Occurs(s: string, p: string) {
    exists i :: 0 <= i <= |s| && OccursAt(s, p, i)
  }

  predicate Lacks(s: string, c: char) {
    forall i :: 0 <= i < |s| ==> s[i] != c
  }

  lemma OccursInside(a: string, b: string, c: string, p: string)
    requires Occurs(b, p)
    ensures Occurs(a + b + c, p)
  {
    var i :| 0 <= i <= |b| && OccursAt(b, p, i);
    var s := a + b + c;
    forall k | 0 <= k < |p| ensures Lower(s[|a| + i + k]) == p[k] {
      assert s[|a| + (i + k)] == b[i + k];
    }
    assert OccursAt(s, p, |a| + i);
  }

  lemma NotAcross(s: string, p: string, i: nat, at: nat)
    requires i <= at < i + |p| <= |s| && Lacks(p, Lower(s[at]))
    ensures !OccursAt(s, p, i)
  {
    assert Lower(s[i + (at - i)]) != p[at - i];
  }

  /** A pattern without a character does not reach across it. */
  lemma OccursBeside(a: string, c: char, b: string, p: string)
    requires Lacks(p, Lower(c)) && p != ""
    ensures Occurs(a + [c] + b, p) <==> Occurs(a, p) || Occurs(b, p)
  {
    var s := a + [c] + b;
    if Occurs(a, p) {
      OccursInside("", a, [c] + b, p);
      assert "" + a + ([c] + b) == s;
    }
    if Occurs(b, p) {
      OccursInside(a + [c], b, "", p);
      assert a + [c] + b + "" == s;
    }
    if Occurs(s, p) {
      var i :| 0 <= i <= |s| && OccursAt(s, p, i);
      assert s[|a|] == c;
      if i <= |a| < i + |p| {
        NotAcross(s, p, i, |a|);
        assert false;
      } else if i > |a| {
        var j := i - |a| - 1;
        forall k | 0 <= k < |p| ensures Lower(b[j + k]) == p[k] { assert s[i + k] == b[j + k]; }
        assert OccursAt(b, p, j);
      } else {
        forall k | 0 <= k < |p| ensures Lower(a[i + k]) == p[k] { assert s[i + k] == a[i + k]; }
        assert OccursAt(a, p, i);
      }
    }
  }

  lemma OccursBesideBreak(a: string, b: string, p: string)
    requires Lacks(p, '\n') && p != ""
    ensures Occurs(a + "\n" + b, p) <==> Occurs(a, p) || Occurs(b, p)
  {
    OccursBeside(a, '\n', b, p);
    assert a + "\n" + b == a + ['\n'] + b;
  }

  /** A pattern does not occur where one of its letters is missing. */
  lemma LetterMissing(s: string, p: string, q: nat)
    requires q < |p| && (forall i :: 0 <= i < |s| ==> Lower(s[i]) != p[q])
    ensures !Occurs(s, p)
  {
    forall i | 0 <= i <= |s| ensures !OccursAt(s, p, i) {
      if i + |p| <= |s| { assert Lower(s[i + q]) != p[q]; }
    }
  }

  predicate IsAt(s: string, t: string, i: nat) {
    i + |t| <= |s| && s[i..i + |t|] == t
  }

  predicate Contains(s: string, t: string) {
    exists i :: 0 <= i <= |s| && IsAt(s, t, i)
  }

  lemma ContainsMiddle(a: string, t: string, b: string)
    ensures Contains(a + t + b, t)
  {
    var s := a + t + b;
    assert IsAt(s, t, |a|);
  }

  lemma {:induction false} DigitsNotEmpty(n: nat)
    ensures Digits(n) != []
  {
  }

  lemma DigitIs(a: nat, b: nat)
    requires a < 10 && b < 10 && "0123456789"[a] == "0123456789"[b]
    ensures a == b
  {
    assert "0123456789"[a] == '0' + a as char && "0123456789"[b] == '0' + b as char;
  }

  /** Different numbers have different numerals. */
  lemma {:induction false} DigitsTellNumbers(a: nat, b: nat)
    requires Digits(a) == Digits(b)
    ensures a == b
  {
    LastDigit(a);
    LastDigit(b);
    DigitIs(a % 10, b % 10);
    if a >= 10 && b >= 10 {
      DigitsTellNumbers(a / 10, b / 10);
    } else {
      DigitsNotEmpty(a / 10);
      DigitsNotEmpty(b / 10);
    }
  }

  lemma LastDigit(n: nat)
    ensures Digits(n) != [] && Digits(n)[|Digits(n)| - 1] == "0123456789"[n % 10]
    ensures n >= 10 ==> Digits(n)[..|Digits(n)| - 1] == Digits(n / 10)
    ensures n < 10 ==> |Digits(n)| == 1
  {
  }

  // ----- trimming -----

  predicate AllSpace(s: string) {
    forall i :: 0 <= i < |s| ==> IsSpace(s[i])
  }

  lemma {:induction false} TrimLeftFacts(s: string)
    ensures |TrimLeft(s)| <= |s| && AllSpace(s[..|s| - |TrimLeft(s)|]) && s[|s| - |TrimLeft(s)|..] == TrimLeft(s)
    ensures TrimLeft(s) != "" ==> !IsSpace(TrimLeft(s)[0])
  {
    if s != "" && IsSpace(s[0]) {
      TrimLeftFacts(s[1..]);
      var n := |s| - |TrimLeft(s)|;
      assert s[..n] == [s[0]] + s[1..][..n - 1];
    }
  }

  lemma {:induction false} TrimRightFacts(s: string)
    ensures TrimRight(s) <= s && AllSpace(s[|TrimRight(s)|..])
    ensures TrimRight(s) != "" ==> !IsSpace(TrimRight(s)[|TrimRight(s)| - 1])
  {
    if s != "" && IsSpace(s[|s| - 1]) {
      TrimRightFacts(s[..|s| - 1]);
      var n := |TrimRight(s)|;
      assert s[n..] == s[..|s| - 1][n..] + [s[|s| - 1]];
    }
  }

  /** Trimming takes white space off both ends, all of it and nothing else. */
  lemma TrimFacts(s: string) returns (front: string, back: string)
    ensures s == front + Trim(s) + back && AllSpace(front) && AllSpace(back)
    ensures Trim(s) != "" ==> !IsSpace(Trim(s)[0]) && !IsSpace(Trim(s)[|Trim(s)| - 1])
  {
    TrimLeftFacts(s);
    TrimRightFacts(TrimLeft(s));
    front := s[..|s| - |TrimLeft(s)|];
    back := TrimLeft(s)[|Trim(s)|..];
  }
}
