/** Cutting, joining, and decimal digits. */
module Text {
  import opened Wrappers

  /** The first position of `c`, or the length. */
  function IndexOf(s: string, c: char): (i: nat)
    ensures i <= |s|
  {
    if s == "" || s[0] == c then 0 else 1 + IndexOf(s[1..], c)
  }

  lemma {:induction false} IndexOfIsFirst(s: string, c: char)
    ensures IndexOf(s, c) < |s| ==> s[IndexOf(s, c)] == c
    ensures c !in s[..IndexOf(s, c)]
  {
    if s != "" && s[0] != c {
      IndexOfIsFirst(s[1..], c);
      assert s[..IndexOf(s, c)] == [s[0]] + s[1..][..IndexOf(s[1..], c)];
    }
  }

  lemma {:induction false} FirstIsIndexOf(s: string, c: char, k: nat)
    requires k < |s| && s[k] == c && c !in s[..k]
    ensures IndexOf(s, c) == k
    decreases k
  {
    if k > 0 {
      assert s[..k][0] == s[0];
      assert s[1..][..k - 1] == s[..k][1..];
      FirstIsIndexOf(s[1..], c, k - 1);
    }
  }

  /** Cut at the first `c`, which belongs to neither part. */
  function Cut(s: string, c: char): (r: Option<(string, string)>)
    ensures r.Some? ==> |r.value.0| + 1 + |r.value.1| == |s|
  {
    var i := IndexOf(s, c);
    if i == |s| then None else Some((s[..i], s[i + 1..]))
  }

  /** Cutting undoes joining, and answers nothing else. */
  lemma CutIsJoinInverse(s: string, c: char, a: string, b: string)
    ensures Cut(s, c) == Some((a, b)) <==> s == a + [c] + b && c !in a
  {
    var i := IndexOf(s, c);
    IndexOfIsFirst(s, c);
    if s == a + [c] + b && c !in a {
      assert s[..|a|] == a;
      FirstIsIndexOf(s, c, |a|);
      assert s[i + 1..] == b;
    }
    if i < |s| {
      assert s == s[..i] + [c] + s[i + 1..];
    }
  }

  function Join(parts: seq<string>, separator: string): string {
    if parts == [] then ""
    else if |parts| == 1 then parts[0]
    else parts[0] + separator + Join(parts[1..], separator)
  }

  // ---------- Decimal numbers ----------

  predicate AllDigits(s: string) {
    forall k | 0 <= k < |s| :: '0' <= s[k] <= '9'
  }

  function Digit(d: nat): (c: char)
    requires d < 10
    ensures '0' <= c <= '9'
  {
    '0' + d as char
  }

  function DigitValue(c: char): (d: nat)
    requires '0' <= c <= '9'
    ensures d < 10 && Digit(d) == c
  {
    (c - '0') as nat
  }

  /** `n` in decimal, padded with zeros to at least `width` digits. */
  function Padded(n: nat, width: nat): (s: string)
    ensures s != "" && AllDigits(s)
    decreases n, width
  {
    if n < 10 && width <= 1 then [Digit(n)]
    else Padded(n / 10, if width == 0 then 0 else width - 1) + [Digit(n % 10)]
  }

  /** The number that a string of digits spells. */
  function ParseNat(s: string): Option<nat> {
    if s == "" || !('0' <= s[|s| - 1] <= '9') then None
    else if |s| == 1 then Some(DigitValue(s[0]))
    else
      match ParseNat(s[..|s| - 1])
      case None => None
      case Some(n) => Some(10 * n + DigitValue(s[|s| - 1]))
  }

  lemma ParseOneMore(s: string, d: nat)
    requires ParseNat(s).Some? && d < 10
    ensures ParseNat(s + [Digit(d)]) == Some(10 * ParseNat(s).value + d)
  {
    assert (s + [Digit(d)])[..|s|] == s;
  }

  /** Padding never changes the number, and is no longer than it has to be. */
  lemma {:induction false} PaddedSpells(n: nat, width: nat)
    ensures ParseNat(Padded(n, width)) == Some(n)
    ensures |Padded(n, width)| >= width
    ensures |Padded(n, width)| > 1 && |Padded(n, width)| > width ==> Padded(n, width)[0] != '0'
    decreases n, width
  {
    if n < 10 && width <= 1 {
      assert ParseNat([Digit(n)]) == Some(n);
    } else {
      var shorter := if width == 0 then 0 else width - 1;
      PaddedSpells(n / 10, shorter);
      ParseOneMore(Padded(n / 10, shorter), n % 10);
      assert |Padded(n / 10, shorter)| == 1 ==> Padded(n / 10, shorter)[0] == Digit(n / 10) by {
        if |Padded(n / 10, shorter)| == 1 {
          assert n / 10 < 10 && shorter <= 1;
        }
      }
    }
  }
}
