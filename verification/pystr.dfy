/**
 * The few Python string operations the radio controller relies on, restated
 * over `seq<char>`: slicing with Python's clamping of out-of-range bounds, and
 * zero padding on either side.
 */
module PyStr {

  /** Python slicing for non-negative bounds: bounds past the end are clamped, and an
      empty slice results when `i` is not below the clamped `j`. */
  function Slice(s: string, i: nat, j: nat): (r: string)
    ensures |r| == (if j <= |s| then j else |s|) - (if i <= j && i <= |s| then i else if j <= |s| then j else |s|)
    ensures i <= j <= |s| ==> r == s[i..j]
    ensures j > |s| && i <= |s| ==> r == s[i..]
    ensures i >= |s| || i >= j ==> r == []
  {
    var hi := if j <= |s| then j else |s|;
    var lo := if i <= hi then i else hi;
    s[lo..hi]
  }

  /** Python slicing to the end, for a non-negative start. */
  function From(s: string, i: nat): (r: string)
    ensures i <= |s| ==> r == s[i..]
    ensures i >= |s| ==> r == []
  {
    Slice(s, i, |s|)
  }

  /** A run of `n` zero digits. */
  function Zeros(n: nat): string {
    seq(n, _ => '0')
  }

  /** Left padding with zeros up to length `n`, one digit per step. */
  function PadLeft(s: string, n: nat): string
    decreases n - |s|
  {
    if |s| >= n then s else PadLeft("0" + s, n)
  }

  /** Right padding with zeros up to length `n`, one digit per step. */
  function PadRight(s: string, n: nat): (r: string)
    ensures |r| == if |s| >= n then |s| else n
    ensures r[..|s|] == s
    decreases n - |s|
  {
    if |s| >= n then s
    else
      var r := PadRight(s + "0", n);
      assert r[..|s|] == r[..|s| + 1][..|s|];
      r
  }

  /** Left padding puts exactly the missing zeros in front of `s`. */
  lemma {:induction false} PadLeftIsZerosThenText(s: string, n: nat)
    ensures PadLeft(s, n) == if |s| >= n then s else Zeros(n - |s|) + s
    decreases n - |s|
  {
    if |s| < n {
      PadLeftIsZerosThenText("0" + s, n);
      assert Zeros(n - |s|) == "0" + Zeros(n - |s| - 1);
    }
  }

  /** Right padding puts exactly the missing zeros after `s`. */
  lemma {:induction false} PadRightIsTextThenZeros(s: string, n: nat)
    ensures PadRight(s, n) == if |s| >= n then s else s + Zeros(n - |s|)
    decreases n - |s|
  {
    if |s| < n {
      PadRightIsTextThenZeros(s + "0", n);
      assert Zeros(n - |s|) == "0" + Zeros(n - |s| - 1);
    }
  }

  /** Lower-casing of one character: ASCII capitals become small letters. */
  function LowerAscii(c: char): char
  {
    if 'A' <= c <= 'Z' then (c as int - 'A' as int + 'a' as int) as char else c
  }

  /** Lower-casing leaves no capital behind, changes nothing else, is
      idempotent, and identifies exactly a capital with its small letter. */
  lemma LowerAsciiFolds(c: char, d: char)
    ensures !('A' <= LowerAscii(c) <= 'Z')
    ensures !('A' <= c <= 'Z') ==> LowerAscii(c) == c
    ensures LowerAscii(LowerAscii(c)) == LowerAscii(c)
    ensures LowerAscii(c) == LowerAscii(d) <==>
            c == d || ('A' <= c <= 'Z' && d as int == c as int + 32) || ('A' <= d <= 'Z' && c as int == d as int + 32)
  {
  }
}
