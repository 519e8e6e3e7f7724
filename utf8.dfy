/** Rust's `String::len` counts the bytes of the UTF-8 encoding, not the
    characters. Every length bound of the domain constructors is stated
    with `ByteLen`. */
module Utf8 {

  /** Number of bytes UTF-8 uses for one Unicode scalar value. */
  function Width(c: char): (w: nat)
    ensures 1 <= w <= 4
    ensures w == 1 <==> (c as int) < 0x80
  {
    if (c as int) < 0x80 then 1
    else if (c as int) < 0x800 then 2
    else if (c as int) < 0x1_0000 then 3
    else 4
  }

  /** `s.len()` for a Rust `String` holding the characters of `s`. */
  function ByteLen(s: string): nat
  {
    if s == [] then 0 else Width(s[0]) + ByteLen(s[1..])
  }

  predicate IsAscii(s: string)
  {
    forall i :: 0 <= i < |s| ==> (s[i] as int) < 0x80
  }

  /** The string made of `n` copies of `c` (Rust's `c.to_string().repeat(n)`). */
  function Repeat(c: char, n: nat): (s: string)
    ensures |s| == n
    ensures forall i :: 0 <= i < n ==> s[i] == c
  {
    if n == 0 then [] else [c] + Repeat(c, n - 1)
  }

  /** The byte length is zero exactly for the empty string. */
  lemma ByteLenZero(s: string)
    ensures ByteLen(s) == 0 <==> s == []
  {
  }

  /** Between one and four bytes per character. */
  lemma {:induction false} ByteLenBounds(s: string)
    ensures |s| <= ByteLen(s) <= 4 * |s|
  {
    if s != [] {
      ByteLenBounds(s[1..]);
    }
  }

  /** The byte length of a concatenation is the sum of the byte lengths. */
  lemma {:induction false} ByteLenAppend(a: string, b: string)
    ensures ByteLen(a + b) == ByteLen(a) + ByteLen(b)
  {
    if a != [] {
      assert (a + b)[1..] == a[1..] + b;
      ByteLenAppend(a[1..], b);
    } else {
      assert a + b == b;
    }
  }

  /** For ASCII text, bytes and characters agree. */
  lemma {:induction false} AsciiByteLen(s: string)
    requires IsAscii(s)
    ensures ByteLen(s) == |s|
  {
    if s != [] {
      assert IsAscii(s[1..]) by {
        forall i | 0 <= i < |s[1..]| ensures (s[1..][i] as int) < 0x80 {
          assert s[1..][i] == s[i + 1];
        }
      }
      AsciiByteLen(s[1..]);
    }
  }

  /** `n` copies of `c` take `n * Width(c)` bytes. */
  lemma {:induction false} RepeatByteLen(c: char, n: nat)
    ensures ByteLen(Repeat(c, n)) == n * Width(c)
  {
    if n > 0 {
      assert Repeat(c, n)[1..] == Repeat(c, n - 1);
      RepeatByteLen(c, n - 1);
    }
  }
}
