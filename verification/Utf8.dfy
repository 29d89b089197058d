/** UTF-8 as section 4 of RFC 3629 defines it: which byte strings are valid, and where characters
    begin. */
module Utf8 {
  type Byte = b: int | 0 <= b < 256

  predicate Continuation(b: Byte) {
    0x80 <= b <= 0xBF
  }

  /** The length the first byte of a character announces; 0 when no character starts with it. */
  function Announced(b: Byte): nat
  {
    if b <= 0x7F then 1
    else if 0xC2 <= b <= 0xDF then 2
    else if 0xE0 <= b <= 0xEF then 3
    else if 0xF0 <= b <= 0xF4 then 4
    else 0
  }

  /** The second byte of a character is a continuation byte, further restricted after E0, ED, F0
      and F4. */
  predicate SecondByte(first: Byte, second: Byte) {
    && Continuation(second)
    && (first == 0xE0 ==> 0xA0 <= second)
    && (first == 0xED ==> second <= 0x9F)
    && (first == 0xF0 ==> 0x90 <= second)
    && (first == 0xF4 ==> second <= 0x8F)
  }

  /** The length of the character at the front; 0 when there is none. */
  function CharLen(s: seq<Byte>): (n: nat)
    ensures n <= |s| && n <= 4
    ensures n > 0 ==> n == Announced(s[0]) && forall i :: 1 <= i < n ==> Continuation(s[i])
  {
    if s == [] then 0
    else
      var n := Announced(s[0]);
      if n > |s| then 0
      else if n >= 2 && !SecondByte(s[0], s[1]) then 0
      else if n >= 3 && !Continuation(s[2]) then 0
      else if n == 4 && !Continuation(s[3]) then 0
      else n
  }

  /** The well-formed byte sequences of one character, as the table of section 4 of RFC 3629 has them. */
  predicate WellFormed(c: seq<Byte>) {
    match |c|
    case 1 => c[0] <= 0x7F
    case 2 => 0xC2 <= c[0] <= 0xDF && 0x80 <= c[1] <= 0xBF
    case 3 =>
      && 0x80 <= c[2] <= 0xBF
      && (|| (c[0] == 0xE0 && 0xA0 <= c[1] <= 0xBF)
          || (0xE1 <= c[0] <= 0xEC && 0x80 <= c[1] <= 0xBF)
          || (c[0] == 0xED && 0x80 <= c[1] <= 0x9F)
          || (0xEE <= c[0] <= 0xEF && 0x80 <= c[1] <= 0xBF))
    case 4 =>
      && 0x80 <= c[2] <= 0xBF && 0x80 <= c[3] <= 0xBF
      && (|| (c[0] == 0xF0 && 0x90 <= c[1] <= 0xBF)
          || (0xF1 <= c[0] <= 0xF3 && 0x80 <= c[1] <= 0xBF)
          || (c[0] == 0xF4 && 0x80 <= c[1] <= 0x8F))
    case _ => false
  }

  /** Exactly these start a text, with their own lengths. */
  lemma CharLenExactly(s: seq<Byte>, n: nat)
    requires n <= |s|
    ensures WellFormed(s[..n]) <==> n > 0 && CharLen(s) == n
  {
  }

  predicate Valid(s: seq<Byte>)
    decreases |s|
  {
    s == [] || (CharLen(s) > 0 && Valid(s[CharLen(s)..]))
  }

  /** `str::is_char_boundary`. */
  predicate Boundary(s: seq<Byte>, i: nat) {
    i == 0 || i == |s| || (i < |s| && !Continuation(s[i]))
  }

  /** A character is decided by its own bytes. */
  lemma CharLenAppend(s: seq<Byte>, t: seq<Byte>)
    requires CharLen(s) > 0
    ensures CharLen(s + t) == CharLen(s)
  {
  }

  lemma {:induction false} ValidConcat(s: seq<Byte>, t: seq<Byte>)
    requires Valid(s) && Valid(t)
    ensures Valid(s + t)
    decreases |s|
  {
    if s == [] {
      assert s + t == t;
    } else {
      var n := CharLen(s);
      ValidConcat(s[n..], t);
      CharLenAppend(s, t);
      assert (s + t)[n..] == s[n..] + t;
    }
  }

  /** Cutting valid text at a character boundary leaves two valid texts. */
  lemma {:induction false} ValidSplit(s: seq<Byte>, i: nat)
    requires Valid(s) && i <= |s| && Boundary(s, i)
    ensures Valid(s[..i]) && Valid(s[i..])
    decreases |s|
  {
    hide CharLen, Boundary;
    if i == 0 {
      assert s[..0] == [] && s[0..] == s;
    } else if i == |s| {
      assert s[..i] == s && s[i..] == [];
    } else {
      var n := CharLen(s);
      BoundaryIsPast(s, i);
      ValidSplit(s[n..], i - n);
      assert s[n..][i - n..] == s[i..];
      assert s[n..][..i - n] == s[..i][n..];
      CharLenTake(s, i);
      FirstThenValid(s[..i]);
    }
  }

  /** A boundary inside the text does not lie inside its first character. */
  lemma BoundaryIsPast(s: seq<Byte>, i: nat)
    requires Valid(s) && 0 < i < |s| && Boundary(s, i)
    ensures 0 < CharLen(s) <= i && Boundary(s[CharLen(s)..], i - CharLen(s)) && Valid(s[CharLen(s)..])
  {
  }

  lemma FirstThenValid(s: seq<Byte>)
    requires CharLen(s) > 0 && Valid(s[CharLen(s)..])
    ensures Valid(s)
  {
  }

  lemma CharLenTake(s: seq<Byte>, i: nat)
    requires 0 < CharLen(s) <= i <= |s|
    ensures CharLen(s[..i]) == CharLen(s)
  {
  }

  /** In valid text a character boundary is at most three bytes back. */
  lemma {:induction false} BoundaryNear(s: seq<Byte>, i: nat) returns (j: nat)
    requires Valid(s) && i <= |s|
    ensures j <= i <= j + 3 && Boundary(s, j)
    decreases |s|
  {
    if i == |s| || i == 0 {
      j := i;
    } else {
      var n := CharLen(s);
      if i < n {
        j := 0;
      } else {
        j := BoundaryNear(s[n..], i - n);
        j := j + n;
        if j == n && n < |s| {
          StartsOnBoundary(s[n..]);
        }
      }
    }
  }

  lemma StartsOnBoundary(s: seq<Byte>)
    requires Valid(s) && s != []
    ensures !Continuation(s[0])
  {
  }
}
