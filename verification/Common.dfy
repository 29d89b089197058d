/** Small vocabulary shared by every model in this project. */
module Common {
  datatype Option<+T> = None | Some(value: T)

  /** The length of a text in UTF-8 (section 3 of RFC 3629). */
  function ByteLength(s: string): nat
  {
    if s == [] then 0
    else
      (if s[0] <= '\U{007F}' then 1 else if s[0] <= '\U{07FF}' then 2 else if s[0] <= '\U{FFFF}' then 3 else 4)
      + ByteLength(s[1..])
  }

  /** One byte up to U+007F, two up to U+07FF, three up to U+FFFF, four beyond; and lengths add up. */
  lemma ByteLengthExactly(s: string, c: char)
    ensures ByteLength("") == 0
    ensures ByteLength([c] + s) == ByteLength(s) + if c as int < 0x80 then 1 else if c as int < 0x800 then 2 else if c as int < 0x1_0000 then 3 else 4
  {
    assert ([c] + s)[1..] == s;
  }

  /** The White_Space property of Unicode. */
  predicate Whitespace(c: char) {
    || '\U{0009}' <= c <= '\U{000D}' || c == ' ' || c == '\U{0085}' || c == '\U{00A0}' || c == '\U{1680}'
    || '\U{2000}' <= c <= '\U{200A}' || c == '\U{2028}' || c == '\U{2029}' || c == '\U{202F}'
    || c == '\U{205F}' || c == '\U{3000}'
  }

  /** The 25 characters that have it. */
  lemma WhitespaceExactly(c: char)
    ensures Whitespace(c) <==> c as int in [
      0x09, 0x0A, 0x0B, 0x0C, 0x0D, 0x20, 0x85, 0xA0, 0x1680,
      0x2000, 0x2001, 0x2002, 0x2003, 0x2004, 0x2005, 0x2006, 0x2007, 0x2008, 0x2009, 0x200A,
      0x2028, 0x2029, 0x202F, 0x205F, 0x3000]
  {
  }

  /** The general category Cc of Unicode. */
  predicate Control(c: char) {
    c <= '\U{001F}' || '\U{007F}' <= c <= '\U{009F}'
  }

  /** The 65 characters that have it. */
  lemma ControlExactly(c: char)
    ensures Control(c) <==> c as int < 0x20 || 0x7F <= c as int < 0xA0
  {
  }

  const MAX_ID_BYTES: nat := 128

  /** The identifiers the protocol accepts. */
  predicate ValidId(s: string) {
    && s != [] && ByteLength(s) <= MAX_ID_BYTES
    && forall i :: 0 <= i < |s| ==> !Control(s[i]) && !Whitespace(s[i])
  }

  /** Refused are the empty text, more than 128 bytes, and any control or white-space character. */
  lemma ValidIdExactly(s: string)
    ensures !ValidId(s) <==>
      || |s| == 0
      || 128 < ByteLength(s)
      || exists i :: 0 <= i < |s| && (s[i] as int < 0x20 || 0x7F <= s[i] as int < 0xA0 || Whitespace(s[i]))
  {
  }
}
