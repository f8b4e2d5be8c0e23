/** Well-formed UTF-8, the check `std::str::from_utf8` makes before a streamed chunk reaches the
    parser. The byte ranges are those of table 3-7 ("Well-Formed UTF-8 Byte Sequences") of the
    Unicode Standard, section 3.9: no overlong forms, no surrogates, nothing above U+10FFFF. */
module Utf8 {
  import opened Types

  predicate Continuation(b: u8) {
    0x80 <= b <= 0xBF
  }

  /** The length of the well-formed character `s` starts with, or 0 when it starts with none. */
  function CharLength(s: seq<u8>): (n: nat)
    ensures n <= 4 && n <= |s|
    ensures n > 0 ==> (s[0] < 0x80 <==> n == 1)
  {
    if |s| == 0 then 0
    else if s[0] <= 0x7F then 1
    else if 0xC2 <= s[0] <= 0xDF then
      if |s| >= 2 && Continuation(s[1]) then 2 else 0
    else if s[0] == 0xE0 then
      if |s| >= 3 && 0xA0 <= s[1] <= 0xBF && Continuation(s[2]) then 3 else 0
    else if 0xE1 <= s[0] <= 0xEC || 0xEE <= s[0] <= 0xEF then
      if |s| >= 3 && Continuation(s[1]) && Continuation(s[2]) then 3 else 0
    else if s[0] == 0xED then
      if |s| >= 3 && 0x80 <= s[1] <= 0x9F && Continuation(s[2]) then 3 else 0
    else if s[0] == 0xF0 then
      if |s| >= 4 && 0x90 <= s[1] <= 0xBF && Continuation(s[2]) && Continuation(s[3]) then 4 else 0
    else if 0xF1 <= s[0] <= 0xF3 then
      if |s| >= 4 && Continuation(s[1]) && Continuation(s[2]) && Continuation(s[3]) then 4 else 0
    else if s[0] == 0xF4 then
      if |s| >= 4 && 0x80 <= s[1] <= 0x8F && Continuation(s[2]) && Continuation(s[3]) then 4 else 0
    else 0
  }

  /** `s` is a sequence of complete, well-formed characters. */
  predicate ValidUtf8(s: seq<u8>)
    decreases |s|
  {
    s == [] || (CharLength(s) > 0 && ValidUtf8(s[CharLength(s)..]))
  }

  /** A character that is complete at the front of `a` is read the same way when more bytes follow. */
  lemma CharLengthOfPrefix(a: seq<u8>, b: seq<u8>)
    requires CharLength(a) > 0
    ensures CharLength(a + b) == CharLength(a)
  {
    var n := CharLength(a);
    assert forall i :: 0 <= i < n ==> (a + b)[i] == a[i];
  }

  /** Joining two well-formed texts gives a well-formed text. */
  lemma {:induction false} ValidConcat(a: seq<u8>, b: seq<u8>)
    requires ValidUtf8(a) && ValidUtf8(b)
    ensures ValidUtf8(a + b)
    decreases |a|
  {
    if a == [] {
      assert a + b == b;
    } else {
      var n := CharLength(a);
      var ab := a + b;
      CharLengthOfPrefix(a, b);
      assert ab[n..] == a[n..] + b;
      ValidConcat(a[n..], b);
      assert ab != [] && CharLength(ab) == n && ValidUtf8(ab[n..]);
    }
  }
}
