/** `safe_ascii`: the sanitiser the gateway applies to raw request bytes before
    logging them, so that control bytes and non-ASCII never reach the log. */
module Ascii {
  import opened Primitives

  /** A character the sanitiser may produce: space through tilde. */
  predicate Printable(ch: char) {
    0x20 <= ch as int <= 0x7e
  }

  /** One output character per input byte: bytes up to 0x20 become a space,
      0x21..0x7e stay as they are, 0x7f and above become '?'. */
  method SafeAscii(s: seq<u8>) returns (r: string)
    ensures |r| == |s|
    ensures forall i :: 0 <= i < |s| && s[i] <= 0x20 ==> r[i] == ' '
    ensures forall i :: 0 <= i < |s| && 0x20 < s[i] < 0x7f ==> r[i] as int == s[i] as int
    ensures forall i :: 0 <= i < |s| && 0x7f <= s[i] ==> r[i] == '?'
    ensures forall i :: 0 <= i < |r| ==> Printable(r[i])
    // printable bytes are kept as they are
    ensures forall i :: 0 <= i < |s| && 0x20 <= s[i] <= 0x7e ==> r[i] as int == s[i] as int
  {
    r := "";
    var k := 0;
    while k < |s|
      invariant 0 <= k <= |s|
      invariant |r| == k
      invariant forall i :: 0 <= i < k && s[i] <= 0x20 ==> r[i] == ' '
      invariant forall i :: 0 <= i < k && 0x20 < s[i] < 0x7f ==> r[i] as int == s[i] as int
      invariant forall i :: 0 <= i < k && 0x7f <= s[i] ==> r[i] == '?'
    {
      var x := s[k];
      if x <= 0x20 {
        r := r + [' '];
      } else if x < 0x7f {
        r := r + [x as int as char];
      } else {
        r := r + ['?'];
      }
      k := k + 1;
    }
  }
}
