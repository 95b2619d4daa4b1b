// The length of text in UTF-8, as section 3 of RFC 3629 defines it.
module Utf8 {
  function Bytes(text: string): (r: nat)
    ensures |text| <= r <= 4 * |text|
  {
    if text == "" then 0 else BytesOfChar(text[0]) + Bytes(text[1..])
  }

  function BytesOfChar(c: char): (r: nat)
    ensures 1 <= r <= 4
  {
    var code := c as int;
    if code < 0x80 then 1 else if code < 0x800 then 2 else if code < 0x1_0000 then 3 else 4
  }
}
