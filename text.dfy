/**
  * Rust's `str` seen through its UTF-8 bytes: the encoding (`str::as_bytes`), strict decoding
  * (`String::from_utf8`), the byte length (`str::len`), char boundaries and byte-range slicing
  * (`&s[..k]`), `char::is_whitespace` and `str::trim`.
  */
module Text {
  import opened Prelude

  function Min(a: nat, b: nat): nat { if a <= b then a else b }

  /** Number of bytes UTF-8 spends on one Unicode scalar value. */
  function Width(c: char): (n: nat)
    ensures 1 <= n <= 4
  {
    if c as int < 0x80 then 1
    else if c as int < 0x800 then 2
    else if c as int < 0x1_0000 then 3
    else 4
  }

  /** A UTF-8 continuation byte, 10xxxxxx. */
  predicate IsContinuation(b: u8) { 0x80 <= b < 0xC0 }

  /** The UTF-8 encoding of one scalar value. */
  function EncodeChar(c: char): (bs: seq<u8>)
    ensures |bs| == Width(c)
  {
    var v := c as int;
    if v < 0x80 then [v as u8]
    else if v < 0x800 then [(0xC0 + v / 0x40) as u8, (0x80 + v % 0x40) as u8]
    else if v < 0x1_0000 then
      [(0xE0 + v / 0x1000) as u8, (0x80 + v / 0x40 % 0x40) as u8, (0x80 + v % 0x40) as u8]
    else
      [(0xF0 + v / 0x4_0000) as u8, (0x80 + v / 0x1000 % 0x40) as u8,
       (0x80 + v / 0x40 % 0x40) as u8, (0x80 + v % 0x40) as u8]
  }

  /** `str::as_bytes`: the UTF-8 encoding of a string. */
  function Encode(s: string): seq<u8>
  {
    if s == [] then [] else EncodeChar(s[0]) + Encode(s[1..])
  }

  /** `str::len`: the length of a string in UTF-8 bytes, between one and four per character. */
  function ByteLength(s: string): (n: nat)
    ensures n == |Encode(s)|
    ensures |s| <= n <= 4 * |s|
  {
    if s == [] then 0 else Width(s[0]) + ByteLength(s[1..])
  }

  /**
    * Decodes the scalar value at the start of `bs`, with the number of bytes it takes, when those
    * bytes are well-formed UTF-8: the shortest form, not a surrogate, at most U+10FFFF.
    */
  function DecodeChar(bs: seq<u8>): (r: Option<(char, nat)>)
    ensures r.Some? ==> r.value.1 == Width(r.value.0) <= |bs|
  {
    if bs == [] then None
    else
      var b0 := bs[0] as int;
      if b0 < 0x80 then Some((b0 as char, 1))
      else if b0 < 0xC2 then None
      else if b0 < 0xE0 then
        if |bs| < 2 || !IsContinuation(bs[1]) then None
        else
          var v := (b0 - 0xC0) * 0x40 + (bs[1] as int - 0x80);
          Some((v as char, 2))
      else if b0 < 0xF0 then
        if |bs| < 3 || !IsContinuation(bs[1]) || !IsContinuation(bs[2]) then None
        else
          var v := (b0 - 0xE0) * 0x1000 + (bs[1] as int - 0x80) * 0x40 + (bs[2] as int - 0x80);
          if v < 0x800 || 0xD800 <= v < 0xE000 then None else Some((v as char, 3))
      else if b0 < 0xF5 then
        if |bs| < 4 || !IsContinuation(bs[1]) || !IsContinuation(bs[2]) || !IsContinuation(bs[3]) then None
        else
          var v := (b0 - 0xF0) * 0x4_0000 + (bs[1] as int - 0x80) * 0x1000
                   + (bs[2] as int - 0x80) * 0x40 + (bs[3] as int - 0x80);
          if v < 0x1_0000 || 0x11_0000 <= v then None else Some((v as char, 4))
      else None
  }

  /** `String::from_utf8`: the string whose encoding is `bs`, or `None` when `bs` is not UTF-8. */
  function Decode(bs: seq<u8>): Option<string>
    decreases |bs|
  {
    if bs == [] then Some([])
    else match DecodeChar(bs)
      case None => None
      case Some((c, w)) =>
        match Decode(bs[w..])
        case None => None
        case Some(rest) => Some([c] + rest)
  }

  lemma Split(v: int, d: int)
    requires 0 < d
    ensures v == v / d * d + v % d && 0 <= v % d < d
  {
  }

  /** The decoder reads back exactly the character the encoder wrote, whatever follows it. */
  lemma DecodeEncodeChar(c: char, rest: seq<u8>)
    ensures DecodeChar(EncodeChar(c) + rest) == Some((c, Width(c)))
  {
    var v := c as int;
    if v < 0x80 {
    } else if v < 0x800 {
      DecodeEncodeTwo(c, rest);
    } else if v < 0x1_0000 {
      DecodeEncodeThree(c, rest);
    } else {
      DecodeEncodeFour(c, rest);
    }
  }

  lemma DecodeEncodeTwo(c: char, rest: seq<u8>)
    requires 0x80 <= c as int < 0x800
    ensures DecodeChar(EncodeChar(c) + rest) == Some((c, 2))
  {
    var v := c as int;
    var bs := EncodeChar(c) + rest;
    Split(v, 0x40);
    assert bs[0] as int - 0xC0 == v / 0x40 && bs[1] as int - 0x80 == v % 0x40;
  }

  lemma DecodeEncodeThree(c: char, rest: seq<u8>)
    requires 0x800 <= c as int < 0x1_0000
    ensures DecodeChar(EncodeChar(c) + rest) == Some((c, 3))
  {
    var v := c as int;
    var bs := EncodeChar(c) + rest;
    Split(v, 0x40);
    Split(v / 0x40, 0x40);
    assert v / 0x1000 == v / 0x40 / 0x40;
    assert bs[0] as int - 0xE0 == v / 0x1000;
    assert bs[1] as int - 0x80 == v / 0x40 % 0x40 && bs[2] as int - 0x80 == v % 0x40;
  }

  lemma DecodeEncodeFour(c: char, rest: seq<u8>)
    requires 0x1_0000 <= c as int
    ensures DecodeChar(EncodeChar(c) + rest) == Some((c, 4))
  {
    var v := c as int;
    var bs := EncodeChar(c) + rest;
    Split(v, 0x40);
    Split(v / 0x40, 0x40);
    Split(v / 0x1000, 0x40);
    assert v / 0x1000 == v / 0x40 / 0x40;
    assert v / 0x4_0000 == v / 0x1000 / 0x40;
    assert bs[0] as int - 0xF0 == v / 0x4_0000;
    assert bs[1] as int - 0x80 == v / 0x1000 % 0x40;
    assert bs[2] as int - 0x80 == v / 0x40 % 0x40 && bs[3] as int - 0x80 == v % 0x40;
  }

  /** Round trip: decoding the encoding of any string gives the string back. */
  lemma {:induction false} DecodeEncode(s: string)
    ensures Decode(Encode(s)) == Some(s)
  {
    if s != [] {
      var head, tail := EncodeChar(s[0]), Encode(s[1..]);
      DecodeEncodeChar(s[0], tail);
      assert (head + tail)[|head|..] == tail;
      DecodeEncode(s[1..]);
      assert [s[0]] + s[1..] == s;
    }
  }

  /** The decoder accepts only what the encoder produces: whatever it decodes re-encodes to its input. */
  lemma {:induction false} EncodeDecode(bs: seq<u8>)
    requires Decode(bs).Some?
    ensures Encode(Decode(bs).value) == bs
    decreases |bs|
  {
    if bs != [] {
      var c, w, rest := DecodeFirst(bs);
      EncodeDecode(bs[w..]);
      assert Encode([c] + rest) == EncodeChar(c) + Encode(rest);
      assert bs == bs[..w] + bs[w..];
    }
  }

  /** Decoding a non-empty input takes one character off its front and decodes the rest. */
  lemma DecodeFirst(bs: seq<u8>) returns (c: char, w: nat, rest: string)
    requires bs != [] && Decode(bs).Some?
    ensures 0 < w <= |bs| && Decode(bs[w..]) == Some(rest)
    ensures Decode(bs).value == [c] + rest
    ensures EncodeChar(c) == bs[..w]
  {
    var first := DecodeChar(bs).value;
    c, w := first.0, first.1;
    rest := Decode(bs[w..]).value;
    EncodeDecodeChar(bs);
  }

  lemma EncodeDecodeChar(bs: seq<u8>)
    requires DecodeChar(bs).Some?
    ensures EncodeChar(DecodeChar(bs).value.0) == bs[..DecodeChar(bs).value.1]
  {
    var (c, w) := DecodeChar(bs).value;
    var v := c as int;
    var b0 := bs[0] as int;
    if w == 2 {
      var lo := bs[1] as int - 0x80;
      assert v == (b0 - 0xC0) * 0x40 + lo;
      DivMod(v, b0 - 0xC0, lo, 0x40);
    } else if w == 3 {
      var mid, lo := bs[1] as int - 0x80, bs[2] as int - 0x80;
      assert v == ((b0 - 0xE0) * 0x40 + mid) * 0x40 + lo;
      DivMod(v, (b0 - 0xE0) * 0x40 + mid, lo, 0x40);
      DivMod(v / 0x40, b0 - 0xE0, mid, 0x40);
      assert v / 0x1000 == v / 0x40 / 0x40;
    } else if w == 4 {
      var hi, mid, lo := bs[1] as int - 0x80, bs[2] as int - 0x80, bs[3] as int - 0x80;
      assert v == (((b0 - 0xF0) * 0x40 + hi) * 0x40 + mid) * 0x40 + lo;
      DivMod(v, ((b0 - 0xF0) * 0x40 + hi) * 0x40 + mid, lo, 0x40);
      DivMod(v / 0x40, (b0 - 0xF0) * 0x40 + hi, mid, 0x40);
      DivMod(v / 0x40 / 0x40, b0 - 0xF0, hi, 0x40);
      assert v / 0x1000 == v / 0x40 / 0x40;
      assert v / 0x4_0000 == v / 0x40 / 0x40 / 0x40;
    }
  }

  lemma DivMod(v: int, q: int, r: int, d: int)
    requires d == 0x40 && 0 <= r < d && v == q * d + r
    ensures v / d == q && v % d == r
  {
  }

  /** A string of ASCII characters takes one byte per character. */
  lemma {:induction false} AsciiByteLength(s: string)
    requires forall i | 0 <= i < |s| :: s[i] < '\U{80}'
    ensures ByteLength(s) == |s|
  {
    if s != [] {
      AsciiByteLength(s[1..]);
    }
  }

  /** `str::is_char_boundary`: byte offset `k` of `s` falls between two characters or at an end. */
  predicate IsCharBoundary(s: string, k: nat)
  {
    k == 0 || (s != [] && Width(s[0]) <= k && IsCharBoundary(s[1..], k - Width(s[0])))
  }

  /** The end of a string is a char boundary. */
  lemma {:induction false} EndIsBoundary(s: string)
    ensures IsCharBoundary(s, ByteLength(s))
  {
    if s != [] {
      EndIsBoundary(s[1..]);
    }
  }

  /** The longest prefix of `s` whose encoding fits in `n` bytes (`str::floor_char_boundary`). */
  function Floor(s: string, n: nat): (p: string)
    ensures p <= s && ByteLength(p) <= n
    ensures p == s || n < ByteLength(p) + Width(s[|p|])
  {
    if s == [] || n < Width(s[0]) then []
    else
      var rest := Floor(s[1..], n - Width(s[0]));
      assert ([s[0]] + rest)[1..] == rest;
      [s[0]] + rest
  }

  /** At a char boundary the floor prefix ends exactly there. */
  lemma {:induction false} FloorAtBoundary(s: string, k: nat)
    requires IsCharBoundary(s, k)
    ensures ByteLength(Floor(s, k)) == k
  {
    if k != 0 {
      FloorAtBoundary(s[1..], k - Width(s[0]));
      var rest := Floor(s[1..], k - Width(s[0]));
      assert ([s[0]] + rest)[1..] == rest;
    }
  }

  /**
    * `&s[..k]`: the prefix of `s` that ends at byte `k`, or `None` for the panic that slicing a
    * `str` raises when `k` is not a char boundary.
    */
  function SliceTo(s: string, k: nat): (r: Option<string>)
    ensures r.Some? <==> IsCharBoundary(s, k)
    ensures r.Some? ==> r.value <= s && ByteLength(r.value) == k
  {
    if IsCharBoundary(s, k) then
      FloorAtBoundary(s, k);
      Some(Floor(s, k))
    else None
  }

  /** The bytes allowed in a log preview of a scanned string (lib.rs and worker.rs). */
  const PreviewBytes: nat := 50

  /**
    * The preview `&data[..data.len().min(50)]` as written: `None` is the panic raised when byte 50
    * falls inside a multi-byte character.
    */
  function PreviewAsWritten(s: string): Option<string>
  {
    SliceTo(s, Min(ByteLength(s), PreviewBytes))
  }

  /**
    * The preview as intended: the longest prefix of at most 50 bytes. It is defined on every
    * string, is the whole string when that fits, and agrees with the written slice whenever that
    * one does not panic.
    */
  function Preview(s: string): (r: string)
    ensures r <= s && ByteLength(r) <= PreviewBytes
    ensures ByteLength(s) <= PreviewBytes ==> r == s
    ensures r == s || PreviewBytes < ByteLength(r) + Width(s[|r|])
    ensures PreviewAsWritten(s).Some? ==> PreviewAsWritten(s) == Some(r)
  {
    var r := Floor(s, PreviewBytes);
    if ByteLength(s) <= PreviewBytes then
      PrefixByteLength(s, r);
      EndIsBoundary(s);
      PrefixByteLength(s, SliceTo(s, ByteLength(s)).value);
      r
    else
      assert PreviewAsWritten(s) == SliceTo(s, PreviewBytes);
      r
  }

  /** A proper prefix of a string is shorter in bytes than the string. */
  lemma {:induction false} PrefixByteLength(s: string, p: string)
    requires p <= s
    ensures ByteLength(p) <= ByteLength(s)
    ensures p != s ==> ByteLength(p) + Width(s[|p|]) <= ByteLength(s)
  {
    if p != [] {
      assert p[1..] <= s[1..];
      PrefixByteLength(s[1..], p[1..]);
    }
  }

  /** Every char boundary of a string of three-byte characters is a multiple of three. */
  lemma {:induction false} ThreeByteBoundaries(s: string, k: nat)
    requires forall i | 0 <= i < |s| :: Width(s[i]) == 3
    requires IsCharBoundary(s, k)
    ensures k % 3 == 0
  {
    if k != 0 {
      ThreeByteBoundaries(s[1..], k - 3);
    }
  }

  lemma {:induction false} ThreeByteLength(s: string)
    requires forall i | 0 <= i < |s| :: Width(s[i]) == 3
    ensures ByteLength(s) == 3 * |s|
  {
    if s != [] {
      ThreeByteLength(s[1..]);
    }
  }

  /**
    * The written preview panics on a scan of seventeen hiragana letters 'あ' (U+3042): the text
    * is 51 bytes long and byte 50 falls inside the seventeenth letter.
    */
  lemma PreviewPanicsOnHiragana()
    ensures PreviewAsWritten(seq(17, _ => '\U{3042}')).None?
  {
    var s := seq(17, _ => '\U{3042}');
    ThreeByteLength(s);
    if IsCharBoundary(s, 50) {
      ThreeByteBoundaries(s, 50);
    }
  }

  /** `char::is_whitespace`: the characters with the Unicode White_Space property. */
  predicate IsWhitespace(c: char)
  {
    || ('\t' <= c <= '\r') || c == ' ' || c == '\U{85}' || c == '\U{A0}' || c == '\U{1680}'
    || ('\U{2000}' <= c <= '\U{200A}') || c == '\U{2028}' || c == '\U{2029}' || c == '\U{202F}'
    || c == '\U{205F}' || c == '\U{3000}'
  }

  /** Every character of `s` is whitespace (so also when `s` is empty). */
  predicate IsBlank(s: string)
  {
    forall i | 0 <= i < |s| :: IsWhitespace(s[i])
  }

  /** `str::trim_start`. */
  function TrimStart(s: string): (r: string)
    ensures r == [] || !IsWhitespace(r[0])
  {
    if s != [] && IsWhitespace(s[0]) then TrimStart(s[1..]) else s
  }

  /** `str::trim_end`. */
  function TrimEnd(s: string): string
  {
    if s != [] && IsWhitespace(s[|s| - 1]) then TrimEnd(s[..|s| - 1]) else s
  }

  /** `str::trim`: `s` without its leading and trailing whitespace. */
  function Trim(s: string): string
  {
    TrimEnd(TrimStart(s))
  }

  lemma {:induction false} TrimStartEmpty(s: string)
    ensures TrimStart(s) == [] <==> IsBlank(s)
  {
    if s != [] && IsWhitespace(s[0]) {
      TrimStartEmpty(s[1..]);
      assert IsBlank(s) <==> IsBlank(s[1..]) by {
        if IsBlank(s[1..]) {
          forall i | 0 <= i < |s| ensures IsWhitespace(s[i]) {
            if i > 0 { assert s[i] == s[1..][i - 1]; }
          }
        }
      }
    }
  }

  lemma {:induction false} TrimEndKeepsHead(s: string)
    requires s != [] && !IsWhitespace(s[0])
    ensures TrimEnd(s) != []
    decreases |s|
  {
    if IsWhitespace(s[|s| - 1]) {
      TrimEndKeepsHead(s[..|s| - 1]);
    }
  }

  /** `name.trim().is_empty()` holds exactly for the strings made only of whitespace. */
  lemma TrimEmptyIffBlank(s: string)
    ensures Trim(s) == [] <==> IsBlank(s)
  {
    TrimStartEmpty(s);
    if TrimStart(s) != [] {
      TrimEndKeepsHead(TrimStart(s));
    }
  }
}
