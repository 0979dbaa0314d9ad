/** Stock optional value. */
module Options {
  datatype Option<+T> = None | Some(value: T)
}

/** Video identifiers: 128-bit UUIDs and their canonical text form (section 4 of RFC 9562). */
module VideoIds {
  import opened Options

  const ID_COUNT: nat := 0x1_0000_0000_0000_0000_0000_0000_0000_0000

  type VideoId = n: nat | n < ID_COUNT

  const HEX_DIGITS := "0123456789abcdef"

  predicate IsDigit(c: char) { '0' <= c <= '9' }

  predicate IsHex(c: char) {
    IsDigit(c) || 'a' <= c <= 'f' || 'A' <= c <= 'F'
  }

  predicate AllHex(s: string) {
    forall i :: 0 <= i < |s| ==> IsHex(s[i])
  }

  function HexValue(c: char): (v: nat)
    requires IsHex(c)
    ensures v < 16
  {
    if IsDigit(c) then c as int - '0' as int
    else if 'a' <= c <= 'f' then c as int - 'a' as int + 10
    else c as int - 'A' as int + 10
  }

  function Pow16(width: nat): nat {
    if width == 0 then 1 else 16 * Pow16(width - 1)
  }

  /** `width` lower-case hexadecimal digits, most significant first. */
  function ToHex(n: nat, width: nat): (s: string)
    ensures |s| == width && AllHex(s)
  {
    if width == 0 then "" else ToHex(n / 16, width - 1) + [HEX_DIGITS[n % 16]]
  }

  /** int(s, 16): upper-case and lower-case digits read the same. */
  function FromHex(s: string): nat
    requires AllHex(s)
  {
    if s == "" then 0 else FromHex(s[..|s| - 1]) * 16 + HexValue(s[|s| - 1])
  }

  lemma {:induction false} HexRoundTrip(n: nat, width: nat)
    requires n < Pow16(width)
    ensures FromHex(ToHex(n, width)) == n
  {
    if width == 0 {
    } else {
      HexRoundTrip(n / 16, width - 1);
      var s := ToHex(n, width);
      assert s[..|s| - 1] == ToHex(n / 16, width - 1);
      assert HexValue(HEX_DIGITS[n % 16]) == n % 16;
    }
  }

  lemma {:induction false} FromHexBound(s: string)
    requires AllHex(s)
    ensures FromHex(s) < Pow16(|s|)
  {
    if s == "" {
    } else {
      FromHexBound(s[..|s| - 1]);
    }
  }

  lemma IdCountIsPow16()
    ensures Pow16(32) == ID_COUNT
  {
    assert Pow16(8) == 0x1_0000_0000 by { assert Pow16(4) == 0x1_0000; }
    assert Pow16(16) == 0x1_0000_0000_0000_0000 by { assert Pow16(12) == 0x1_0000_0000_0000; }
    assert Pow16(24) == 0x1_0000_0000_0000_0000_0000_0000 by { assert Pow16(20) == 0x1_0000_0000_0000_0000_0000; }
    assert Pow16(28) == 0x1_0000_0000_0000_0000_0000_0000_0000;
  }

  function Dashed(h: string): string
    requires |h| == 32
  {
    h[..8] + "-" + h[8..12] + "-" + h[12..16] + "-" + h[16..20] + "-" + h[20..]
  }

  /** str(uuid). */
  function Text(id: VideoId): (s: string)
    ensures |s| == 36
  {
    Dashed(ToHex(id, 32))
  }

  /** The 8-4-4-4-12 shape of the key pattern's `video_id` group. */
  predicate HasUuidShape(s: string) {
    && |s| == 36
    && s[8] == s[13] == s[18] == s[23] == '-'
    && AllHex(s[..8]) && AllHex(s[9..13]) && AllHex(s[14..18]) && AllHex(s[19..23]) && AllHex(s[24..])
  }

  function Undashed(s: string): string
    requires |s| == 36
  {
    s[..8] + s[9..13] + s[14..18] + s[19..23] + s[24..]
  }

  /** uuid.UUID(s): the dashes are dropped and the rest read as one hexadecimal number. */
  function FromText(s: string): VideoId
    requires HasUuidShape(s)
  {
    FromHexBound(Undashed(s));
    IdCountIsPow16();
    FromHex(Undashed(s))
  }

  lemma UndashedDashed(h: string)
    requires |h| == 32 && AllHex(h)
    ensures HasUuidShape(Dashed(h)) && Undashed(Dashed(h)) == h
  {
    var s := Dashed(h);
    assert s[..8] == h[..8];
    assert s[9..13] == h[8..12];
    assert s[14..18] == h[12..16];
    assert s[19..23] == h[16..20];
    assert s[24..] == h[20..];
  }

  lemma {:induction false} HexIsLowerCase(n: nat, width: nat)
    ensures forall c :: c in ToHex(n, width) ==> '0' <= c <= '9' || 'a' <= c <= 'f'
  {
    if width == 0 {
    } else {
      HexIsLowerCase(n / 16, width - 1);
    }
  }

  lemma DashedChars(h: string)
    requires |h| == 32
    ensures forall c :: c in Dashed(h) ==> c == '-' || c in h
  {
  }

  /** An ID is written in lower case, and reads back. */
  lemma TextRoundTrip(id: VideoId)
    ensures HasUuidShape(Text(id)) && FromText(Text(id)) == id
    ensures forall c :: c in Text(id) ==> '0' <= c <= '9' || 'a' <= c <= 'f' || c == '-'
  {
    hide HasUuidShape, FromText;
    HexIsLowerCase(id, 32);
    DashedChars(ToHex(id, 32));
    ReadsBack(id);
  }

  lemma ReadsBack(id: VideoId)
    ensures HasUuidShape(Text(id)) && FromText(Text(id)) == id
  {
    UndashedDashed(ToHex(id, 32));
    IdCountIsPow16();
    HexRoundTrip(id, 32);
  }

  /** Two videos never share a workflow ID. */
  lemma TextInjective(a: VideoId, b: VideoId)
    requires Text(a) == Text(b)
    ensures a == b
  {
    TextRoundTrip(a);
    TextRoundTrip(b);
  }
}
