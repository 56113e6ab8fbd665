/**
 * The UUID casts: varbinary and UUID convert when the binary is exactly 16 bytes, and
 * varchar converts to UUID when the text parses and is exactly 36 bytes long. A UUID
 * renders to varchar(x) when its text fits.
 */
module UuidOperators {
  import opened Errors

  type Byte = b: int | 0 <= b < 256

  /** A UUID value: 16 bytes. */
  type Uuid = s: seq<Byte> | |s| == 16 witness seq(16, _ => 0)

  function CastFromVarbinaryToUuid(slice: seq<Byte>): (r: Result<Uuid>)
    ensures r.Ok? <==> |slice| == 16
    ensures r.Ok? ==> r.value == slice
    ensures r.Err? ==> r.error == TrinoException(INVALID_CAST_ARGUMENT)
  {
    if |slice| == 16 then Ok(slice) else Err(TrinoException(INVALID_CAST_ARGUMENT))
  }

  /** A fresh buffer holding the UUID's bytes. */
  function CastFromUuidToVarbinary(u: Uuid): (r: seq<Byte>)
    ensures |r| == 16 && forall i :: 0 <= i < 16 ==> r[i] == u[i]
  {
    seq(16, i requires 0 <= i < 16 => u[i])
  }

  /** varbinary to UUID and back gives the same 16 bytes. */
  lemma VarbinaryRoundTrip(slice: seq<Byte>)
    requires |slice| == 16
    ensures CastFromVarbinaryToUuid(slice).Ok?
    ensures CastFromUuidToVarbinary(CastFromVarbinaryToUuid(slice).value) == slice
  {
  }

  /** UUID to varbinary and back gives the same UUID. */
  lemma UuidRoundTrip(u: Uuid)
    ensures CastFromVarbinaryToUuid(CastFromUuidToVarbinary(u)) == Ok(u)
  {
    assert CastFromUuidToVarbinary(u) == u;
  }

  /**
   * varchar to UUID, with `parse` the text parser (`None` is its `IllegalArgumentException`).
   * A text that parses is still rejected unless it is exactly 36 bytes long.
   */
  function CastFromVarcharToUuid(slice: seq<Byte>, parse: seq<Byte> -> Option<Uuid>): (r: Result<Uuid>)
    ensures r.Ok? <==> parse(slice).Some? && |slice| == 36
    ensures r.Ok? ==> r.value == parse(slice).value
    ensures r.Err? ==> r.error == TrinoException(INVALID_CAST_ARGUMENT)
  {
    match parse(slice)
    case None => Err(TrinoException(INVALID_CAST_ARGUMENT))
    case Some(u) => if |slice| == 36 then Ok(u) else Err(TrinoException(INVALID_CAST_ARGUMENT))
  }

  /** UUID to varchar(x), with `render` the UUID's text: it succeeds when the text has at most `x` bytes. */
  function CastFromUuidToVarchar(x: int, u: Uuid, render: Uuid -> seq<Byte>): (r: Result<seq<Byte>>)
    ensures r.Ok? <==> |render(u)| <= x
    ensures r.Ok? ==> r.value == render(u)
    ensures r.Err? ==> r.error == TrinoException(INVALID_CAST_ARGUMENT)
  {
    var varchar := render(u);
    if |varchar| <= x then Ok(varchar) else Err(TrinoException(INVALID_CAST_ARGUMENT))
  }

  // The canonical text form of RFC 4122 section 3: 32 hex digits in groups of 8-4-4-4-12.

  const DASH: Byte := 0x2d

  function HexDigit(v: int): Byte
    requires 0 <= v < 16
  {
    if v < 10 then 0x30 + v else 0x61 - 10 + v
  }

  /** The value of an ASCII hex digit of either case. */
  function HexValue(c: Byte): (r: Option<int>)
    ensures r.Some? ==> 0 <= r.value < 16
  {
    if 0x30 <= c <= 0x39 then Some(c - 0x30)
    else if 0x61 <= c <= 0x66 then Some(c - 0x61 + 10)
    else if 0x41 <= c <= 0x46 then Some(c - 0x41 + 10)
    else None
  }

  /** Two lowercase hex digits per byte, high nibble first. */
  function Hex(bs: seq<Byte>): (r: seq<Byte>)
    ensures |r| == 2 * |bs|
  {
    if bs == [] then [] else [HexDigit(bs[0] / 16), HexDigit(bs[0] % 16)] + Hex(bs[1..])
  }

  /** The bytes spelled by pairs of hex digits, or `None` for an odd length or a non-hex character. */
  function Unhex(s: seq<Byte>): Option<seq<Byte>>
  {
    if |s| == 0 then Some([])
    else if |s| == 1 then None
    else match (HexValue(s[0]), HexValue(s[1]), Unhex(s[2..]))
      case (Some(high), Some(low), Some(rest)) => Some([16 * high + low] + rest)
      case _ => None
  }

  lemma {:induction false} HexAppend(a: seq<Byte>, b: seq<Byte>)
    ensures Hex(a + b) == Hex(a) + Hex(b)
  {
    if a != [] {
      assert (a + b)[1..] == a[1..] + b;
      HexAppend(a[1..], b);
    } else {
      assert a + b == b;
    }
  }

  lemma {:induction false} UnhexHex(bs: seq<Byte>)
    ensures Unhex(Hex(bs)) == Some(bs)
  {
    if bs != [] {
      var h := Hex(bs);
      assert h[2..] == Hex(bs[1..]);
      UnhexHex(bs[1..]);
      assert HexValue(HexDigit(bs[0] / 16)) == Some(bs[0] / 16);
      assert HexValue(HexDigit(bs[0] % 16)) == Some(bs[0] % 16);
      assert [bs[0]] + bs[1..] == bs;
    }
  }

  /** The canonical lowercase text of a UUID, its bytes in order. */
  function CanonicalText(u: Uuid): (r: seq<Byte>)
    ensures |r| == 36
    ensures r[8] == DASH && r[13] == DASH && r[18] == DASH && r[23] == DASH
  {
    Hex(u[..4]) + [DASH] + Hex(u[4..6]) + [DASH] + Hex(u[6..8]) + [DASH] + Hex(u[8..10]) + [DASH] + Hex(u[10..])
  }

  /** A parser for exactly the canonical form: 36 bytes, dashes at 8, 13, 18 and 23, hex digits elsewhere. */
  function ParseCanonical(s: seq<Byte>): (r: Option<Uuid>)
    ensures r.Some? ==> |s| == 36
  {
    if |s| != 36 || s[8] != DASH || s[13] != DASH || s[18] != DASH || s[23] != DASH then None
    else match Unhex(s[..8] + s[9..13] + s[14..18] + s[19..23] + s[24..])
      case Some(bs) => if |bs| == 16 then Some(bs) else None
      case None => None
  }

  /** Parsing the canonical text gives back the UUID. */
  lemma CanonicalRoundTrip(u: Uuid)
    ensures ParseCanonical(CanonicalText(u)) == Some(u)
  {
    var s := CanonicalText(u);
    assert s[..8] == Hex(u[..4]);
    assert s[9..13] == Hex(u[4..6]);
    assert s[14..18] == Hex(u[6..8]);
    assert s[19..23] == Hex(u[8..10]);
    assert s[24..] == Hex(u[10..]);
    HexAppend(u[..4], u[4..6]);
    HexAppend(u[..4] + u[4..6], u[6..8]);
    HexAppend(u[..4] + u[4..6] + u[6..8], u[8..10]);
    HexAppend(u[..4] + u[4..6] + u[6..8] + u[8..10], u[10..]);
    assert u[..4] + u[4..6] + u[6..8] + u[8..10] + u[10..] == u;
    UnhexHex(u);
  }

  /** With the canonical form, every UUID's text casts back to the UUID. */
  lemma CanonicalVarcharRoundTrip(u: Uuid)
    ensures CastFromUuidToVarchar(36, u, CanonicalText).Ok?
    ensures CastFromVarcharToUuid(CastFromUuidToVarchar(36, u, CanonicalText).value, ParseCanonical) == Ok(u)
  {
    CanonicalRoundTrip(u);
  }

  /** The canonical text is 36 bytes, so the cast to varchar(x) fails exactly when `x < 36`. */
  lemma CanonicalVarcharWidth(x: int, u: Uuid)
    ensures CastFromUuidToVarchar(x, u, CanonicalText).Ok? <==> x >= 36
  {
  }
}
