/**
 * `toJavaPublicKey`: the stored public key (base64 of a COSE_Key) back into an
 * EC public key. Section 13.1.1 of RFC 8152 puts the EC2 x-coordinate at
 * label -2 and the y-coordinate at label -3, each a byte string that the code
 * reads as an unsigned big-endian integer.
 */
module CoseKey {

  import opened Wrappers
  import opened Bytes
  import opened Cbor
  import opened Platform

  const XLabel := IntLabel(-2)
  const YLabel := IntLabel(-3)
  const CurveName := "secp256r1"

  /** The point `ECPoint(BigInteger(1, x), BigInteger(1, y))`; None where a cast in the source throws. */
  function CosePoint(decoded: Item): (r: Option<EcPoint>)
    ensures r.Some? <==>
      && decoded.MapItem?
      && XLabel in decoded.entries && decoded.entries[XLabel].ByteString?
      && YLabel in decoded.entries && decoded.entries[YLabel].ByteString?
    ensures r.Some? ==>
      && r.value.x == BigEndian(decoded.entries[XLabel].bytes)
      && r.value.y == BigEndian(decoded.entries[YLabel].bytes)
  {
    match (ByteStringAt(decoded, XLabel), ByteStringAt(decoded, YLabel))
    case (Some(x), Some(y)) => Some(EcPoint(BigEndian(x), BigEndian(y)))
    case _ => None
  }

  /**
   * `String.toJavaPublicKey()`. The key is on the named curve secp256r1; None
   * stands for a failed decode or cast, which the source does not catch.
   */
  function ToJavaPublicKey(p: Platform, stored: string): (r: Option<PublicKey>)
    ensures r.Some? <==> p.cborFirst(p.b64Decode(stored)).Some? && CosePoint(p.cborFirst(p.b64Decode(stored)).value).Some?
    ensures r.Some? ==> r.value.curveName == CurveName && r.value.w == CosePoint(p.cborFirst(p.b64Decode(stored)).value).value
  {
    match p.cborFirst(p.b64Decode(stored))
    case None => None
    case Some(decoded) =>
      match CosePoint(decoded)
      case None => None
      case Some(point) => Some(EcPublicKey(CurveName, point))
  }

  /** The map with the values at -2 and -3 exchanged. */
  function SwapCoordinates(entries: map<Label, Item>): map<Label, Item>
    requires XLabel in entries && YLabel in entries
  {
    entries[XLabel := entries[YLabel]][YLabel := entries[XLabel]]
  }

  /** x comes from label -2 and y from label -3: exchanging the two values exchanges the coordinates. */
  lemma CoordinatesNeverSwapped(entries: map<Label, Item>)
    requires CosePoint(MapItem(entries)).Some?
    ensures CosePoint(MapItem(SwapCoordinates(entries))) ==
      Some(EcPoint(CosePoint(MapItem(entries)).value.y, CosePoint(MapItem(entries)).value.x))
  {
  }

  /** Leading zero bytes in either coordinate's byte string do not change the point. */
  lemma LeadingZerosKeepPoint(entries: map<Label, Item>, zx: Bytes, zy: Bytes)
    requires CosePoint(MapItem(entries)).Some?
    requires AllZero(zx) && AllZero(zy)
    ensures
      var padded := entries[XLabel := ByteString(zx + entries[XLabel].bytes)]
                           [YLabel := ByteString(zy + entries[YLabel].bytes)];
      CosePoint(MapItem(padded)) == CosePoint(MapItem(entries))
  {
    BigEndianLeadingZeros(zx, entries[XLabel].bytes);
    BigEndianLeadingZeros(zy, entries[YLabel].bytes);
  }

  /** A coordinate read from an n-byte string is below 256^n; 32-byte strings give P-256-sized values. */
  lemma CoordinatesBoundedByLength(entries: map<Label, Item>)
    requires CosePoint(MapItem(entries)).Some?
    ensures CosePoint(MapItem(entries)).value.x < Pow256(|entries[XLabel].bytes|)
    ensures CosePoint(MapItem(entries)).value.y < Pow256(|entries[YLabel].bytes|)
  {
    BigEndianBound(entries[XLabel].bytes);
    BigEndianBound(entries[YLabel].bytes);
  }
}
