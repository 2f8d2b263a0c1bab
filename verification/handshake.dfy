/**
 * The handshake parser: classifies the first data chunk of a logical
 * connection as a VLESS or a Trojan header, checks the credential, and
 * decodes the destination and the offset at which the initial payload
 * starts. Reads follow JavaScript `Buffer` semantics: an index past the end
 * is `undefined`, `subarray` clamps, and `readUInt16BE` throws.
 */
module Handshake {
  import opened Wrappers
  import opened JsBuffer

  /**
   * The configured identity: the UUID's 16 raw bytes (its hex digits decoded)
   * and the hex SHA-224 digest of the UUID text. The digest is computed by a
   * foreign hash function, so it is given rather than computed.
   */
  datatype Secret = Secret(raw: Bytes, digestHex: string)

  /** The classification step in front of the decoder. */
  datatype Kind = VlessHeader | TrojanHeader | Unrecognised

  datatype Variant = Vless | Trojan

  /**
   * A decoded destination host: the bytes of an IPv4 address (joined with
   * dots to form the host text, and possibly fewer than four when the
   * chunk was cut short), the raw bytes of a domain name (decoded as UTF-8
   * to form the host text), or the fixed text "ipv6" that both variants
   * record instead of decoding an IPv6 address.
   */
  datatype Host = Dotted(octets: Bytes) | Domain(utf8: Bytes) | Ipv6Placeholder

  /** What a successful parse hands to the connector. */
  datatype Destination = Destination(variant: Variant, host: Host, port: nat, payloadStart: nat)

  /**
   * Why a chunk was refused. `ReadPastEnd` is the exception `readUInt16BE`
   * raises; the others are the parser returning false.
   */
  datatype ParseError = Unrecognized | BadIdentity | BadCommand | BadAddressType | ReadPastEnd

  datatype AddressForm = FormIPv4 | FormDomain | FormIPv6

  function Classify(buf: Bytes): Kind
  {
    if |buf| >= 17 && buf[0] == 0x00 then VlessHeader
    else if |buf| >= 58 then TrojanHeader
    else Unrecognised
  }

  /** VLESS address types: 1 IPv4, 2 domain, 3 IPv6. */
  function VlessForm(tag: Byte): Option<AddressForm>
  {
    if tag == 1 then Some(FormIPv4)
    else if tag == 2 then Some(FormDomain)
    else if tag == 3 then Some(FormIPv6)
    else None
  }

  /** Trojan address types, as in section 5 of RFC 1928: 1 IPv4, 3 domain, 4 IPv6. */
  function TrojanForm(tag: Byte): Option<AddressForm>
  {
    if tag == 1 then Some(FormIPv4)
    else if tag == 3 then Some(FormDomain)
    else if tag == 4 then Some(FormIPv6)
    else None
  }

  /** A JavaScript cursor after `cursor += undefined`: a number or NaN. */
  datatype JsCursor = Offset(n: nat) | NotANumber

  /**
   * The address body at `at` and the cursor just after it, read as the
   * source reads them: truncated bytes are clamped away (`subarray`), so the
   * cursor may pass the end of the chunk, and a domain whose length byte is
   * missing gives the empty host and a NaN cursor. The cursor stays inside
   * the chunk exactly when the whole address arrived.
   */
  function ReadAddress(buf: Bytes, form: AddressForm, at: nat): (r: (Host, JsCursor))
    ensures r.1.NotANumber? <==> form == FormDomain && at >= |buf|
    ensures r.0.Dotted? <==> form == FormIPv4
    ensures form == FormIPv4 && r.1.n <= |buf| ==> at + 4 <= |buf| && r.0 == Dotted(buf[at..at + 4])
    ensures form == FormIPv4 && r.1.n > |buf| ==> |r.0.octets| < 4
    ensures form == FormDomain && r.1.Offset? ==> at < |buf| && r.1.n == at + 1 + buf[at] && r.0.Domain?
    ensures form == FormDomain && r.1.Offset? && r.1.n <= |buf| ==> r.0.utf8 == buf[at + 1..r.1.n]
    ensures form == FormDomain && r.1.Offset? && r.1.n > |buf| ==> |r.0.utf8| < buf[at]
  {
    match form
    case FormIPv4 => (Dotted(Sub(buf, at, at + 4)), Offset(at + 4))
    case FormIPv6 => (Ipv6Placeholder, Offset(at + 16))
    case FormDomain =>
      if at < |buf| then
        var n: nat := buf[at] as int;
        (Domain(Sub(buf, at + 1, at + 1 + n)), Offset(at + 1 + n))
      else (Domain(Sub(buf, at, at)), NotANumber)
  }

  /** What the source's VLESS branch hands on: host, port, and a payload cursor that may be NaN or past the end. */
  datatype VlessAccept = VlessAccept(host: Host, port: nat, cursor: JsCursor)

  /**
   * VLESS as the source writes it: version byte, 16 identity bytes, add-on
   * length L, L add-on bytes, a command byte that is not inspected,
   * big-endian port, address type, address. The port is read before the
   * address, so nothing checks that the address arrived.
   */
  function DecodeVlessAsWritten(secret: Secret, buf: Bytes): Result<VlessAccept, ParseError>
  {
    if Sub(buf, 1, 17) != secret.raw then Failure(BadIdentity)
    else if |buf| <= 17 then Failure(ReadPastEnd)
    else
      var portAt: nat := 19 + buf[17] as int;
      if |buf| < portAt + 2 then Failure(ReadPastEnd)
      else
        var tagAt := portAt + 2;
        var form := if tagAt < |buf| then VlessForm(buf[tagAt]) else None;
        if form.None? then Failure(BadAddressType)
        else
          var a := ReadAddress(buf, form.value, tagAt + 1);
          Success(VlessAccept(a.0, U16(buf, portAt), a.1))
  }

  /**
   * VLESS with the address checked: the source's reading, refusing (as a
   * read past the end) a header whose address does not fit in the chunk,
   * which is what the Trojan branch's port read after the address does.
   */
  function DecodeVless(secret: Secret, buf: Bytes): (r: Result<Destination, ParseError>)
    ensures r.Success? ==> r.value.variant == Vless && r.value.payloadStart <= |buf|
    ensures r.Success? && r.value.host.Dotted? ==> |r.value.host.octets| == 4
  {
    match DecodeVlessAsWritten(secret, buf)
    case Failure(e) => Failure(e)
    case Success(a) =>
      if a.cursor.Offset? && a.cursor.n <= |buf| then Success(Destination(Vless, a.host, a.port, a.cursor.n))
      else Failure(ReadPastEnd)
  }

  /** ASCII upper case folded to lower case; every other byte unchanged. */
  function FoldByte(b: Byte): Byte
  {
    if 0x41 <= b <= 0x5A then b + 0x20 else b
  }

  /**
   * The Trojan credential check: the 56 leading bytes, decoded as UTF-8 and
   * lower-cased, equal the lower-cased hex digest. Stated per byte; a byte
   * from 0x80 up decodes to a non-ASCII character, which cannot equal a
   * character of a hex digest.
   */
  predicate DigestMatches(head: Bytes, digestHex: string)
  {
    && |head| == |digestHex|
    && forall i :: 0 <= i < |head| ==>
         head[i] < 0x80 && digestHex[i] as int < 0x80 && FoldByte(head[i]) == FoldByte(digestHex[i] as int)
  }

  /**
   * Trojan: 56 hex digits, an optional CR LF, command 1, address type,
   * address, big-endian port, an optional CR LF.
   */
  function DecodeTrojan(secret: Secret, buf: Bytes): Result<Destination, ParseError>
  {
    if !DigestMatches(Sub(buf, 0, 56), secret.digestHex) then Failure(BadIdentity)
    else
      var cmdAt := if At(buf, 56) == Some(0x0d) && At(buf, 57) == Some(0x0a) then 58 else 56;
      if At(buf, cmdAt) != Some(0x01) then Failure(BadCommand)
      else
        var form := if cmdAt + 1 < |buf| then TrojanForm(buf[cmdAt + 1]) else None;
        if form.None? then Failure(BadAddressType)
        else match ReadAddress(buf, form.value, cmdAt + 2)
          case (_, NotANumber) => Failure(ReadPastEnd)
          case (host, Offset(portAt)) =>
            if |buf| < portAt + 2 then Failure(ReadPastEnd)
            else
              var end := portAt + 2;
              var start := if |buf| >= end + 2 && buf[end] == 0x0d && buf[end + 1] == 0x0a then end + 2 else end;
              Success(Destination(Trojan, host, U16(buf, portAt), start))
  }

  /** Classification followed by the matching decoder. */
  function Parse(secret: Secret, buf: Bytes): Result<Destination, ParseError>
  {
    match Classify(buf)
    case VlessHeader => DecodeVless(secret, buf)
    case TrojanHeader => DecodeTrojan(secret, buf)
    case Unrecognised => Failure(Unrecognized)
  }

  /** The bytes written to the destination before piping starts. */
  function InitialPayload(buf: Bytes, start: nat): Bytes
  {
    if start < |buf| then buf[start..] else []
  }
}
