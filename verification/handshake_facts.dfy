/**
 * Properties of the handshake parser beyond the round trips: which chunks
 * reach which decoder, what the credential checks accept, and what a header
 * cut inside its address decodes to, in the source's VLESS branch (which
 * accepts it) and in the corrected one (which refuses it).
 */
module HandshakeFacts {
  import opened Wrappers
  import opened JsBuffer
  import opened Handshake
  import opened HandshakeWire
  import opened HostLiteral

  /**
   * A chunk is a VLESS header exactly when it is at least 17 bytes long and
   * starts with 0x00; failing that, a Trojan header when at least 58 bytes
   * long; anything else is refused without being decoded.
   */
  lemma ParseClassifies(secret: Secret, buf: Bytes)
    ensures Parse(secret, buf) == Failure(Unrecognized) <==> !(|buf| >= 17 && buf[0] == 0x00) && |buf| < 58
    ensures Parse(secret, buf).Success? ==>
      (Parse(secret, buf).value.variant == Vless <==> |buf| >= 17 && buf[0] == 0x00)
    ensures Parse(secret, buf).Success? && Parse(secret, buf).value.variant == Trojan ==>
      |buf| >= 58 && buf[0] != 0x00
  {
  }

  /** A VLESS header is accepted only if bytes 1 to 16 are the raw identity. */
  lemma VlessNeedsIdentity(secret: Secret, buf: Bytes)
    requires |buf| >= 17 && buf[0] == 0x00
    ensures buf[1..17] != secret.raw ==> Parse(secret, buf) == Failure(BadIdentity)
    ensures Parse(secret, buf).Success? ==> buf[1..17] == secret.raw
  {
  }

  /** An unknown VLESS address type is refused once the port has been read. */
  lemma VlessUnknownTagRejected(secret: Secret, buf: Bytes)
    requires |buf| >= 18 && buf[0] == 0x00 && buf[1..17] == secret.raw
    requires |buf| >= 21 + buf[17] as int
    requires 21 + buf[17] as int >= |buf| || buf[21 + buf[17] as int] !in {1, 2, 3}
    ensures Parse(secret, buf) == Failure(BadAddressType)
  {
  }

  /** A Trojan header is accepted only if its first 56 bytes match the digest. */
  lemma TrojanNeedsDigest(secret: Secret, buf: Bytes)
    requires |buf| >= 58 && buf[0] != 0x00
    ensures !DigestMatches(buf[..56], secret.digestHex) ==> Parse(secret, buf) == Failure(BadIdentity)
    ensures Parse(secret, buf).Success? ==> DigestMatches(buf[..56], secret.digestHex)
  {
  }

  /**
   * Once the digest and the CONNECT command are in place, the header is
   * refused for its address type exactly when the type byte is missing or
   * is not 1 (IPv4), 3 (domain) or 4 (IPv6).
   */
  lemma TrojanUnknownTagRejected(secret: Secret, buf: Bytes)
    requires |buf| >= 58 && buf[0] != 0x00 && DigestMatches(buf[..56], secret.digestHex)
    requires var cmdAt := if buf[56] == 0x0d && buf[57] == 0x0a then 58 else 56;
      cmdAt < |buf| && buf[cmdAt] == 0x01
    ensures var cmdAt := if buf[56] == 0x0d && buf[57] == 0x0a then 58 else 56;
      (cmdAt + 1 >= |buf| || buf[cmdAt + 1] !in {1, 3, 4}) <==> Parse(secret, buf) == Failure(BadAddressType)
  {
  }

  /** After the digest and the optional CR LF, the command byte must be 1. */
  lemma TrojanNeedsConnectCommand(secret: Secret, buf: Bytes)
    requires |buf| >= 58 && buf[0] != 0x00 && DigestMatches(buf[..56], secret.digestHex)
    ensures var cmdAt := if buf[56] == 0x0d && buf[57] == 0x0a then 58 else 56;
      (cmdAt >= |buf| || buf[cmdAt] != 0x01) <==> Parse(secret, buf) == Failure(BadCommand)
  {
  }

  /**
   * A Trojan header is accepted only when its address and port are complete:
   * the payload starts inside the chunk or right at its end, an IPv4 host
   * has all four bytes, and a domain host has all its declared bytes.
   */
  lemma TrojanAddressComplete(secret: Secret, buf: Bytes)
    requires Parse(secret, buf).Success? && Parse(secret, buf).value.variant == Trojan
    ensures Parse(secret, buf).value.payloadStart <= |buf|
    ensures Parse(secret, buf).value.host.Dotted? ==> |Parse(secret, buf).value.host.octets| == 4
    ensures var cmdAt := if buf[56] == 0x0d && buf[57] == 0x0a then 58 else 56;
      Parse(secret, buf).value.host.Domain? ==>
        cmdAt + 2 < |buf| && |Parse(secret, buf).value.host.utf8| == buf[cmdAt + 2]
  {
  }

  /**
   * The correction only refuses: where it accepts, the source accepts the
   * same host and port with the same payload cursor, and where the two
   * differ the source accepted a cursor that is NaN or past the end of the
   * chunk, that is, an address that did not arrive whole.
   */
  lemma VlessCorrectionOnlyRefuses(secret: Secret, buf: Bytes)
    ensures DecodeVless(secret, buf).Success? ==>
      DecodeVlessAsWritten(secret, buf)
        == Success(VlessAccept(DecodeVless(secret, buf).value.host, DecodeVless(secret, buf).value.port,
                               Offset(DecodeVless(secret, buf).value.payloadStart)))
    ensures DecodeVlessAsWritten(secret, buf).Failure? ==>
      DecodeVless(secret, buf) == Failure(DecodeVlessAsWritten(secret, buf).error)
    ensures DecodeVlessAsWritten(secret, buf).Success? && DecodeVless(secret, buf).Failure? <==>
      DecodeVlessAsWritten(secret, buf).Success?
      && (DecodeVlessAsWritten(secret, buf).value.cursor.NotANumber?
          || DecodeVlessAsWritten(secret, buf).value.cursor.n > |buf|)
  {
  }

  /**
   * VLESS reads the port before the address, so a header cut inside an IPv4
   * address is accepted as written: the host holds the bytes that arrived
   * and the payload cursor lies past the end of the chunk, so nothing is
   * forwarded as initial payload. The corrected decoder refuses it.
   */
  lemma VlessTruncatedIPv4(secret: Secret, r: VlessRequest, cut: nat)
    requires |secret.raw| == 16 && ValidVless(r) && r.address.IPv4Addr?
    requires |VlessHeaderBytes(secret, r)| - 4 <= cut < |VlessHeaderBytes(secret, r)|
    ensures var h := VlessHeaderBytes(secret, r);
      DecodeVlessAsWritten(secret, h[..cut])
        == Success(VlessAccept(Dotted(r.address.octets[..cut - (|h| - 4)]), r.port, Offset(|h|)))
    ensures InitialPayload(VlessHeaderBytes(secret, r)[..cut], |VlessHeaderBytes(secret, r)|) == []
    ensures Parse(secret, VlessHeaderBytes(secret, r)[..cut]) == Failure(ReadPastEnd)
  {
    var h := VlessHeaderBytes(secret, r);
    var buf := h[..cut];
    var o := r.address.octets;
    var portAt := 19 + |r.addons|;
    assert h == [0x00] + secret.raw + [|r.addons|] + r.addons + [r.command]
      + PortBytes(r.port) + [1] + o;
    assert |h| == portAt + 7;
    assert buf[0] == 0x00 && buf[1..17] == secret.raw && buf[17] == |r.addons|;
    assert buf[portAt..portAt + 2] == PortBytes(r.port);
    PortRoundTrip(buf, portAt, r.port);
    assert buf[portAt + 2] == 1;
    assert buf[portAt + 3..] == o[..cut - (|h| - 4)];
  }

  /** The example VLESS header of the finding: identity, no add-ons, port 443, address type 2, and nothing more. */
  function MissingDomainLengthChunk(secret: Secret): Bytes
  {
    [0x00] + secret.raw + [0x00, 0x01, 0x01, 0xBB, 0x02]
  }

  /**
   * The source's VLESS domain branch accepts the example header with an
   * empty host and a NaN payload cursor; the corrected decoder refuses it.
   */
  lemma VlessMissingDomainLength(secret: Secret)
    requires |secret.raw| == 16
    ensures var buf := MissingDomainLengthChunk(secret);
      && Classify(buf) == VlessHeader
      && DecodeVlessAsWritten(secret, buf) == Success(VlessAccept(Domain([]), 443, NotANumber))
      && Parse(secret, buf) == Failure(ReadPastEnd)
  {
    var buf := MissingDomainLengthChunk(secret);
    assert buf[1..17] == secret.raw;
    assert buf[17] == 0 && buf[19] == 0x01 && buf[20] == 0xBB && buf[21] == 2;
  }

  /** The second example: address type 1 and no address bytes at all. */
  function MissingIPv4Chunk(secret: Secret): Bytes
  {
    [0x00] + secret.raw + [0x00, 0x01, 0x01, 0xBB, 0x01]
  }

  /**
   * The source accepts the example header with the empty host text, which
   * is not an address literal and so goes to the resolver; the corrected
   * decoder refuses it.
   */
  lemma VlessMissingIPv4(secret: Secret)
    requires |secret.raw| == 16
    ensures var buf := MissingIPv4Chunk(secret);
      && Classify(buf) == VlessHeader
      && DecodeVlessAsWritten(secret, buf) == Success(VlessAccept(Dotted([]), 443, Offset(26)))
      && DottedText([]) == "" && !IsIPv4Literal("")
      && Parse(secret, buf) == Failure(ReadPastEnd)
  {
    var buf := MissingIPv4Chunk(secret);
    assert buf[1..17] == secret.raw;
    assert buf[17] == 0 && buf[19] == 0x01 && buf[20] == 0xBB && buf[21] == 1;
    DottedIsLiteralIffFour([]);
  }

  /** Every accepted VLESS domain header carries its length byte and all the bytes it declares. */
  lemma VlessDomainHasLength(secret: Secret, buf: Bytes)
    requires Parse(secret, buf).Success? && Parse(secret, buf).value.variant == Vless
    requires Parse(secret, buf).value.host.Domain?
    ensures var tagAt := 21 + buf[17] as int;
      && tagAt + 1 < |buf| && buf[tagAt] == 2
      && Parse(secret, buf).value.payloadStart == tagAt + 2 + buf[tagAt + 1] as int
      && Parse(secret, buf).value.host.utf8 == buf[tagAt + 2..tagAt + 2 + buf[tagAt + 1] as int]
  {
  }

  /** The byte of the upper-case form of a hex character (digits have none). */
  function UpperHex(c: char): Byte
    requires IsLowerHexChar(c)
  {
    if 'a' <= c <= 'f' then c as int - 32 else c as int
  }

  lemma FoldMatchesHexChar(b: Byte, c: char)
    requires IsLowerHexChar(c)
    ensures (b < 0x80 && FoldByte(b) == FoldByte(c as int)) <==> (b == c as int || b == UpperHex(c))
  {
  }

  /**
   * The Trojan credential comparison is case-insensitive: each of the 56
   * leading bytes is the digest's character or its upper-case form.
   */
  lemma DigestCaseInsensitive(head: Bytes, digestHex: string)
    requires IsHexDigest(digestHex)
    ensures DigestMatches(head, digestHex) <==>
      |head| == 56 && forall i :: 0 <= i < 56 ==> head[i] == digestHex[i] as int || head[i] == UpperHex(digestHex[i])
  {
    if |head| == 56 {
      forall i | 0 <= i < 56 {
        FoldMatchesHexChar(head[i], digestHex[i]);
      }
    }
  }

  /** `b ^ (1 << k)`, written out per bit position. */
  function Flip(b: Byte, k: nat): Byte
    requires k < 8
  {
    if k == 0 then (if b % 2 == 1 then b - 1 else b + 1)
    else if k == 1 then (if (b / 2) % 2 == 1 then b - 2 else b + 2)
    else if k == 2 then (if (b / 4) % 2 == 1 then b - 4 else b + 4)
    else if k == 3 then (if (b / 8) % 2 == 1 then b - 8 else b + 8)
    else if k == 4 then (if (b / 16) % 2 == 1 then b - 16 else b + 16)
    else if k == 5 then (if (b / 32) % 2 == 1 then b - 32 else b + 32)
    else if k == 6 then (if (b / 64) % 2 == 1 then b - 64 else b + 64)
    else (if b / 128 == 1 then b - 128 else b + 128)
  }

  /** Flipping one bit of a digest character keeps it matching only for bit 5 of a letter (its case bit). */
  lemma FlipMatchesHexChar(c: char, k: nat)
    requires IsLowerHexChar(c) && k < 8
    ensures (Flip(c as int, k) < 0x80 && FoldByte(Flip(c as int, k)) == FoldByte(c as int)) <==> (k == 5 && 'a' <= c <= 'f')
    ensures Flip(c as int, k) != 0
  {
  }

  /** The Trojan decoder looks at the first 56 bytes only through the digest check. */
  lemma DecodeTrojanReadsTail(secret: Secret, a: Bytes, b: Bytes)
    requires |a| == |b| && |a| >= 56 && a[56..] == b[56..]
    requires DigestMatches(a[..56], secret.digestHex) == DigestMatches(b[..56], secret.digestHex)
    ensures DecodeTrojan(secret, a) == DecodeTrojan(secret, b)
  {
    assert forall x :: 56 <= x < |a| ==> a[x] == a[56..][x - 56] == b[x];
    assert forall x: nat, y: nat :: 56 <= x <= y <= |a| ==> a[x..y] == b[x..y];
  }

  /** Flipping one digest byte of a matching head. */
  lemma DigestAfterFlip(head: Bytes, digestHex: string, i: nat, k: nat)
    requires IsHexDigest(digestHex) && head == DigestBytes(digestHex)
    requires i < 56 && k < 8
    ensures DigestMatches(head[i := Flip(head[i], k)], digestHex) <==> (k == 5 && 'a' <= digestHex[i] <= 'f')
  {
    var f := head[i := Flip(head[i], k)];
    FlipMatchesHexChar(digestHex[i], k);
    if k == 5 && 'a' <= digestHex[i] <= 'f' {
      forall j | 0 <= j < 56
        ensures f[j] < 0x80 && FoldByte(f[j]) == FoldByte(digestHex[j] as int)
      {
      }
    } else {
      assert !(f[i] < 0x80 && FoldByte(f[i]) == FoldByte(digestHex[i] as int));
    }
  }

  /**
   * One flipped bit among the 56 digest bytes of a valid Trojan handshake is
   * refused, except the case bit of a letter a-f, which the case-insensitive
   * comparison accepts with the same result.
   */
  lemma TrojanSingleBitFlip(secret: Secret, r: TrojanRequest, i: nat, k: nat)
    requires IsHexDigest(secret.digestHex) && ValidTrojan(r)
    requires i < 56 && k < 8
    ensures var buf := EncodeTrojan(secret, r);
      Parse(secret, buf[i := Flip(buf[i], k)])
        == if k == 5 && 'a' <= secret.digestHex[i] <= 'f' then Parse(secret, buf) else Failure(BadIdentity)
  {
    var hex := secret.digestHex;
    var buf := EncodeTrojan(secret, r);
    var cmdAt: nat := if r.crlfAfterDigest then 58 else 56;
    TrojanLayout(secret, r, buf, cmdAt);
    var f := buf[i := Flip(buf[i], k)];
    assert buf[i] == buf[..56][i] == hex[i] as int;
    FlipMatchesHexChar(hex[i], k);
    assert f[0] != 0x00 by {
      if i != 0 { assert f[0] == buf[..56][0] == hex[0] as int; }
    }
    assert Classify(f) == TrojanHeader && Classify(buf) == TrojanHeader;
    DigestBytesMatch(hex);
    assert f[..56] == buf[..56][i := Flip(buf[i], k)];
    DigestAfterFlip(buf[..56], hex, i, k);
    if k == 5 && 'a' <= hex[i] <= 'f' {
      assert f[56..] == buf[56..];
      DecodeTrojanReadsTail(secret, f, buf);
    }
  }
}
