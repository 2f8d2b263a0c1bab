/**
 * The client side of both handshakes, written independently of the parser,
 * and the round trips that tie the two together: decoding an encoded
 * handshake returns exactly the encoded destination and payload.
 */
module HandshakeWire {
  import opened Wrappers
  import opened JsBuffer
  import opened Handshake

  /** A destination address as a client writes it. */
  datatype Address = IPv4Addr(octets: Bytes) | DomainAddr(name: Bytes) | IPv6Addr(bytes16: Bytes)

  predicate ValidAddress(a: Address) {
    match a
    case IPv4Addr(o) => |o| == 4
    case DomainAddr(n) => |n| < 256
    case IPv6Addr(b) => |b| == 16
  }

  function AddressBody(a: Address): Bytes
    requires ValidAddress(a)
  {
    match a
    case IPv4Addr(o) => o
    case DomainAddr(n) => [|n| as Byte] + n
    case IPv6Addr(b) => b
  }

  function FormOf(a: Address): AddressForm {
    match a
    case IPv4Addr(_) => FormIPv4
    case DomainAddr(_) => FormDomain
    case IPv6Addr(_) => FormIPv6
  }

  /** The host the server records for an address: IPv6 is never decoded. */
  function HostOf(a: Address): Host {
    match a
    case IPv4Addr(o) => Dotted(o)
    case DomainAddr(n) => Domain(n)
    case IPv6Addr(_) => Ipv6Placeholder
  }

  function VlessTag(a: Address): Byte {
    match a
    case IPv4Addr(_) => 1
    case DomainAddr(_) => 2
    case IPv6Addr(_) => 3
  }

  function TrojanTag(a: Address): Byte {
    match a
    case IPv4Addr(_) => 1
    case DomainAddr(_) => 3
    case IPv6Addr(_) => 4
  }

  function PortBytes(port: nat): Bytes
    requires port < 65536
  {
    [port / 256, port % 256]
  }

  const CrLf: Bytes := [0x0d, 0x0a]

  /** A VLESS request: add-ons, command, port, address, then the payload. */
  datatype VlessRequest = VlessRequest(addons: Bytes, command: Byte, port: nat, address: Address, payload: Bytes)

  predicate ValidVless(r: VlessRequest) {
    |r.addons| < 256 && r.port < 65536 && ValidAddress(r.address)
  }

  function VlessHeaderBytes(secret: Secret, r: VlessRequest): Bytes
    requires ValidVless(r)
  {
    [0x00] + secret.raw + [|r.addons|] + r.addons + [r.command]
    + PortBytes(r.port) + [VlessTag(r.address)] + AddressBody(r.address)
  }

  function EncodeVless(secret: Secret, r: VlessRequest): Bytes
    requires ValidVless(r)
  {
    VlessHeaderBytes(secret, r) + r.payload
  }

  /** A Trojan request; either CR LF may be left out by the client. */
  datatype TrojanRequest = TrojanRequest(crlfAfterDigest: bool, address: Address, port: nat, crlfAfterPort: bool, payload: Bytes)

  /**
   * Without the CR LF after the port, a payload that itself starts with
   * CR LF would lose those two bytes to the optional-CR-LF rule.
   */
  predicate ValidTrojan(r: TrojanRequest) {
    && ValidAddress(r.address)
    && r.port < 65536
    && (!r.crlfAfterPort ==> !(|r.payload| >= 2 && r.payload[0] == 0x0d && r.payload[1] == 0x0a))
  }

  predicate IsLowerHexChar(c: char) {
    '0' <= c <= '9' || 'a' <= c <= 'f'
  }

  /** What a SHA-224 hex digest looks like. */
  predicate IsHexDigest(h: string) {
    |h| == 56 && forall i :: 0 <= i < |h| ==> IsLowerHexChar(h[i])
  }

  function DigestBytes(h: string): (bs: Bytes)
    requires IsHexDigest(h)
    ensures |bs| == 56
  {
    seq(|h|, i requires 0 <= i < |h| => h[i] as int)
  }

  function TrojanHeaderBytes(secret: Secret, r: TrojanRequest): Bytes
    requires IsHexDigest(secret.digestHex) && ValidTrojan(r)
  {
    DigestBytes(secret.digestHex) + (if r.crlfAfterDigest then CrLf else [])
    + [0x01, TrojanTag(r.address)] + AddressBody(r.address) + PortBytes(r.port)
    + (if r.crlfAfterPort then CrLf else [])
  }

  function EncodeTrojan(secret: Secret, r: TrojanRequest): Bytes
    requires IsHexDigest(secret.digestHex) && ValidTrojan(r)
  {
    TrojanHeaderBytes(secret, r) + r.payload
  }

  lemma PortRoundTrip(buf: Bytes, at: nat, port: nat)
    requires port < 65536
    requires at + 2 <= |buf| && buf[at..at + 2] == PortBytes(port)
    ensures U16(buf, at) == port
  {
    assert buf[at] == buf[at..at + 2][0] && buf[at + 1] == buf[at..at + 2][1];
  }

  /** The address reader returns the written address and the cursor after it. */
  lemma ReadAddressOf(buf: Bytes, at: nat, a: Address)
    requires ValidAddress(a)
    requires at + |AddressBody(a)| <= |buf| && buf[at..at + |AddressBody(a)|] == AddressBody(a)
    ensures ReadAddress(buf, FormOf(a), at) == (HostOf(a), Offset(at + |AddressBody(a)|))
  {
    match a
    case IPv4Addr(o) =>
    case IPv6Addr(b) =>
    case DomainAddr(n) =>
      var body := AddressBody(a);
      assert buf[at] == body[0];
      assert buf[at + 1..at + 1 + |n|] == body[1..];
  }

  /** Decoding an encoded VLESS handshake returns the encoded destination and payload. */
  lemma VlessRoundTrip(secret: Secret, r: VlessRequest)
    requires |secret.raw| == 16 && ValidVless(r)
    ensures Parse(secret, EncodeVless(secret, r))
         == Success(Destination(Vless, HostOf(r.address), r.port, |VlessHeaderBytes(secret, r)|))
    ensures InitialPayload(EncodeVless(secret, r), |VlessHeaderBytes(secret, r)|) == r.payload
  {
    var buf := EncodeVless(secret, r);
    var h := VlessHeaderBytes(secret, r);
    var body := AddressBody(r.address);
    var portAt := 19 + |r.addons|;
    assert buf == [0x00] + secret.raw + [|r.addons|] + r.addons + [r.command]
      + PortBytes(r.port) + [VlessTag(r.address)] + body + r.payload;
    assert |h| == portAt + 3 + |body|;
    assert buf[0] == 0x00 && buf[1..17] == secret.raw && buf[17] == |r.addons|;
    assert buf[portAt..portAt + 2] == PortBytes(r.port);
    PortRoundTrip(buf, portAt, r.port);
    assert buf[portAt + 2] == VlessTag(r.address);
    assert buf[portAt + 3..portAt + 3 + |body|] == body;
    ReadAddressOf(buf, portAt + 3, r.address);
    assert buf[|h|..] == r.payload;
  }

  lemma CmdAfterDigest(secret: Secret, r: TrojanRequest, buf: Bytes)
    requires IsHexDigest(secret.digestHex) && ValidTrojan(r)
    requires buf == EncodeTrojan(secret, r)
    ensures (if At(buf, 56) == Some(0x0d) && At(buf, 57) == Some(0x0a) then 58 else 56)
         == (if r.crlfAfterDigest then 58 else 56)
  {
    var d := DigestBytes(secret.digestHex);
    if r.crlfAfterDigest {
      assert buf[56] == 0x0d && buf[57] == 0x0a;
    } else {
      assert buf[56] == 0x01;
    }
  }

  lemma DigestBytesMatch(h: string)
    requires IsHexDigest(h)
    ensures DigestMatches(DigestBytes(h), h)
  {
  }

  /** The three parts of a three-part concatenation. */
  lemma ThreeParts(a: Bytes, b: Bytes, c: Bytes)
    ensures (a + b + c)[..|a|] == a
    ensures (a + b + c)[|a|..|a| + |b|] == b
    ensures (a + b + c)[|a| + |b|..] == c
  {
    assert (a + b + c)[..|a|] == a;
    assert (a + b + c)[|a|..|a| + |b|] == b;
    assert (a + b + c)[|a| + |b|..] == c;
  }

  /** Where each field of an encoded Trojan handshake sits. */
  lemma TrojanLayout(secret: Secret, r: TrojanRequest, buf: Bytes, cmdAt: nat)
    requires IsHexDigest(secret.digestHex) && ValidTrojan(r)
    requires buf == EncodeTrojan(secret, r)
    requires cmdAt == if r.crlfAfterDigest then 58 else 56
    ensures |buf| >= cmdAt + 4 + |AddressBody(r.address)|
    ensures buf[..56] == DigestBytes(secret.digestHex)
    ensures buf[cmdAt] == 0x01 && buf[cmdAt + 1] == TrojanTag(r.address)
    ensures buf[cmdAt + 2..cmdAt + 2 + |AddressBody(r.address)|] == AddressBody(r.address)
    ensures buf[cmdAt + 2 + |AddressBody(r.address)|..cmdAt + 4 + |AddressBody(r.address)|] == PortBytes(r.port)
    ensures buf[cmdAt + 4 + |AddressBody(r.address)|..] == (if r.crlfAfterPort then CrLf else []) + r.payload
    ensures |TrojanHeaderBytes(secret, r)| == cmdAt + 4 + |AddressBody(r.address)| + (if r.crlfAfterPort then 2 else 0)
  {
    var d := DigestBytes(secret.digestHex);
    var c1: Bytes := if r.crlfAfterDigest then CrLf else [];
    var c2: Bytes := if r.crlfAfterPort then CrLf else [];
    var body := AddressBody(r.address);
    var pb := PortBytes(r.port);
    var tail := c2 + r.payload;
    var pre: Bytes := d + c1 + [0x01, TrojanTag(r.address)];
    assert TrojanHeaderBytes(secret, r) == pre + body + pb + c2;
    assert |pre| == cmdAt + 2 by {
      assert |d| == 56;
    }
    assert buf == pre + body + (pb + tail);
    assert buf[..56] == d && buf[cmdAt] == 0x01 && buf[cmdAt + 1] == TrojanTag(r.address) by {
      ThreeParts(d, c1, [0x01, TrojanTag(r.address)]);
      ThreeParts(pre, body, pb + tail);
      assert buf[..56] == pre[..56];
    }
    assert buf[cmdAt + 2..cmdAt + 2 + |body|] == body by {
      ThreeParts(pre, body, pb + tail);
    }
    assert buf == (pre + body) + pb + tail;
    ThreeParts(pre + body, pb, tail);
  }

  /** Decoding an encoded Trojan handshake returns the encoded destination and payload. */
  lemma TrojanRoundTrip(secret: Secret, r: TrojanRequest)
    requires IsHexDigest(secret.digestHex) && ValidTrojan(r)
    ensures Parse(secret, EncodeTrojan(secret, r))
         == Success(Destination(Trojan, HostOf(r.address), r.port, |TrojanHeaderBytes(secret, r)|))
    ensures InitialPayload(EncodeTrojan(secret, r), |TrojanHeaderBytes(secret, r)|) == r.payload
  {
    var buf := EncodeTrojan(secret, r);
    var cmdAt: nat := if r.crlfAfterDigest then 58 else 56;
    TrojanLayout(secret, r, buf, cmdAt);
    assert buf[0] == DigestBytes(secret.digestHex)[0];
    assert Classify(buf) == TrojanHeader;
    TrojanDecodes(secret, r, buf, cmdAt);
  }

  /** The Trojan decoder on an encoded handshake, field by field. */
  lemma TrojanDecodes(secret: Secret, r: TrojanRequest, buf: Bytes, cmdAt: nat)
    requires IsHexDigest(secret.digestHex) && ValidTrojan(r)
    requires buf == EncodeTrojan(secret, r)
    requires cmdAt == if r.crlfAfterDigest then 58 else 56
    ensures DecodeTrojan(secret, buf)
         == Success(Destination(Trojan, HostOf(r.address), r.port, |TrojanHeaderBytes(secret, r)|))
    ensures InitialPayload(buf, |TrojanHeaderBytes(secret, r)|) == r.payload
  {
    var body := AddressBody(r.address);
    var portAt := cmdAt + 2 + |body|;
    var end := portAt + 2;
    TrojanLayout(secret, r, buf, cmdAt);
    DigestBytesMatch(secret.digestHex);
    CmdAfterDigest(secret, r, buf);
    assert TrojanForm(buf[cmdAt + 1]) == Some(FormOf(r.address));
    ReadAddressOf(buf, cmdAt + 2, r.address);
    PortRoundTrip(buf, portAt, r.port);
    var c2: Bytes := if r.crlfAfterPort then CrLf else [];
    assert buf[end..] == c2 + r.payload;
    if r.crlfAfterPort {
      assert buf[end] == 0x0d && buf[end + 1] == 0x0a;
      assert buf[end + 2..] == r.payload;
    } else {
      assert buf[end..] == r.payload;
    }
  }
}
