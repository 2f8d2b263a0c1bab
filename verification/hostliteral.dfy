/**
 * The dotted-decimal IPv4 check that lets `resolveHost` skip DNS, and the
 * dotted text `Uint8Array.prototype.join('.')` produces for a decoded address.
 */
module HostLiteral {
  import opened Wrappers
  import opened JsText
  import opened JsBuffer

  /**
   * One `(?:25[0-5]|2[0-4][0-9]|[01]?[0-9][0-9]?)` group matched against a
   * whole dot-free token, one alternative per line.
   */
  predicate OctetToken(t: string) {
    || (|t| == 3 && t[0] == '2' && t[1] == '5' && '0' <= t[2] <= '5')
    || (|t| == 3 && t[0] == '2' && '0' <= t[1] <= '4' && IsDigit(t[2]))
    || (|t| == 3 && (t[0] == '0' || t[0] == '1') && IsDigit(t[1]) && IsDigit(t[2]))
    || (|t| == 2 && IsDigit(t[0]) && IsDigit(t[1]))
    || (|t| == 1 && IsDigit(t[0]))
  }

  /**
   * The anchored regular expression: three "octet dot" groups and a final
   * octet. Octets hold digits only, so a match cuts the string exactly at its
   * dots: the string splits on '.' into four tokens that each match an octet.
   */
  predicate IsIPv4Literal(host: string) {
    var parts := Split(host, '.');
    |parts| == 4 && forall i :: 0 <= i < 4 ==> OctetToken(parts[i])
  }

  /** The regex octet is a numeral of one to three digits whose value is at most 255. */
  lemma OctetTokenMeansByte(t: string)
    ensures OctetToken(t) <==> (1 <= |t| <= 3 && AllDigits(t) && DigitsValue(t) <= 255)
  {
    if 1 <= |t| <= 3 && AllDigits(t) {
      if |t| == 3 {
        var t2 := t[..2];
        var t1 := t2[..1];
        assert t2[0] == t[0] && t2[1] == t[1];
        assert t1[0] == t[0] && t1[..0] == [];
        assert DigitsValue(t1) == t[0] as int - '0' as int;
        assert DigitsValue(t2) == 10 * (t[0] as int - '0' as int) + (t[1] as int - '0' as int);
        assert DigitsValue(t) == 100 * (t[0] as int - '0' as int) + 10 * (t[1] as int - '0' as int) + (t[2] as int - '0' as int);
      }
    }
  }

  /** The decimal rendering of each byte, in order. */
  function OctetTexts(octets: seq<Byte>): (ts: seq<string>)
    ensures |ts| == |octets|
  {
    seq(|octets|, i requires 0 <= i < |octets| => Decimal(octets[i]))
  }

  /** `subarray(...).join('.')` over the address bytes. */
  function DottedText(octets: seq<Byte>): string
  {
    Join(OctetTexts(octets), '.')
  }

  lemma DecimalByteIsShort(n: nat)
    requires n < 256
    ensures |Decimal(n)| <= 3
  {
    if n >= 10 {
      assert |Decimal(n / 10)| <= 2 by {
        if n / 10 >= 10 {
          assert |Decimal(n / 10 / 10)| == 1;
        }
      }
    }
  }

  /** Joined byte values form an IPv4 literal exactly when there are four of them. */
  lemma DottedIsLiteralIffFour(octets: seq<Byte>)
    ensures IsIPv4Literal(DottedText(octets)) <==> |octets| == 4
  {
    var ts := OctetTexts(octets);
    if |octets| == 0 {
      assert DottedText(octets) == "";
      assert Split("", '.') == [""];
    } else {
      forall i | 0 <= i < |ts|
        ensures '.' !in ts[i]
      {
        assert AllDigits(ts[i]);
      }
      SplitJoin(ts, '.');
      if |octets| == 4 {
        forall i | 0 <= i < 4
          ensures OctetToken(ts[i])
        {
          DecimalByteIsShort(octets[i]);
          OctetTokenMeansByte(ts[i]);
        }
      }
    }
  }

  /**
   * `resolveHost`: a literal is used unchanged; otherwise the result of an
   * IPv4-only lookup (`lookup`, the resolver, which is not modelled), or the
   * host itself when the lookup fails.
   */
  function ResolveHost(host: string, lookup: string -> Option<string>): (target: string)
    ensures IsIPv4Literal(host) ==> target == host
    ensures !IsIPv4Literal(host) && lookup(host).Some? ==> target == lookup(host).value
    ensures !IsIPv4Literal(host) && lookup(host).None? ==> target == host
  {
    if IsIPv4Literal(host) then host
    else match lookup(host)
      case Some(address) => address
      case None => host
  }

  /**
   * With a resolver that answers only with IPv4 literals (the lookup asks
   * for family 4), `resolveHost` yields a literal exactly when the host was
   * one or the lookup answered, and otherwise hands back the host itself.
   * Resolving the result again changes nothing.
   */
  lemma ResolvedIsLiteralOrHost(host: string, lookup: string -> Option<string>)
    requires forall h :: lookup(h).Some? ==> IsIPv4Literal(lookup(h).value)
    ensures IsIPv4Literal(ResolveHost(host, lookup)) <==> IsIPv4Literal(host) || lookup(host).Some?
    ensures !IsIPv4Literal(ResolveHost(host, lookup)) ==> ResolveHost(host, lookup) == host
    ensures ResolveHost(ResolveHost(host, lookup), lookup) == ResolveHost(host, lookup)
  {
  }

  /** A fully decoded IPv4 destination never reaches the resolver. */
  lemma DottedQuadSkipsLookup(octets: seq<Byte>, lookup: string -> Option<string>)
    requires |octets| == 4
    ensures ResolveHost(DottedText(octets), lookup) == DottedText(octets)
  {
    DottedIsLiteralIffFour(octets);
  }
}
