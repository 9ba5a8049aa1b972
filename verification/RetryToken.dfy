/** The address validation token that the publisher puts in a Retry packet
    (section 8.1.2 of RFC 9000) and expects back in the next Initial packet. */
module RetryToken {
  import opened Basics
  import opened PublisherTypes

  type Octets4 = o: Bytes | |o| == 4 witness [0, 0, 0, 0]
  type Octets16 = o: Bytes | |o| == 16 witness [0, 0, 0, 0, 0, 0, 0, 0, 0, 0, 0, 0, 0, 0, 0, 0]

  datatype Address = V4(v4: Octets4, port: nat) | V6(v6: Octets16, port: nat)
  {
    function Octets(): Bytes {
      if V4? then v4 else v6
    }
  }

  /** The bytes of "quiche". */
  const TAG: Bytes := [0x71, 0x75, 0x69, 0x63, 0x68, 0x65]

  function Minted(dcid: Cid, src: Address): Bytes {
    TAG + src.Octets() + dcid
  }

  method MintToken(dcid: Cid, src: Address) returns (token: Bytes)
    ensures token == Minted(dcid, src)
  {
    token := [];
    token := token + TAG;
    var addr := match src
      case V4(a, _) => a
      case V6(a, _) => a;
    token := token + addr;
    token := token + dcid;
  }

  function ValidateToken(src: Address, token: Bytes): Option<Cid> {
    if |token| < 6 then None
    else if token[..6] != TAG then None
    else
      var rest := token[6..];
      var addr := src.Octets();
      if |rest| < |addr| || rest[..|addr|] != addr then None
      else Some(rest[|addr|..])
  }

  lemma TagSpellsQuiche()
    ensures TAG == ['q' as int, 'u' as int, 'i' as int, 'c' as int, 'h' as int, 'e' as int]
  {
  }

  /** A token validates for a source, yielding `dcid`, exactly when it is the token
      minted from that connection id and that source. */
  lemma ValidIffMinted(src: Address, token: Bytes, dcid: Cid)
    ensures ValidateToken(src, token) == Some(dcid) <==> token == Minted(dcid, src)
  {
  }

  /** A token minted for one source validates for another exactly when the other's octets
      are a prefix of what follows the tag. Within one address family that means the very
      same octets (ports are never looked at), and then the connection id comes back. */
  lemma ForeignToken(dcid: Cid, src: Address, other: Address)
    ensures ValidateToken(other, Minted(dcid, src)).Some? <==> other.Octets() <= src.Octets() + dcid
    ensures src.V4? == other.V4? ==>
      (ValidateToken(other, Minted(dcid, src)).Some? <==> other.Octets() == src.Octets())
    ensures other.Octets() == src.Octets() ==> ValidateToken(other, Minted(dcid, src)) == Some(dcid)
  {
  }
}
