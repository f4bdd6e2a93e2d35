/**
 Addresses and networks as the daemon compares them (helpers/misc.go).

 An address is a byte string, and the same IPv4 address may be written in 4 or in 16 bytes,
 so two networks can be equal without being the same value. `NetId` is the value they share.
 */
module IPNets {
  import opened Options

  type Byte = b: int | 0 <= b < 256
  type IP = seq<Byte>

  // A mask is its bits, most significant first.
  type Mask = seq<bool>

  datatype IPNet = IPNet(ip: IP, mask: Mask)

  const V4_IN_V6_PREFIX: IP := [0, 0, 0, 0, 0, 0, 0, 0, 0, 0, 255, 255]

  /** net.IP.To4: the IPv4 address this address denotes, if it denotes one. */
  function To4(ip: IP): Option<IP> {
    if |ip| == 4 then Some(ip)
    else if |ip| == 16 && ip[..12] == V4_IN_V6_PREFIX then Some(ip[12..])
    else None
  }

  /** net.IP.Equal: an IPv4 address equals its IPv4-mapped IPv6 form. */
  predicate IPEqual(a: IP, b: IP) {
    if |a| == |b| then a == b
    else if |a| == 4 && |b| == 16 then b[..12] == V4_IN_V6_PREFIX && b[12..] == a
    else if |a| == 16 && |b| == 4 then a[..12] == V4_IN_V6_PREFIX && a[12..] == b
    else false
  }

  function LeadingOnes(m: Mask): (n: nat)
    ensures n <= |m|
  {
    if m == [] || !m[0] then 0 else 1 + LeadingOnes(m[1..])
  }

  /** net.IPMask.Size, first result: the prefix length, or 0 when the ones are not contiguous. */
  function MaskSize(m: Mask): nat {
    var ones := LeadingOnes(m);
    if true in m[ones..] then 0 else ones
  }

  predicate IPNetEqual(a: IPNet, b: IPNet) {
    MaskSize(a.mask) == MaskSize(b.mask) && IPEqual(a.ip, b.ip)
  }

  // What two equal networks have in common: the prefix length and the 16-byte form of the address.
  datatype NetId = NetId(ones: nat, address: IP)

  function Address(ip: IP): IP {
    if |ip| == 4 then V4_IN_V6_PREFIX + ip else ip
  }

  function Identify(n: IPNet): NetId {
    NetId(MaskSize(n.mask), Address(n.ip))
  }

  lemma AddressDecidesIPEqual(a: IP, b: IP)
    ensures IPEqual(a, b) <==> Address(a) == Address(b)
  {
    if |a| == 4 && |b| == 4 {
      assert Address(a)[12..] == a && Address(b)[12..] == b;
    } else if |a| == 4 && |b| == 16 {
      assert Address(a)[..12] == V4_IN_V6_PREFIX && Address(a)[12..] == a;
      assert b == b[..12] + b[12..];
    } else if |a| == 16 && |b| == 4 {
      assert Address(b)[..12] == V4_IN_V6_PREFIX && Address(b)[12..] == b;
      assert a == a[..12] + a[12..];
    }
  }

  // IPNetEqual is exactly equality of identities; hence an equivalence.
  lemma IdentityDecidesIPNetEqual(a: IPNet, b: IPNet)
    ensures IPNetEqual(a, b) <==> Identify(a) == Identify(b)
  {
    AddressDecidesIPEqual(a.ip, b.ip);
  }

  // An address of four bytes and its IPv4-mapped form are the same, and no other of sixteen bytes
  // is an IPv4 address: 0.0.0.0/0 is not ::/0.
  lemma MappedAddresses(a: IP, b: IP)
    requires |a| == 4 && |b| == 16
    ensures IPEqual(a, b) <==> b == [0, 0, 0, 0, 0, 0, 0, 0, 0, 0, 0xFF, 0xFF] + a
    ensures To4(a) == Some(a)
    ensures To4(b).Some? <==> (forall i | 0 <= i < 10 :: b[i] == 0) && b[10] == 0xFF && b[11] == 0xFF
    ensures To4(b).Some? ==> To4(b).value == [b[12], b[13], b[14], b[15]]
    ensures !IPEqual([0, 0, 0, 0], seq(16, _ => 0))
  {
    assert b == b[..12] + b[12..];
    assert b[12..] == [b[12], b[13], b[14], b[15]];
    assert ([0, 0, 0, 0, 0, 0, 0, 0, 0, 0, 0xFF, 0xFF] + a)[..12] == [0, 0, 0, 0, 0, 0, 0, 0, 0, 0, 0xFF, 0xFF];
    assert ([0, 0, 0, 0, 0, 0, 0, 0, 0, 0, 0xFF, 0xFF] + a)[12..] == a;
    if (forall i | 0 <= i < 10 :: b[i] == 0) && b[10] == 0xFF && b[11] == 0xFF {
      assert b[..12] == [0, 0, 0, 0, 0, 0, 0, 0, 0, 0, 0xFF, 0xFF];
    }
    if To4(b).Some? {
      forall i | 0 <= i < 12 ensures b[i] == [0, 0, 0, 0, 0, 0, 0, 0, 0, 0, 0xFF, 0xFF][i] {
        assert b[..12][i] == b[i];
      }
    }
    var zero: IP := seq(16, _ => 0);
    assert zero[..12][10] == 0;
  }

  // Equal addresses belong to the same family, so a match never crosses IPv4 and IPv6.
  lemma EqualAddressesShareFamily(a: IP, b: IP)
    requires IPEqual(a, b)
    ensures To4(a).Some? <==> To4(b).Some?
    ensures To4(a) == To4(b)
  {
  }

  /** net.CIDRMask: `ones` set bits followed by clear ones. */
  function CIDRMask(ones: nat, bits: nat): Mask
    requires ones <= bits
  {
    seq(bits, i => i < ones)
  }

  lemma {:induction false} CIDRMaskSize(ones: nat, bits: nat)
    requires ones <= bits
    ensures LeadingOnes(CIDRMask(ones, bits)) == ones
    ensures MaskSize(CIDRMask(ones, bits)) == ones
  {
    var m := CIDRMask(ones, bits);
    if ones > 0 {
      assert m[1..] == CIDRMask(ones - 1, bits - 1);
      CIDRMaskSize(ones - 1, bits - 1);
    }
    assert forall b <- m[ones..] :: !b;
  }

  lemma {:induction false} LeadingOnesLead(m: Mask)
    ensures forall i | 0 <= i < LeadingOnes(m) :: m[i]
    ensures LeadingOnes(m) < |m| ==> !m[LeadingOnes(m)]
  {
    if m != [] && m[0] {
      LeadingOnesLead(m[1..]);
      assert forall i | 0 < i < |m| :: m[i] == m[1..][i - 1];
    }
  }

  // A mask in which a one follows a zero counts as no prefix at all.
  lemma ScatteredMaskSize(m: Mask, i: nat, j: nat)
    requires i < j < |m| && !m[i] && m[j]
    ensures MaskSize(m) == 0
  {
    LeadingOnesLead(m);
    assert m[LeadingOnes(m)..][j - LeadingOnes(m)];
  }

  // On networks with contiguous masks, which are all that ParseCIDR and the kernel produce, the
  // test is the intended one: the same prefix length and the same address.
  lemma IPNetEqualOnPrefixes(a: IP, aOnes: nat, aBits: nat, b: IP, bOnes: nat, bBits: nat)
    requires aOnes <= aBits && bOnes <= bBits
    ensures IPNetEqual(IPNet(a, CIDRMask(aOnes, aBits)), IPNet(b, CIDRMask(bOnes, bBits)))
            <==> aOnes == bOnes && IPEqual(a, b)
  {
    CIDRMaskSize(aOnes, aBits);
    CIDRMaskSize(bOnes, bBits);
  }
}
