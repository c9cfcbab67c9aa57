/** Prefix masks of addresses (src/address.cpp:12-26, 375-404, 498-531; section 3.1
    of RFC 4632).  An address is its bytes in network order; bit 0 is the first. */
module PrefixMasks {
  import opened Types
  import opened BitMath

  // ------------------------------------------------------------------ the loops

  /** Clears the lowest set bit until none is left, counting. */
  method CountBytes(value: nat) returns (result: nat)
    ensures result == Ones(value)
  {
    var v := value;
    result := 0;
    while v != 0
      invariant result + Ones(v) == Ones(value)
      decreases v
    {
      ClearLowest(v);
      v := And(v, v - 1);
      result := result + 1;
    }
  }

  /** All but the first `bits` bits of a `width`-bit word, which are clear; the
      shift is read as unsigned. */
  function CreateMask(width: nat, bits: nat): (r: nat)
    requires bits <= width
  {
    Pow2(width - bits) - 1
  }

  // ------------------------------------------------------------- bits of addresses

  /** Bit `j` of an address, counted from the first byte's highest bit. */
  function AddrBit(bytes: seq<Byte>, j: nat): nat
    requires j < 8 * |bytes|
  {
    Bit(bytes[j / 8], 7 - j % 8)
  }

  /** The number of set bits of an address. */
  function AddrOnes(bytes: seq<Byte>): nat {
    if bytes == [] then 0 else Ones(bytes[0]) + AddrOnes(bytes[1..])
  }

  lemma Pow8()
    ensures Pow2(8) == 256
  {
    assert Pow2(4) == 16;
    Pow2Sum(4, 4);
  }

  function Or8(a: Byte, b: Byte): Byte {
    Pow8();
    OrBound(8, a, b);
    Or(a, b)
  }

  function And8(a: Byte, b: Byte): Byte {
    AndBound(a, b);
    And(a, b)
  }

  function Not8(a: Byte): Byte {
    255 - a
  }

  lemma Not8Is(a: Byte)
    ensures Pow2(8) == 256 && Not8(a) == Not(8, a)
  {
    Pow8();
  }

  lemma ByteBits(a: Byte, m: Byte, k: nat)
    requires k < 8
    ensures Bit(m, k) == 0 || Bit(m, k) == 1
    ensures Bit(Or8(a, m), k) == if Bit(m, k) == 1 then 1 else Bit(a, k)
    ensures Bit(And8(a, Not8(m)), k) == if Bit(m, k) == 1 then 0 else Bit(a, k)
    ensures Bit(Not8(m), k) == 1 - Bit(m, k)
  {
    BitRange(a, k);
    BitRange(m, k);
    OrBit(a, m, k);
    AndBit(a, Not8(m), k);
    Not8Is(m);
    NotBit(8, m, k);
  }

  lemma ByteSum(a: Byte, m: Byte)
    ensures Or8(a, m) as int == And8(a, Not8(m)) as int + m as int
    ensures Ones(Not8(m)) == 8 - Ones(m)
  {
    Not8Is(m);
    OrSplit(8, a, m);
    NotOnes(8, m);
  }

  // ------------------------------------------------------------------------ IPv4

  /** The bytes of a 32-bit word in network order, which is what
      byteswapOnLittleEndian leaves in memory. */
  function BigEndian(x: nat): (r: seq<Byte>)
    requires x < 0x1_0000_0000
    ensures |r| == 4
  {
    [x / 256 / 256 / 256, x / 256 / 256 % 256, x / 256 % 256, x % 256]
  }

  /** The number an IPv4 address is, in host order. */
  function Number(bytes: seq<Byte>): nat
    requires |bytes| == 4
  {
    256 * (256 * (256 * (bytes[0] as int) + bytes[1] as int) + bytes[2] as int) + bytes[3] as int
  }

  lemma Pow32()
    ensures Pow2(32) == 0x1_0000_0000 && Pow2(16) == 0x1_0000 && Pow2(24) == 0x100_0000
  {
    Pow8();
    Pow2Sum(8, 8);
    Pow2Sum(16, 8);
    Pow2Sum(16, 16);
  }

  lemma {:induction false} Pow2Mono(m: nat, n: nat)
    requires m <= n
    ensures Pow2(m) <= Pow2(n)
  {
    if m < n {
      Pow2Mono(m, n - 1);
    }
  }

  /** The mask word of a prefix length, as it is applied to the address bytes. */
  function HostMask(p: nat): (r: seq<Byte>)
    requires 1 <= p <= 32
    ensures |r| == 4
  {
    Pow32();
    Pow2Mono(32 - p, 32);
    BigEndian(CreateMask(32, p))
  }

  function Map2(a: seq<Byte>, b: seq<Byte>, f: (Byte, Byte) -> Byte): (r: seq<Byte>)
    requires |a| == |b|
    ensures |r| == |a|
  {
    seq(|a|, i requires 0 <= i < |a| => f(a[i], b[i]))
  }

  function Broadcast4(addr: seq<Byte>, p: nat): seq<Byte>
    requires |addr| == 4 && 1 <= p <= 32
  {
    Map2(addr, HostMask(p), Or8)
  }

  function Network4(addr: seq<Byte>, p: nat): seq<Byte>
    requires |addr| == 4 && 1 <= p <= 32
  {
    Map2(addr, HostMask(p), (a, b) => And8(a, Not8(b)))
  }

  function Subnet4(p: nat): seq<Byte>
    requires 1 <= p <= 32
  {
    var m := HostMask(p);
    seq(4, i requires 0 <= i < 4 => Not8(m[i]))
  }

  /** Bit `j` of the network-order bytes is bit `31 - j` of the word. */
  lemma BigEndianBit(x: nat, j: nat)
    requires x < 0x1_0000_0000 && j < 32
    ensures AddrBit(BigEndian(x), j) == Bit(x, 31 - j)
  {
    Pow8();
    var b3, x2 := x % 256, x / 256;
    var b2, x1 := x2 % 256, x2 / 256;
    var b1, b0 := x1 % 256, x1 / 256;
    assert BigEndian(x) == [b0, b1, b2, b3];
    BitParts(8, b3, x2, 31 - j);
    if j < 24 {
      BitParts(8, b2, x1, 23 - j);
      if j < 16 {
        BitParts(8, b1, b0, 15 - j);
      }
    }
  }

  lemma HostMaskBit(p: nat, j: nat)
    requires 1 <= p <= 32 && j < 32
    ensures AddrBit(HostMask(p), j) == if j < p then 0 else 1
  {
    hide Pow2, Bit, HostMask, BigEndian;
    HostMaskWord(p);
    BigEndianBit(Pow2(32 - p) - 1, j);
    LowMaskBit(32 - p, 31 - j);
  }

  /** The broadcast address keeps the first `p` bits and sets the rest; the network
      address keeps them and clears the rest; the subnet mask is the first `p`. */
  lemma Masks4(addr: seq<Byte>, p: nat, j: nat)
    requires |addr| == 4 && 1 <= p <= 32 && j < 32
    ensures AddrBit(Broadcast4(addr, p), j) == if j < p then AddrBit(addr, j) else 1
    ensures AddrBit(Network4(addr, p), j) == if j < p then AddrBit(addr, j) else 0
    ensures |Subnet4(p)| == 4 && AddrBit(Subnet4(p), j) == if j < p then 1 else 0
  {
    HostMaskBit(p, j);
    hide HostMask, Bit, Or8, And8, Not8;
    ByteBits(addr[j / 8], HostMask(p)[j / 8], 7 - j % 8);
  }

  /** The broadcast address is the network address plus 2^(32-p) - 1. */
  lemma BroadcastOffset(addr: seq<Byte>, p: nat)
    requires |addr| == 4 && 1 <= p <= 32
    ensures Number(Broadcast4(addr, p)) == Number(Network4(addr, p)) + Pow2(32 - p) - 1
  {
    var m := HostMask(p);
    Pow32();
    Pow2Mono(32 - p, 32);
    NumberOf(CreateMask(32, p));
    hide Pow2, Or8, And8, Not8, HostMask;
    forall i | 0 <= i < 4 ensures Broadcast4(addr, p)[i] as int == Network4(addr, p)[i] as int + m[i] as int {
      ByteSum(addr[i], m[i]);
    }
    hide Broadcast4, Network4, BigEndian;
    assert Number(m) == CreateMask(32, p);
  }

  lemma NumberOf(x: nat)
    requires x < 0x1_0000_0000
    ensures Number(BigEndian(x)) == x
  {
  }

  /** A number with the given lowest byte. */
  function Load(low: Byte, high: nat): nat {
    low as int + 256 * high
  }

  lemma LoadStep(low: Byte, high: nat)
    ensures Ones(Load(low, high)) == Ones(low) + Ones(high)
  {
    Pow8();
    hide Ones, Pow2;
    OnesParts(8, low, high);
  }

  /** What a 32-bit load of the bytes gives on a little-endian machine. */
  function LittleEndian(bytes: seq<Byte>): nat
    requires |bytes| == 4
  {
    Load(bytes[0], Load(bytes[1], Load(bytes[2], bytes[3])))
  }

  lemma LoadOnes(bytes: seq<Byte>)
    requires |bytes| == 4
    ensures Ones(LittleEndian(bytes)) == Ones(bytes[0]) + Ones(bytes[1]) + Ones(bytes[2]) + Ones(bytes[3])
  {
    hide Ones, Load;
    LoadStep(bytes[2], bytes[3]);
    LoadStep(bytes[1], Load(bytes[2], bytes[3]));
    LoadStep(bytes[0], Load(bytes[1], Load(bytes[2], bytes[3])));
  }

  /** Swapping the bytes of a word keeps its number of bits. */
  lemma BigEndianOnes(x: nat)
    requires x < 0x1_0000_0000
    ensures var b := BigEndian(x); Ones(x) == Ones(b[0]) + Ones(b[1]) + Ones(b[2]) + Ones(b[3])
  {
    var b := BigEndian(x);
    assert LittleEndian([b[3], b[2], b[1], b[0]]) == x;
    hide Ones;
    LoadOnes([b[3], b[2], b[1], b[0]]);
  }

  lemma HostMaskWord(p: nat)
    requires 1 <= p <= 32
    ensures Pow2(32 - p) - 1 < 0x1_0000_0000 && HostMask(p) == BigEndian(Pow2(32 - p) - 1)
  {
    Pow32();
    Pow2Mono(32 - p, 32);
  }

  lemma HostMaskOnes(p: nat)
    requires 1 <= p <= 32
    ensures var m := HostMask(p); Ones(m[0]) + Ones(m[1]) + Ones(m[2]) + Ones(m[3]) == 32 - p
  {
    hide Ones, Pow2, BigEndian, HostMask;
    HostMaskWord(p);
    LowMaskOnes(32 - p);
    BigEndianOnes(Pow2(32 - p) - 1);
  }

  /** Counting the bits of the IPv4 subnet mask gives the prefix length back. */
  lemma SubnetOnes4(p: nat)
    requires 1 <= p <= 32
    ensures |Subnet4(p)| == 4 && Ones(LittleEndian(Subnet4(p))) == p
  {
    hide Ones, LittleEndian, HostMask, Not8;
    var m, n := HostMask(p), Subnet4(p);
    ByteSum(0, m[0]);
    ByteSum(0, m[1]);
    ByteSum(0, m[2]);
    ByteSum(0, m[3]);
    LoadOnes(n);
    HostMaskOnes(p);
  }

  // ------------------------------------------------------------------------ IPv6

  /** The mask of the byte the prefix ends in. */
  function ByteMask(p: nat): Byte {
    Pow8();
    Pow2Mono(8 - p % 8, 8);
    CreateMask(8, p % 8)
  }

  function Broadcast6(addr: seq<Byte>, p: nat): (r: seq<Byte>)
    requires |addr| == 16 && p < 128
    ensures |r| == 16
  {
    seq(16, i requires 0 <= i < 16 =>
      if i < p / 8 then addr[i] else if i == p / 8 then Or8(addr[i], ByteMask(p)) else Or8(addr[i], 0xff))
  }

  /** The loop ORs the tail with zero, so the tail stays. */
  function Network6(addr: seq<Byte>, p: nat): (r: seq<Byte>)
    requires |addr| == 16 && p < 128
    ensures |r| == 16
  {
    seq(16, i requires 0 <= i < 16 =>
      if i < p / 8 then addr[i] else if i == p / 8 then And8(addr[i], Not8(ByteMask(p))) else Or8(addr[i], 0))
  }

  function Subnet6(p: nat): (r: seq<Byte>)
    requires p < 128
    ensures |r| == 16
  {
    seq(16, i requires 0 <= i < 16 => if i < p / 8 then 0xff else if i == p / 8 then Not8(ByteMask(p)) else 0)
  }

  method BroadcastAddress(bytes: array<Byte>, p: nat)
    requires bytes.Length == 16 && p < 128
    modifies bytes
    ensures bytes[..] == Broadcast6(old(bytes[..]), p)
  {
    bytes[p / 8] := Or8(bytes[p / 8], ByteMask(p));
    var i := p / 8 + 1;
    while i < 16
      invariant p / 8 + 1 <= i <= 16
      invariant forall k :: 0 <= k < i ==> bytes[k] == Broadcast6(old(bytes[..]), p)[k]
      invariant forall k :: i <= k < 16 ==> bytes[k] == old(bytes[k])
    {
      bytes[i] := Or8(bytes[i], 0xff);
      i := i + 1;
    }
  }

  method NetworkAddress(bytes: array<Byte>, p: nat)
    requires bytes.Length == 16 && p < 128
    modifies bytes
    ensures bytes[..] == Network6(old(bytes[..]), p)
  {
    bytes[p / 8] := And8(bytes[p / 8], Not8(ByteMask(p)));
    var i := p / 8 + 1;
    while i < 16
      invariant p / 8 + 1 <= i <= 16
      invariant forall k :: 0 <= k < i ==> bytes[k] == Network6(old(bytes[..]), p)[k]
      invariant forall k :: i <= k < 16 ==> bytes[k] == old(bytes[k])
    {
      bytes[i] := Or8(bytes[i], 0);
      i := i + 1;
    }
  }

  method SubnetMask(p: nat) returns (bytes: array<Byte>)
    requires p < 128
    ensures fresh(bytes) && bytes.Length == 16 && bytes[..] == Subnet6(p)
  {
    bytes := new Byte[16](_ => 0);
    bytes[p / 8] := Not8(ByteMask(p));
    var i := 0;
    while i < p / 8
      invariant 0 <= i <= p / 8
      invariant forall k :: 0 <= k < 16 && (k < i || k >= p / 8) ==> bytes[k] == Subnet6(p)[k]
    {
      bytes[i] := 0xff;
      i := i + 1;
    }
  }

  lemma ByteMaskBit(p: nat, k: nat)
    requires k < 8
    ensures Bit(ByteMask(p), 7 - k) == if k < p % 8 then 0 else 1
    ensures Bit(Not8(ByteMask(p)), 7 - k) == if k < p % 8 then 1 else 0
  {
    LowMaskBit(8 - p % 8, 7 - k);
    Not8Is(ByteMask(p));
    NotBit(8, ByteMask(p), 7 - k);
  }

  lemma AllOnes(k: nat)
    requires k < 8
    ensures Bit(0xff, k) == 1
  {
    Pow8();
    LowMaskBit(8, k);
  }

  /** The broadcast address keeps the first `p` bits and sets the rest. */
  lemma Broadcast6Bits(addr: seq<Byte>, p: nat, j: nat)
    requires |addr| == 16 && p < 128 && j < 128
    ensures AddrBit(Broadcast6(addr, p), j) == if j < p then AddrBit(addr, j) else 1
  {
    var a, k := addr[j / 8], j % 8;
    ByteMaskBit(p, k);
    AllOnes(7 - k);
    ByteBits(a, ByteMask(p), 7 - k);
    ByteBits(a, 0xff, 7 - k);
    hide Bit, Or8, ByteMask;
    assert j < p <==> j / 8 < p / 8 || (j / 8 == p / 8 && j % 8 < p % 8);
  }

  /** The subnet mask is the first `p` bits. */
  lemma Subnet6Bits(p: nat, j: nat)
    requires p < 128 && j < 128
    ensures AddrBit(Subnet6(p), j) == if j < p then 1 else 0
  {
    ByteMaskBit(p, j % 8);
    AllOnes(7 - j % 8);
    BitOfZero(7 - j % 8);
    hide Bit, Not8, ByteMask;
    assert j < p <==> j / 8 < p / 8 || (j / 8 == p / 8 && j % 8 < p % 8);
  }

  /** The network address keeps the first `p` bits and everything past the byte
      the prefix ends in; between, it clears. */
  lemma Network6Bits(addr: seq<Byte>, p: nat, j: nat)
    requires |addr| == 16 && p < 128 && j < 128
    ensures AddrBit(Network6(addr, p), j) == if j < p || j / 8 > p / 8 then AddrBit(addr, j) else 0
  {
    var a, k := addr[j / 8], j % 8;
    ByteMaskBit(p, k);
    ByteBits(a, ByteMask(p), 7 - k);
    assert Or8(a, 0) == a;
    hide Bit, And8, Or8, Not8, ByteMask;
    assert j < p <==> j / 8 < p / 8 || (j / 8 == p / 8 && j % 8 < p % 8);
  }

  lemma {:induction false} ZeroByte(a: nat, n: nat)
    requires a < Pow2(n) && forall k :: 0 <= k < n ==> Bit(a, k) == 0
    ensures a == 0
  {
    if n > 0 {
      forall k | 0 <= k < n - 1 ensures Bit(a / 2, k) == 0 {
        assert Bit(a, k + 1) == 0;
      }
      assert Bit(a, 0) == 0;
      ZeroByte(a / 2, n - 1);
    }
  }

  ghost predicate ClearsTail(addr: seq<Byte>, p: nat)
    requires |addr| == 16 && p < 128
  {
    forall j :: p <= j < 128 ==> AddrBit(Network6(addr, p), j) == 0
  }

  /** So it is the network address of the prefix exactly when the address has
      nothing past that byte. */
  lemma Network6Iff(addr: seq<Byte>, p: nat)
    requires |addr| == 16 && p < 128
    ensures ClearsTail(addr, p) <==> forall i :: p / 8 < i < 16 ==> addr[i] == 0
  {
    if ClearsTail(addr, p) {
      forall i | p / 8 < i < 16 ensures addr[i] == 0 {
        forall k | 0 <= k < 8 ensures Bit(addr[i], k) == 0 {
          Network6Bits(addr, p, 8 * i + 7 - k);
          assert AddrBit(Network6(addr, p), 8 * i + 7 - k) == 0;
        }
        Pow8();
        ZeroByte(addr[i], 8);
      }
    } else {
      var j :| p <= j < 128 && AddrBit(Network6(addr, p), j) != 0;
      Network6Bits(addr, p, j);
      BitOfZero(7 - j % 8);
      assert addr[j / 8] != 0;
    }
  }

  /** The address whose only bit is the last one. */
  function LastBit(): (a: seq<Byte>)
    ensures |a| == 16
  {
    [0, 0, 0, 0, 0, 0, 0, 0, 0, 0, 0, 0, 0, 0, 0, 1]
  }

  /** The IPv6 network address of prefix 0 is not the zero address. */
  lemma Network6GoesWrong()
    ensures !ClearsTail(LastBit(), 0)
  {
    Network6Iff(LastBit(), 0);
    assert LastBit()[15] == 1;
  }

  lemma ByteMaskOnes(p: nat)
    ensures Ones(Not8(ByteMask(p))) == p % 8 && Ones(0xff) == 8 && Ones(0) == 0
  {
    assert ByteMask(p) == Pow2(8 - p % 8) - 1;
    assert Ones(0) == 0;
    Pow8();
    hide Ones, Pow2, Not8, ByteMask;
    LowMaskOnes(8);
    LowMaskOnes(8 - p % 8);
    ByteSum(0, ByteMask(p));
  }

  lemma SubnetByteOnes(p: nat, i: nat)
    requires p < 128 && i < 16
    ensures Ones(Subnet6(p)[i]) == if i < p / 8 then 8 else if i == p / 8 then p % 8 else 0
  {
    ByteMaskOnes(p);
    hide Ones, Not8, ByteMask;
  }

  lemma {:induction false} SubnetOnesFrom(p: nat, i: nat)
    requires p < 128 && i <= 16
    ensures AddrOnes(Subnet6(p)[i..]) == if 8 * i <= p then p - 8 * i else 0
    decreases 16 - i
  {
    hide Ones, Subnet6;
    if i < 16 {
      SubnetByteOnes(p, i);
      SubnetOnesFrom(p, i + 1);
      assert Subnet6(p)[i..][1..] == Subnet6(p)[i + 1..];
    }
  }

  /** Counting the bits of the IPv6 subnet mask gives the prefix length back. */
  lemma SubnetOnes6(p: nat)
    requires p < 128
    ensures AddrOnes(Subnet6(p)) == p
  {
    SubnetOnesFrom(p, 0);
    assert Subnet6(p)[0..] == Subnet6(p);
  }

  /** The prefix length of a netmask: the bits of its 16 bytes together. */
  method CountAddress(bytes: seq<Byte>) returns (prefixLen: nat)
    requires |bytes| == 16
    ensures prefixLen == AddrOnes(bytes)
    ensures forall p :: 0 <= p < 128 && bytes == Subnet6(p) ==> prefixLen == p
  {
    prefixLen := 0;
    for i := 0 to 16
      invariant prefixLen + AddrOnes(bytes[i..]) == AddrOnes(bytes)
    {
      var ones := CountBytes(bytes[i]);
      assert bytes[i..][1..] == bytes[i + 1..];
      prefixLen := prefixLen + ones;
    }
    forall p | 0 <= p < 128 && bytes == Subnet6(p) ensures prefixLen == p {
      SubnetOnes6(p);
    }
  }
}
