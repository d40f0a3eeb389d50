/** The CIDR firewall: netmasks, pre-masked block lists and the membership test. */
module Firewall {
  import opened Wire
  import opened Bits

  // ---- Netmasks

  /** A netmask: a host-order word for IPv4, sixteen bytes for IPv6. */
  datatype Netmask = Netmask4(inet: nat) | Netmask6(inet6: seq<byte>)

  predicate ValidMask(n: Netmask) {
    n.Netmask6? ==> |n.inet6| == 16
  }

  function MaskByte(m: nat, i: nat): byte {
    if 8 * (i + 1) <= m then 0xFF
    else if m <= 8 * i then 0
    else assert Pow2(8) == 256 by { PowSum(8 - (m - 8 * i), m - 8 * i); }
         PowMonotone(8 - (m - 8 * i), 8);
         256 - Pow2(8 - (m - 8 * i))
  }

  /** n bytes with the first m bits set. */
  function MaskBytes(n: nat, m: nat): (s: seq<byte>)
    ensures |s| == n
  {
    seq(n, i requires 0 <= i < n => MaskByte(m, i))
  }

  lemma {:induction false} MaskBytesNumber(n: nat, m: nat)
    requires m <= 8 * n
    ensures BigEndian(MaskBytes(n, m)) == Pow2(8 * n) - Pow2(8 * n - m)
  {
    if n > 0 {
      var k := 8 * (n - 1);
      var h := if m <= k then m else k;
      MaskBytesNumber(n - 1, h);
      assert MaskBytes(n, m)[..n - 1] == MaskBytes(n - 1, h);
      PowPlus8(k);
      if m <= k { PowPlus8(k - m); }
      assert MaskBytes(n, m)[n - 1] == MaskByte(m, n - 1);
    }
  }

  function Shl8(x: byte, k: nat): byte { x * Pow2(k) % 256 }

  function Shl32(x: nat, k: nat): nat { x * Pow2(k) % Pow2(32) }

  lemma Shl8Ones(k: nat)
    requires k <= 8
    ensures Pow2(k) <= 256
    ensures Shl8(0xFF, k) == if k == 8 then 0 else 256 - Pow2(k)
  {
    assert Pow2(8) == 256;
    PowMonotone(k, 8);
    DivUnique(255 * Pow2(k), 256, Pow2(k) - 1, 256 - Pow2(k));
    if k < 8 { PowMonotone(0, k); } else { assert 255 * 256 % 256 == 0; }
  }

  lemma OnesShifted(w: nat, p: nat)
    requires 1 <= p < w
    ensures (w - 1) * p % w == w - p
  {
    Distribute(w, 1, p);
    Distribute(p, 1, w);
    DivUnique((w - 1) * p, w, p - 1, w - p);
  }

  lemma Shl32Ones(m: nat)
    requires 1 <= m <= 32
    ensures Pow2(32 - m) <= Pow2(32)
    ensures Shl32(Pow2(32) - 1, 32 - m) == Pow2(32) - Pow2(32 - m)
  {
    PowMonotone(32 - m, 31);
    OnesShifted(Pow2(32), Pow2(32 - m));
  }

  /** The number an m-bit netmask denotes. */
  function MaskNumber(af: Family, m: nat): nat
    requires m <= 8 * AddrLen(af)
  {
    PowMonotone(8 * AddrLen(af) - m, 8 * AddrLen(af));
    Pow2(8 * AddrLen(af)) - Pow2(8 * AddrLen(af) - m)
  }

  /** The word shift for IPv4. */
  method ShiftOnes(mask: nat) returns (netmask: nat)
    requires 1 <= mask <= 32
    ensures netmask == MaskNumber(Inet, mask)
  {
    netmask := Pow2(32) - 1;
    Shl32Ones(mask);
    netmask := Shl32(netmask, 32 - mask);
  }

  /** The byte loop for IPv6. */
  method MaskLoop(mask: nat) returns (r: seq<byte>)
    requires mask <= 128
    ensures r == MaskBytes(16, mask)
  {
    var netmask := new byte[16](_ => 0);
    var bitsLeft: int := mask;
    var i := 0;
    while i < 16
      invariant 0 <= i <= 16 && bitsLeft == mask - 8 * i
      invariant bitsLeft > 0 || i == 0
      invariant forall j :: 0 <= j < i ==> netmask[j] == 0xFF
      invariant forall j :: i <= j < 16 ==> netmask[j] == 0
    {
      netmask[i] := 0xFF;
      if bitsLeft > 8 {
        bitsLeft := bitsLeft - 8;
        i := i + 1;
        continue;
      }
      Shl8Ones(8 - bitsLeft);
      netmask[i] := Shl8(netmask[i], 8 - bitsLeft);
      assert netmask[i] == MaskByte(mask, i);
      break;
    }
    assert forall j :: 0 <= j < 16 ==> netmask[j] == MaskByte(mask, j);
    r := netmask[..];
  }

  /**
   * Netmask of a prefix length; None is the error return. For IPv4 and length 0 the program
   * shifts a 32-bit word by 32, which C leaves undefined: `leftover` is whatever word results.
   */
  method FirewallIton(af: Family, mask: int, leftover: nat) returns (r: Option<Netmask>)
    ensures r.None? <==> mask < 0 || mask > 8 * AddrLen(af)
    ensures r.Some? ==> ValidMask(r.value) && r.value.Netmask4? == af.Inet?
    ensures r.Some? && af.Inet? ==> r.value.inet == if mask == 0 then leftover else MaskNumber(af, mask)
    ensures r.Some? && af.Inet6? ==> BigEndian(r.value.inet6) == MaskNumber(af, mask)
  {
    if mask < 0 {
      return None;
    }
    match af {
      case Inet =>
        if mask > 32 {
          return None;
        }
        var netmask := leftover;
        if mask > 0 {
          netmask := ShiftOnes(mask);
        }
        return Some(Netmask4(netmask));
      case Inet6 =>
        if mask > 128 {
          return None;
        }
        var netmask := MaskLoop(mask);
        MaskBytesNumber(16, mask);
        return Some(Netmask6(netmask));
    }
  }

  // ---- Masking

  /** The word a little-endian host loads from four bytes of memory. */
  function LoadWord(b: seq<byte>): nat
    requires |b| == 4
  {
    Word(b[0], b[1], b[2], b[3])
  }

  /** A word by its bytes, low to high. */
  function Word(b0: nat, b1: nat, b2: nat, b3: nat): nat {
    b0 + 0x100 * (b1 + 0x100 * (b2 + 0x100 * b3))
  }

  function StoreWord(x: nat): seq<byte> {
    var x1 := x / 0x100;
    var x2 := x1 / 0x100;
    var x3 := x2 / 0x100;
    [x % 0x100, x1 % 0x100, x2 % 0x100, x3 % 0x100]
  }

  /** htonl and ntohl on a little-endian host: the bytes of the word reversed. */
  function Swap(x: nat): nat {
    var b := StoreWord(x);
    LoadWord([b[3], b[2], b[1], b[0]])
  }

  lemma BigEndian4(b: seq<byte>)
    requires |b| == 4
    ensures BigEndian(b) == Word(b[3], b[2], b[1], b[0])
  {
    assert b[..3][..2] == b[..2] && b[..2][..1] == b[..1] && b[..1][..0] == [];
    assert BigEndian(b[..1]) == b[0];
    assert BigEndian(b[..2]) == BigEndian(b[..1]) * 256 + b[1];
    assert BigEndian(b[..3]) == BigEndian(b[..2]) * 256 + b[2];
  }

  lemma StoreLoad(b: seq<byte>)
    requires |b| == 4
    ensures StoreWord(LoadWord(b)) == b
  {
    var x := LoadWord(b);
    assert x / 0x100 == Word(b[1], b[2], b[3], 0);
    assert Word(b[1], b[2], b[3], 0) / 0x100 == Word(b[2], b[3], 0, 0);
    assert Word(b[2], b[3], 0, 0) / 0x100 == b[3];
  }

  /** ntohl turns the memory image of an address into the number it denotes. */
  lemma NetworkToHost(b: seq<byte>)
    requires |b| == 4
    ensures Swap(LoadWord(b)) == BigEndian(b)
  {
    StoreLoad(b);
    BigEndian4(b);
  }

  /** htonl is its inverse. */
  lemma HostToNetwork(n: nat)
    requires n < 0x1_0000_0000
    ensures BigEndian(StoreWord(Swap(n))) == n
  {
    var s := StoreWord(n);
    StoreLoad([s[3], s[2], s[1], s[0]]);
    BigEndian4([s[3], s[2], s[1], s[0]]);
    assert n == LoadWord(s);
  }

  method MaskSin(dst: array<byte>, netmask: nat)
    requires dst.Length == 4
    modifies dst
    ensures BigEndian(dst[..]) == And(BigEndian(old(dst[..])), netmask)
  {
    var word := LoadWord(dst[..]);
    word := Swap(And(Swap(word), netmask));
    NetworkToHost(dst[..]);
    BigEndianBound(dst[..]);
    Pow32();
    HostToNetwork(And(BigEndian(dst[..]), netmask));
    var b := StoreWord(word);
    dst[0], dst[1], dst[2], dst[3] := b[0], b[1], b[2], b[3];
    assert dst[..] == b;
  }

  method MaskSin6(dst: array<byte>, netmask: seq<byte>)
    requires dst.Length == 16 == |netmask|
    modifies dst
    ensures dst[..] == AndBytes(old(dst[..]), netmask)
  {
    for i := 0 to 16
      invariant forall j :: 0 <= j < i ==> dst[j] == AndByte(old(dst[j]), netmask[j])
      invariant forall j :: i <= j < 16 ==> dst[j] == old(dst[j])
    {
      dst[i] := AndByte(dst[i], netmask[i]);
    }
  }

  // ---- Block lists

  /** A configured network; `net` is already masked. */
  datatype RawBlock = Block(netmask: Netmask, net: SockAddr)

  type Block = b: RawBlock | ValidMask(b.netmask) && b.netmask.Netmask4? == b.net.family.Inet?
    witness Block(Netmask4(0), ANY_ADDR)

  /** One comparison of the block walk. */
  predicate Hits(b: Block, a: SockAddr) {
    && a.family == b.net.family
    && match b.netmask
       case Netmask4(w) => And(BigEndian(a.addr), w) == BigEndian(b.net.addr)
       case Netmask6(m) => AndBytes(a.addr, m) == b.net.addr
  }

  predicate Covered(a: SockAddr, blocks: List<Block>) {
    blocks.Cons? && (Hits(blocks.head, a) || Covered(a, blocks.tail))
  }

  predicate CoveredAny(ai: List<SockAddr>, blocks: List<Block>) {
    ai.Cons? && (Covered(ai.head, blocks) || CoveredAny(ai.tail, blocks))
  }

  method CheckSin(addr: SockAddr, head: List<Block>) returns (hit: bool)
    requires addr.family.Inet?
    ensures hit == Covered(addr, head)
  {
    var current: List<Block> := head;
    while current.Cons?
      invariant Covered(addr, head) == Covered(addr, current)
      decreases current
    {
      if !current.head.net.family.Inet? {
        current := current.tail;
        continue;
      }
      var maskAddr := new byte[4](i requires 0 <= i < 4 => addr.addr[i]);
      assert maskAddr[..] == addr.addr;
      MaskSin(maskAddr, current.head.netmask.inet);
      if maskAddr[..] == current.head.net.addr {
        return true;
      }
      if BigEndian(maskAddr[..]) == BigEndian(current.head.net.addr) {
        BigEndianInjective(maskAddr[..], current.head.net.addr);
      }
      current := current.tail;
    }
    return false;
  }

  method CheckSin6(addr: SockAddr, head: List<Block>) returns (hit: bool)
    requires addr.family.Inet6?
    ensures hit == Covered(addr, head)
  {
    var current: List<Block> := head;
    while current.Cons?
      invariant Covered(addr, head) == Covered(addr, current)
      decreases current
    {
      if !current.head.net.family.Inet6? {
        current := current.tail;
        continue;
      }
      var maskAddr := new byte[16](i requires 0 <= i < 16 => addr.addr[i]);
      assert maskAddr[..] == addr.addr;
      MaskSin6(maskAddr, current.head.netmask.inet6);
      if maskAddr[..] == current.head.net.addr {
        return true;
      }
      current := current.tail;
    }
    return false;
  }

  method CheckAi(ai: List<SockAddr>, head: List<Block>) returns (hit: bool)
    ensures hit == CoveredAny(ai, head)
  {
    var current: List<SockAddr> := ai;
    while current.Cons?
      invariant CoveredAny(ai, head) == CoveredAny(current, head)
      decreases current
    {
      match current.head.family {
        case Inet =>
          var h := CheckSin(current.head, head);
          if h { return true; }
        case Inet6 =>
          var h := CheckSin6(current.head, head);
          if h { return true; }
      }
      current := current.tail;
    }
    return false;
  }

  /** The prefix length a block really has: a length out of range leaves the netmask zeroed. */
  function EffectiveLength(af: Family, mask: int): (m: nat)
    ensures m <= 8 * AddrLen(af)
  {
    if 0 <= mask <= 8 * AddrLen(af) then mask else 0
  }

  /** One `block` line of the configuration, with what the shift leaves should it be by 32. */
  datatype Rule = Rule(net: SockAddr, mask: int, leftover: nat)

  /** The shift is by 32. */
  predicate Undefined(rule: Rule) {
    rule.net.family.Inet? && rule.mask == 0
  }

  /**
   * The rule names the address: same family and same first bits. An IPv4 rule of length 0 names
   * what the leftover word happens to make equal.
   */
  ghost predicate Names(rule: Rule, a: SockAddr) {
    && a.family == rule.net.family
    && if Undefined(rule) then And(BigEndian(a.addr), rule.leftover) == And(BigEndian(rule.net.addr), rule.leftover)
       else SamePrefix(a.addr, rule.net.addr, EffectiveLength(a.family, rule.mask))
  }

  /**
   * Put one configured network in front of the list. The error return of the netmask
   * computation is ignored, as the program does.
   */
  method LinkBlocks(rule: Rule, head: List<Block>) returns (newHead: List<Block>)
    ensures newHead.Cons? && newHead.tail == head
    ensures newHead.head.net.family == rule.net.family
    ensures forall a: SockAddr :: Hits(newHead.head, a) <==> Names(rule, a)
  {
    var ai := rule.net;
    var netmask := if ai.family.Inet? then Netmask4(0) else Netmask6(seq(16, _ => 0));
    var computed := FirewallIton(ai.family, rule.mask, rule.leftover);
    if computed.Some? {
      netmask := computed.value;
    }
    var sin := new byte[|ai.addr|](i requires 0 <= i < |ai.addr| => ai.addr[i]);
    assert sin[..] == ai.addr;
    match ai.family {
      case Inet =>
        MaskSin(sin, netmask.inet);
      case Inet6 =>
        MaskSin6(sin, netmask.inet6);
        if computed.None? { ZeroMask(netmask.inet6); }
        AndBytesBigEndian(ai.addr, netmask.inet6);
    }
    var node: Block := Block(netmask, SockAddr(ai.family, sin[..], ai.port));
    forall a: SockAddr
      ensures Hits(node, a) <==> Names(rule, a)
    {
      if a.family == ai.family && !Undefined(rule) {
        HitsIffSamePrefix(node, ai, EffectiveLength(ai.family, rule.mask), a);
      }
    }
    newHead := Cons(node, head);
  }

  lemma ZeroMask(z: seq<byte>)
    requires |z| == 16 && forall i :: 0 <= i < 16 ==> z[i] == 0
    ensures BigEndian(z) == MaskNumber(Inet6, 0)
  {
    assert z == MaskBytes(16, 0);
    MaskBytesNumber(16, 0);
  }

  /** A block built from network `net` and m one bits hits exactly the addresses with net's first m bits. */
  lemma HitsIffSamePrefix(b: Block, net: SockAddr, m: nat, a: SockAddr)
    requires b.net.family == net.family == a.family && m <= 8 * AddrLen(net.family)
    requires b.netmask.Netmask4? ==> b.netmask.inet == MaskNumber(Inet, m)
    requires b.netmask.Netmask6? ==> BigEndian(b.netmask.inet6) == MaskNumber(Inet6, m)
    requires BigEndian(b.net.addr) ==
      And(BigEndian(net.addr), if b.netmask.Netmask4? then b.netmask.inet else BigEndian(b.netmask.inet6))
    ensures Hits(b, a) <==> SamePrefix(a.addr, net.addr, m)
  {
    var mask := if b.netmask.Netmask4? then b.netmask.inet else BigEndian(b.netmask.inet6);
    MaskedEqual(a.addr, net.addr, m, mask);
    if b.netmask.Netmask6? {
      AndBytesBigEndian(a.addr, b.netmask.inet6);
      if And(BigEndian(a.addr), mask) == BigEndian(b.net.addr) {
        BigEndianInjective(AndBytes(a.addr, b.netmask.inet6), b.net.addr);
      }
    }
  }

  /** Masking rounds down to a multiple of 2^(width - m), and masking twice changes nothing. */
  lemma MaskingRounds(s: seq<byte>, m: nat)
    requires m <= 8 * |s|
    ensures BigEndian(MaskBytes(|s|, m)) == Pow2(8 * |s|) - Pow2(8 * |s| - m)
    ensures BigEndian(AndBytes(s, MaskBytes(|s|, m))) == Floor(BigEndian(s), 8 * |s| - m)
    ensures AndBytes(AndBytes(s, MaskBytes(|s|, m)), MaskBytes(|s|, m)) == AndBytes(s, MaskBytes(|s|, m))
  {
    var mask, k := MaskBytes(|s|, m), 8 * |s| - m;
    var t := AndBytes(s, mask);
    MaskFloors(s, m);
    MaskFloors(t, m);
    FloorIdempotent(BigEndian(s), k);
    BigEndianInjective(AndBytes(t, mask), t);
  }

  lemma MaskFloors(s: seq<byte>, m: nat)
    requires m <= 8 * |s|
    ensures BigEndian(MaskBytes(|s|, m)) == Pow2(8 * |s|) - Pow2(8 * |s| - m)
    ensures BigEndian(AndBytes(s, MaskBytes(|s|, m))) == Floor(BigEndian(s), 8 * |s| - m)
  {
    MaskBytesNumber(|s|, m);
    AndBytesBigEndian(s, MaskBytes(|s|, m));
    MaskIsFloor(s, m, BigEndian(MaskBytes(|s|, m)));
  }

  // ---- Whole configurations

  /** `blocks` was linked from `rules`, first rule deepest. */
  ghost predicate LinkedFrom(blocks: List<Block>, rules: seq<Rule>)
    decreases blocks
  {
    match blocks
    case Nil => rules == []
    case Cons(b, rest) =>
      && rules != []
      && LinkedFrom(rest, rules[..|rules| - 1])
      && forall a: SockAddr :: Hits(b, a) <==> Names(rules[|rules| - 1], a)
  }

  method LinkRules(rules: seq<Rule>) returns (head: List<Block>)
    ensures LinkedFrom(head, rules)
  {
    head := Nil;
    for i := 0 to |rules|
      invariant LinkedFrom(head, rules[..i])
    {
      head := LinkBlocks(rules[i], head);
      assert rules[..i + 1][..i] == rules[..i];
      assert rules[..i + 1][i] == rules[i];
    }
    assert rules[..|rules|] == rules;
  }

  /** A rule blocks its whole address family if and only if its length is 0 or out of range. */
  lemma WholeFamilyIff(rule: Rule)
    requires !Undefined(rule)
    ensures (forall a: SockAddr :: a.family == rule.net.family ==> Names(rule, a)) <==>
      rule.mask <= 0 || rule.mask > 8 * AddrLen(rule.net.family)
  {
    var net := rule.net;
    if 0 < rule.mask <= 8 * AddrLen(net.family) {
      var a: SockAddr := SockAddr(net.family, [(net.addr[0] as int + 128) % 256] + net.addr[1..], net.port);
      assert Pow2(7) == 128;
      assert Bit(a.addr, 0) != Bit(net.addr, 0);
      assert !Names(rule, a);
    }
  }

  /** 10.0.0.0/33 blocks 8.8.8.8. */
  lemma LengthTooLargeExample()
    ensures Names(Rule(SockAddr(Inet, [10, 0, 0, 0], [0, 0]), 33, 0), SockAddr(Inet, [8, 8, 8, 8], [0, 53]))
  {
    WholeFamilyIff(Rule(SockAddr(Inet, [10, 0, 0, 0], [0, 0]), 33, 0));
  }

  /** The firewall refuses an address exactly when some configured rule names it. */
  lemma {:induction false} CoveredIffNamed(blocks: List<Block>, rules: seq<Rule>, a: SockAddr)
    requires LinkedFrom(blocks, rules)
    ensures Covered(a, blocks) <==> exists i :: 0 <= i < |rules| && Names(rules[i], a)
    decreases blocks
  {
    if blocks.Cons? {
      var n := |rules| - 1;
      CoveredIffNamed(blocks.tail, rules[..n], a);
      if Covered(a, blocks.tail) {
        var i :| 0 <= i < n && Names(rules[..n][i], a);
        assert Names(rules[i], a);
      }
      forall i | 0 <= i < |rules| && Names(rules[i], a)
        ensures Covered(a, blocks)
      {
        if i < n { assert Names(rules[..n][i], a); }
      }
    }
  }

  lemma {:induction false} CoveredAnyIff(ai: List<SockAddr>, blocks: List<Block>)
    ensures CoveredAny(ai, blocks) <==> exists i :: 0 <= i < |Elements(ai)| && Covered(Elements(ai)[i], blocks)
  {
    if ai.Cons? {
      CoveredAnyIff(ai.tail, blocks);
      assert forall i :: 0 < i < |Elements(ai)| ==> Elements(ai)[i] == Elements(ai.tail)[i - 1];
      assert Elements(ai)[0] == ai.head;
      if CoveredAny(ai.tail, blocks) {
        var i :| 0 <= i < |Elements(ai.tail)| && Covered(Elements(ai.tail)[i], blocks);
        assert Covered(Elements(ai)[i + 1], blocks);
      }
    }
  }

  // ---- The decision

  predicate UdpaUnspec(cmd: byte, sa: Option<SockAddr>) {
    cmd == CMD_UDPA && sa.Some? && forall i :: 0 <= i < |sa.value.addr| ==> sa.value.addr[i] == 0
  }

  /** The verdict of the firewall: true drops the request. */
  predicate Drops(cmd: byte, sa: Option<SockAddr>, ai: List<SockAddr>, blocks: List<Block>) {
    if UdpaUnspec(cmd, sa) then false
    else if sa.Some? then Covered(sa.value, blocks)
    else if ai.Cons? then CoveredAny(ai, blocks)
    else true
  }

  /**
   * What the rules say about a request: a literal address is refused when a rule names it, unless
   * it is the all-zero address of command 3; a resolved list when a rule names one of its
   * addresses; a request without destination always.
   */
  ghost predicate RuledOut(rules: seq<Rule>, cmd: byte, sa: Option<SockAddr>, ai: List<SockAddr>) {
    match sa
    case Some(a) =>
      && (exists i :: 0 <= i < |rules| && Names(rules[i], a))
      && !(cmd == 3 && forall k :: 0 <= k < |a.addr| ==> a.addr[k] == 0)
    case None =>
      ai.Cons? ==> exists i, k :: 0 <= i < |rules| && 0 <= k < |Elements(ai)| && Names(rules[i], Elements(ai)[k])
  }

  /** The verdict over the linked blocks is what the rules say. */
  lemma DropsIffRuledOut(cmd: byte, sa: Option<SockAddr>, ai: List<SockAddr>, blocks: List<Block>, rules: seq<Rule>)
    requires LinkedFrom(blocks, rules)
    ensures Drops(cmd, sa, ai, blocks) <==> RuledOut(rules, cmd, sa, ai)
  {
    if sa.Some? {
      CoveredIffNamed(blocks, rules, sa.value);
    } else if ai.Cons? {
      CoveredAnyIff(ai, blocks);
      forall k | 0 <= k < |Elements(ai)|
        ensures Covered(Elements(ai)[k], blocks) <==> exists i :: 0 <= i < |rules| && Names(rules[i], Elements(ai)[k])
      {
        CoveredIffNamed(blocks, rules, Elements(ai)[k]);
      }
    }
  }

  method Decide(cmd: byte, sa: Option<SockAddr>, ai: List<SockAddr>, blocks: List<Block>) returns (drop: bool)
    ensures drop == Drops(cmd, sa, ai, blocks)
    ensures forall rules :: LinkedFrom(blocks, rules) ==> (drop <==> RuledOut(rules, cmd, sa, ai))
  {
    forall rules | LinkedFrom(blocks, rules)
      ensures Drops(cmd, sa, ai, blocks) <==> RuledOut(rules, cmd, sa, ai)
    {
      DropsIffRuledOut(cmd, sa, ai, blocks, rules);
    }
    if UdpaUnspec(cmd, sa) {
      return false;
    }
    if sa.Some? {
      match sa.value.family {
        case Inet => drop := CheckSin(sa.value, blocks);
        case Inet6 => drop := CheckSin6(sa.value, blocks);
      }
    } else if ai.Cons? {
      drop := CheckAi(ai, blocks);
    } else {
      return true;
    }
  }
}
