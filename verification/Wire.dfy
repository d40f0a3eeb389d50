/** Bytes, addresses and the reply frames of section 6 of RFC 1928. */
module Wire {

  type byte = x: int | 0 <= x < 256

  datatype Option<+T> = None | Some(value: T)

  /** The singly linked lists of the program: `addrinfo`, `Sockaddr_ll` and `Blockaddr_ll`. */
  datatype List<+T> = Nil | Cons(head: T, tail: List<T>)

  function Elements<T>(l: List<T>): seq<T> {
    match l
    case Nil => []
    case Cons(x, rest) => [x] + Elements(rest)
  }

  datatype Family = Inet | Inet6

  function AddrLen(f: Family): nat {
    match f case Inet => 4 case Inet6 => 16
  }

  /** A socket address: address and port are kept as they lie in memory, in network byte order. */
  datatype RawAddr = SockAddr(family: Family, addr: seq<byte>, port: seq<byte>)

  type SockAddr = a: RawAddr | |a.addr| == AddrLen(a.family) && |a.port| == 2
    witness SockAddr(Inet, [0, 0, 0, 0], [0, 0])

  const ANY_ADDR: SockAddr := SockAddr(Inet, [0, 0, 0, 0], [0, 0])

  const VERSION: byte := 5
  const ATYP_IPV4: byte := 1
  const ATYP_DOMN: byte := 3
  const ATYP_IPV6: byte := 4
  const CMD_CONN: byte := 1
  const CMD_BIND: byte := 2
  const CMD_UDPA: byte := 3
  const REP_SUCCESS: byte := 0
  const REP_GENFAIL: byte := 1
  const REP_RULESET: byte := 2
  const REP_NUNRECH: byte := 3
  const REP_HUNRECH: byte := 4
  const REP_REFUSED: byte := 5
  const REP_TTLEXPR: byte := 6
  const REP_BADCOMM: byte := 7
  const REP_BADATYP: byte := 8
  /** `rep`, `cmd` and `method` before anything was decided. */
  const UNSET: byte := 0xFF

  function Atyp(f: Family): byte {
    match f case Inet => ATYP_IPV4 case Inet6 => ATYP_IPV6
  }

  /** One reply frame. */
  datatype Reply = Reply(rep: byte, addr: SockAddr)

  predicate IsSuccess(r: Reply) { r.rep == REP_SUCCESS }

  predicate IsFailure(r: Reply) { 1 <= r.rep <= 8 && r.addr == ANY_ADDR }

  function Encode(r: Reply): (s: seq<byte>)
    ensures |s| == 6 + AddrLen(r.addr.family) <= 22
  {
    [VERSION, r.rep, 0, Atyp(r.addr.family)] + r.addr.addr + r.addr.port
  }

  function EncodeAll(rs: seq<Reply>): seq<byte> {
    if rs == [] then [] else Encode(rs[0]) + EncodeAll(rs[1..])
  }

  /** The client's side: read one frame off the front of a byte stream. */
  function DecodeOne(s: seq<byte>): Option<(Reply, seq<byte>)> {
    if |s| < 4 || s[0] != VERSION || s[2] != 0 then None
    else if s[3] == ATYP_IPV4 && |s| >= 10 then
      Some((Reply(s[1], SockAddr(Inet, s[4..8], s[8..10])), s[10..]))
    else if s[3] == ATYP_IPV6 && |s| >= 22 then
      Some((Reply(s[1], SockAddr(Inet6, s[4..20], s[20..22])), s[22..]))
    else None
  }

  /** Read a whole stream as frames. */
  function DecodeAll(s: seq<byte>): Option<seq<Reply>>
    decreases |s|
  {
    if s == [] then Some([])
    else match DecodeOne(s)
      case None => None
      case Some((r, rest)) =>
        match DecodeAll(rest)
        case None => None
        case Some(rs) => Some([r] + rs)
  }

  lemma DecodeOneEncode(r: Reply, rest: seq<byte>)
    ensures DecodeOne(Encode(r) + rest) == Some((r, rest))
  {
    var n := AddrLen(r.addr.family);
    var s := Encode(r) + rest;
    assert s[4..4 + n] == r.addr.addr;
    assert s[4 + n..6 + n] == r.addr.port;
    assert s[6 + n..] == rest;
  }

  /** Frames survive the wire: no two different reply histories produce the same bytes. */
  lemma {:induction false} DecodeAllEncodeAll(rs: seq<Reply>)
    ensures DecodeAll(EncodeAll(rs)) == Some(rs)
  {
    if rs != [] {
      DecodeOneEncode(rs[0], EncodeAll(rs[1..]));
      DecodeAllEncodeAll(rs[1..]);
      assert [rs[0]] + rs[1..] == rs;
    }
  }

  lemma {:induction false} EncodeAllAppend(rs: seq<Reply>, r: Reply)
    ensures EncodeAll(rs + [r]) == EncodeAll(rs) + Encode(r)
  {
    if rs == [] {
      assert [r][1..] == [];
    } else {
      assert (rs + [r])[1..] == rs[1..] + [r];
      EncodeAllAppend(rs[1..], r);
    }
  }
}
