/** Which peer an IP packet belongs to (internal/tun/route.go). */
module RouteTable {
  import opened Common

  /** An address as Go's net.IP holds it: 4 or 16 bytes. */
  predicate IsAddress(ip: Bytes) {
    |ip| == 4 || |ip| == 16
  }

  const MAPPED: Bytes := [0, 0, 0, 0, 0, 0, 0, 0, 0, 0, 0xff, 0xff]

  /** An IPv4 address written as the 16-byte form ::ffff:a.b.c.d. */
  predicate IsMapped(ip: Bytes) {
    |ip| == 16 && MAPPED <= ip
  }

  /** The 4-byte form of an IPv4 address in either notation; other addresses stay. */
  function Canonical(ip: Bytes): Bytes {
    if IsMapped(ip) then ip[12..] else ip
  }

  /** A parsed CIDR: host bits already cleared, `bits` counted in the notation it was written in. */
  datatype Prefix = Prefix(address: Bytes, bits: nat)

  predicate WellFormed(p: Prefix) {
    && IsAddress(p.address) && p.bits <= 8 * |p.address|
    && forall k :: p.bits <= k < 8 * |p.address| ==> Bit(p.address, k) == 0
  }

  type Cidr = p: Prefix | WellFormed(p) witness Prefix([0, 0, 0, 0], 0)

  /** The first `ones` bits of a byte, as a mask byte keeps them. */
  function Masked(x: byte, ones: nat): nat
    requires ones <= 8
  {
    match ones
    case 8 => x as nat
    case 7 => x as nat / 2
    case 6 => x as nat / 4
    case 5 => x as nat / 8
    case 4 => x as nat / 16
    case 3 => x as nat / 32
    case 2 => x as nat / 64
    case 1 => x as nat / 128
    case 0 => 0
  }

  function BitOf(x: byte, j: nat): nat
    requires j < 8
  {
    Masked(x, j + 1) % 2
  }

  /** Bit `k` of an address, the most significant one first. */
  function Bit(ip: Bytes, k: nat): nat
    requires k < 8 * |ip|
  {
    BitOf(ip[k / 8], k % 8)
  }

  /** How many bits of byte `i` a mask of `bits` ones covers. */
  function Ones(bits: nat, i: nat): (ones: nat)
    ensures ones <= 8
  {
    if bits >= 8 * i + 8 then 8 else if bits <= 8 * i then 0 else bits - 8 * i
  }

  /** The network number and mask length Contains compares with: 4-byte form where there is one. */
  function Network(p: Cidr): (n: Prefix) {
    Prefix(Canonical(p.address), if !IsMapped(p.address) then p.bits else if p.bits >= 96 then p.bits - 96 else 0)
  }

  /** The byte-wise comparison under the mask. */
  predicate Contains(p: Cidr, ip: Bytes) {
    var n, x := Network(p), Canonical(ip);
     |x| == |n.address| && SameMasked(n.address, x, n.bits)
  }

  datatype Route = Route(prefix: Cidr, peer: nat)

  /** A configured peer; None stands for a route text that is no CIDR. */
  datatype Peer = Peer(routes: seq<Option<Cidr>>)

  // ------------------------------------------------------------ prefix match

  lemma Half(x: byte, ones: nat)
    requires 0 < ones <= 8
    ensures Masked(x, ones - 1) == Masked(x, ones) / 2
  {
    if ones == 8 {
    } else if ones == 7 {
    } else if ones == 6 {
    } else if ones == 5 {
    } else if ones == 4 {
    } else if ones == 3 {
    } else if ones == 2 {
    }
  }

  lemma {:induction false} MaskedIsBits(x: byte, y: byte, ones: nat)
    requires ones <= 8
    ensures Masked(x, ones) == Masked(y, ones) <==>
      forall j :: 0 <= j < ones ==> BitOf(x, j) == BitOf(y, j)
  {
    if ones > 0 {
      MaskedIsBits(x, y, ones - 1);
      Half(x, ones);
      Half(y, ones);
      hide Masked;
      assert BitOf(x, ones - 1) == Masked(x, ones) % 2 && BitOf(y, ones - 1) == Masked(y, ones) % 2;
    }
  }

  /** The eight bits of a byte make it up. */
  lemma BitsMakeByte(x: byte)
    ensures x as nat == 128 * BitOf(x, 0) + 64 * BitOf(x, 1) + 32 * BitOf(x, 2) + 16 * BitOf(x, 3)
                        + 8 * BitOf(x, 4) + 4 * BitOf(x, 5) + 2 * BitOf(x, 6) + BitOf(x, 7)
    ensures forall j :: 0 <= j < 8 ==> BitOf(x, j) in {0, 1}
  {
    Half(x, 8);
    Half(x, 7);
    Half(x, 6);
    Half(x, 5);
    Half(x, 4);
    Half(x, 3);
    Half(x, 2);
    Half(x, 1);
    assert Masked(x, 8) == x as nat && Masked(x, 0) == 0;
    hide Masked;
  }

  /** The first `bits` bits of two addresses are the same. */
  predicate SameBits(a: Bytes, b: Bytes, bits: nat)
    requires |a| == |b| && bits <= 8 * |a|
  {
    forall k :: 0 <= k < bits ==> Bit(a, k) == Bit(b, k)
  }

  predicate SameMasked(a: Bytes, b: Bytes, bits: nat)
    requires |a| == |b|
  {
    forall i :: 0 <= i < |a| ==> Masked(a[i], Ones(bits, i)) == Masked(b[i], Ones(bits, i))
  }

  lemma MaskedThenBits(a: Bytes, b: Bytes, bits: nat)
    requires |a| == |b| && bits <= 8 * |a| && SameMasked(a, b, bits)
    ensures SameBits(a, b, bits)
  {
    hide Masked, BitOf;
    forall k | 0 <= k < bits ensures Bit(a, k) == Bit(b, k) {
      var i, j := k / 8, k % 8;
      MaskedIsBits(a[i], b[i], Ones(bits, i));
      assert BitOf(a[i], j) == BitOf(b[i], j);
    }
  }

  lemma BitsThenMasked(a: Bytes, b: Bytes, bits: nat)
    requires |a| == |b| && bits <= 8 * |a| && SameBits(a, b, bits)
    ensures SameMasked(a, b, bits)
  {
    hide Masked, BitOf;
    forall i | 0 <= i < |a| ensures Masked(a[i], Ones(bits, i)) == Masked(b[i], Ones(bits, i)) {
      forall j | 0 <= j < Ones(bits, i) ensures BitOf(a[i], j) == BitOf(b[i], j) {
        var k := 8 * i + j;
        assert k / 8 == i && k % 8 == j;
        assert Bit(a, k) == Bit(b, k);
      }
      MaskedIsBits(a[i], b[i], Ones(bits, i));
    }
  }

  /** The mask comparison is the prefix match of RFC 4632: the first `bits` bits agree. */
  lemma ContainsIsPrefixMatch(p: Cidr, ip: Bytes)
    ensures Network(p).bits <= 8 * |Network(p).address|
    ensures Contains(p, ip) <==>
      |Canonical(ip)| == |Network(p).address| && SameBits(Network(p).address, Canonical(ip), Network(p).bits)
  {
    hide Bit;
    MappedIsLong(p);
    var n, x := Network(p), Canonical(ip);
    if |x| == |n.address| {
      if Contains(p, ip) {
        MaskedThenBits(n.address, x, n.bits);
      } else if SameBits(n.address, x, n.bits) {
        BitsThenMasked(n.address, x, n.bits);
      }
    }
  }

  /** An IPv4-mapped network keeps its 96 fixed bits. */
  lemma MappedIsLong(p: Cidr)
    ensures IsMapped(p.address) ==> p.bits >= 96
  {
    if IsMapped(p.address) {
      assert p.address[11] == MAPPED[11];
      assert Bit(p.address, 95) == 1;
    }
  }

  /** An address or a network number as 128 bits, IPv4 as ::ffff:a.b.c.d. */
  function Wide(ip: Bytes): Bytes {
    if |ip| == 4 then [0, 0, 0, 0, 0, 0, 0, 0, 0, 0, 255, 255] + ip else ip
  }

  /** An IPv4 address in either notation. */
  predicate IsV4(ip: Bytes) {
    |ip| == 4 || (|ip| == 16 && ip[..12] == [0, 0, 0, 0, 0, 0, 0, 0, 0, 0, 255, 255])
  }

  /** The length of a prefix counted in 128 bits. */
  function WideBits(p: Cidr): nat {
    if |p.address| == 4 then 96 + p.bits else p.bits
  }

  lemma WideShift(a: Bytes, b: Bytes, bits: nat)
    requires |a| == |b| == 16 && a[..12] == b[..12] && bits <= 32
    ensures SameBits(a[12..], b[12..], bits) <==> SameBits(a, b, 96 + bits)
  {
    hide BitOf;
    forall k: nat | k < 32 ensures Bit(a[12..], k) == Bit(a, 96 + k) && Bit(b[12..], k) == Bit(b, 96 + k) {
      assert (96 + k) / 8 == 12 + k / 8 && (96 + k) % 8 == k % 8;
    }
    if SameBits(a[12..], b[12..], bits) {
      forall k | 0 <= k < 96 + bits ensures Bit(a, k) == Bit(b, k) {
        if k < 96 {
          assert a[k / 8] == a[..12][k / 8] && b[k / 8] == b[..12][k / 8];
        } else {
          assert Bit(a[12..], k - 96) == Bit(b[12..], k - 96);
        }
      }
    } else {
      var k :| 0 <= k < bits && Bit(a[12..], k) != Bit(b[12..], k);
      assert Bit(a, 96 + k) != Bit(b, 96 + k);
    }
  }

  /**
   * A route contains an address exactly when both are IPv4 or both are IPv6, and the first bits of the
   * two, counted in the 128-bit notation whichever way either was written, are the same.
   */
  lemma ContainsInOneNotation(p: Cidr, ip: Bytes)
    requires IsAddress(ip)
    ensures WideBits(p) <= 128
    ensures Contains(p, ip) <==>
      IsV4(p.address) == IsV4(ip) && SameBits(Wide(p.address), Wide(ip), WideBits(p))
  {
    ContainsIsPrefixMatch(p, ip);
    MappedIsLong(p);
    hide Bit, Contains;
    assert IsV4(ip) <==> |Canonical(ip)| == 4;
    assert IsV4(p.address) <==> |Network(p).address| == 4;
    if IsV4(p.address) && IsV4(ip) {
      assert Wide(p.address)[12..] == Network(p).address && Wide(ip)[12..] == Canonical(ip);
      WideShift(Wide(p.address), Wide(ip), Network(p).bits);
    }
  }

  // ------------------------------------------------------- the stable sort

  /** Behind every route that is at least as long. */
  function Insert(sorted: seq<Route>, r: Route): seq<Route> {
    if sorted == [] then [r]
    else if sorted[0].prefix.bits < r.prefix.bits then [r] + sorted
    else [sorted[0]] + Insert(sorted[1..], r)
  }

  function StableSort(routes: seq<Route>): seq<Route> {
    if routes == [] then [] else Insert(StableSort(routes[..|routes| - 1]), routes[|routes| - 1])
  }

  predicate Descending(routes: seq<Route>) {
    forall i, j :: 0 <= i < j < |routes| ==> routes[i].prefix.bits >= routes[j].prefix.bits
  }

  /** The routes of one length, in order. */
  function OfLength(routes: seq<Route>, bits: nat): seq<Route> {
    if routes == [] then []
    else
      var last := routes[|routes| - 1];
      OfLength(routes[..|routes| - 1], bits) + (if last.prefix.bits == bits then [last] else [])
  }

  lemma {:induction false} OfLengthConcat(a: seq<Route>, b: seq<Route>, bits: nat)
    ensures OfLength(a + b, bits) == OfLength(a, bits) + OfLength(b, bits)
  {
    if b == [] {
      assert a + b == a;
    } else {
      OfLengthConcat(a, b[..|b| - 1], bits);
      assert (a + b)[..|a + b| - 1] == a + b[..|b| - 1];
    }
  }

  lemma {:induction false} InsertSorts(sorted: seq<Route>, r: Route, bits: nat)
    requires Descending(sorted)
    ensures Descending(Insert(sorted, r))
    ensures |Insert(sorted, r)| == |sorted| + 1
    ensures forall m :: m in Insert(sorted, r) ==> m in sorted || m == r
    ensures OfLength(Insert(sorted, r), bits) == OfLength(sorted + [r], bits)
  {
    hide OfLength;
    if sorted == [] {
      assert sorted + [r] == [r];
    } else if sorted[0].prefix.bits < r.prefix.bits {
      OfLengthConcat([r], sorted, bits);
      OfLengthConcat(sorted, [r], bits);
      if bits == r.prefix.bits {
        NoneOfLength(sorted, bits);
      } else {
        NoneOfLength([r], bits);
      }
    } else {
      var head, tail := [sorted[0]], sorted[1..];
      InsertSorts(tail, r, bits);
      OfLengthConcat(head, Insert(tail, r), bits);
      OfLengthConcat(head, tail + [r], bits);
      assert head + (tail + [r]) == sorted + [r];
      var rest := Insert(tail, r);
      forall j | 0 <= j < |rest| ensures rest[j].prefix.bits <= sorted[0].prefix.bits {
        assert rest[j] in rest;
      }
    }
  }

  lemma {:induction false} NoneOfLength(routes: seq<Route>, bits: nat)
    requires forall r :: r in routes ==> r.prefix.bits != bits
    ensures OfLength(routes, bits) == []
  {
    if routes != [] {
      NoneOfLength(routes[..|routes| - 1], bits);
    }
  }

  lemma SortSnoc(routes: seq<Route>, r: Route)
    ensures StableSort(routes + [r]) == Insert(StableSort(routes), r)
  {
    hide Insert;
    assert (routes + [r])[..|routes|] == routes;
  }

  /** Longest first, and the routes of one length exactly as configured. */
  lemma {:induction false} SortIsStable(routes: seq<Route>, bits: nat)
    ensures Descending(StableSort(routes)) && |StableSort(routes)| == |routes|
    ensures OfLength(StableSort(routes), bits) == OfLength(routes, bits)
  {
    if routes != [] {
      hide OfLength, Descending, StableSort, Insert;
      var n := |routes| - 1;
      var init, r := routes[..n], routes[n];
      assert routes == init + [r];
      SortSnoc(init, r);
      SortIsStable(init, bits);
      InsertSorts(StableSort(init), r, bits);
      OfLengthConcat(StableSort(init), [r], bits);
      OfLengthConcat(init, [r], bits);
    }
  }

  // -------------------------------------------------------- the first match

  function FirstMatch(routes: seq<Route>, ip: Bytes): Option<Route> {
    if routes == [] then None
    else if Contains(routes[0].prefix, ip) then Some(routes[0])
    else FirstMatch(routes[1..], ip)
  }

  lemma {:induction false} FirstMatchIsMember(routes: seq<Route>, ip: Bytes)
    ensures FirstMatch(routes, ip).Some? ==> FirstMatch(routes, ip).value in routes
  {
    if routes != [] {
      FirstMatchIsMember(routes[1..], ip);
    }
  }

  /** The new route is taken exactly when nothing at least as long matches. */
  lemma {:induction false} MatchInsert(sorted: seq<Route>, r: Route, ip: Bytes)
    requires Descending(sorted)
    ensures var was := FirstMatch(sorted, ip);
            FirstMatch(Insert(sorted, r), ip) ==
              if Contains(r.prefix, ip) && (was.None? || was.value.prefix.bits < r.prefix.bits) then Some(r) else was
  {
    hide Contains;
    if sorted == [] {
      assert [r][1..] == [];
    } else if sorted[0].prefix.bits < r.prefix.bits {
      FirstMatchIsMember(sorted, ip);
      assert ([r] + sorted)[1..] == sorted;
    } else {
      MatchInsert(sorted[1..], r, ip);
      assert ([sorted[0]] + Insert(sorted[1..], r))[1..] == Insert(sorted[1..], r);
    }
  }

  /** Route `k` is a longest configured one that contains the address, and the earliest of these. */
  predicate Best(routes: seq<Route>, ip: Bytes, k: nat) {
    && k < |routes| && Contains(routes[k].prefix, ip)
    && forall j :: 0 <= j < |routes| && Contains(routes[j].prefix, ip) ==>
         routes[j].prefix.bits < routes[k].prefix.bits || (routes[j].prefix.bits == routes[k].prefix.bits && k <= j)
  }

  lemma BestSnoc(routes: seq<Route>, r: Route, ip: Bytes, k: nat)
    requires Best(routes, ip, k)
    ensures Best(routes + [r], ip,
                 if Contains(r.prefix, ip) && routes[k].prefix.bits < r.prefix.bits then |routes| else k)
  {
    hide Contains;
  }

  /** What a lookup should find: the best route, or nothing when no route matches. */
  ghost predicate Found(routes: seq<Route>, ip: Bytes, found: Option<Route>) {
    match found
    case None => forall r :: r in routes ==> !Contains(r.prefix, ip)
    case Some(route) => exists k: nat :: Best(routes, ip, k) && route == routes[k]
  }

  lemma NothingFound(routes: seq<Route>, r: Route, ip: Bytes)
    requires Found(routes, ip, None)
    ensures Found(routes + [r], ip, if Contains(r.prefix, ip) then Some(r) else None)
  {
    hide Contains;
    if Contains(r.prefix, ip) {
      forall j | 0 <= j < |routes| ensures !Contains((routes + [r])[j].prefix, ip) {
        assert routes[j] in routes;
      }
      assert Best(routes + [r], ip, |routes|);
    }
  }

  lemma BetterFound(routes: seq<Route>, r: Route, ip: Bytes, was: Route)
    requires Found(routes, ip, Some(was))
    ensures Found(routes + [r], ip, Some(if Contains(r.prefix, ip) && was.prefix.bits < r.prefix.bits then r else was))
  {
    var k: nat :| Best(routes, ip, k) && was == routes[k];
    BestSnoc(routes, r, ip, k);
    hide Contains, Best;
  }

  lemma EmptyFound(ip: Bytes)
    ensures Found([], ip, FirstMatch(StableSort([]), ip))
  {
  }

  lemma SnocFound(routes: seq<Route>, r: Route, ip: Bytes)
    requires Found(routes, ip, FirstMatch(StableSort(routes), ip))
    ensures Found(routes + [r], ip, FirstMatch(StableSort(routes + [r]), ip))
  {
    hide Contains, Found, FirstMatch, Insert, Descending, StableSort;
    SortSnoc(routes, r);
    SortIsStable(routes, 0);
    MatchInsert(StableSort(routes), r, ip);
    match FirstMatch(StableSort(routes), ip)
    case None => NothingFound(routes, r, ip);
    case Some(was) => BetterFound(routes, r, ip, was);
  }

  lemma {:induction false} FirstMatchFound(routes: seq<Route>, ip: Bytes)
    ensures Found(routes, ip, FirstMatch(StableSort(routes), ip))
  {
    hide Found, FirstMatch, StableSort;
    if routes == [] {
      EmptyFound(ip);
    } else {
      var n := |routes| - 1;
      FirstMatchFound(routes[..n], ip);
      SnocFound(routes[..n], routes[n], ip);
      assert routes == routes[..n] + [routes[n]];
    }
  }

  /** Sorting and scanning finds the best configured route, and nothing only when no route matches. */
  lemma FirstMatchIsBest(routes: seq<Route>, ip: Bytes)
    ensures FirstMatch(StableSort(routes), ip).None? <==> forall r :: r in routes ==> !Contains(r.prefix, ip)
    ensures FirstMatch(StableSort(routes), ip).Some? ==>
      exists k: nat :: Best(routes, ip, k) && FirstMatch(StableSort(routes), ip).value == routes[k]
  {
    hide FirstMatch, StableSort, Contains;
    FirstMatchFound(routes, ip);
  }

  /** Route `k` is the longest match in the sense of RFC 4632, section 5.1: by length of the network it denotes. */
  predicate LongestMatch(routes: seq<Route>, ip: Bytes, k: nat) {
    && k < |routes| && Contains(routes[k].prefix, ip)
    && forall j :: 0 <= j < |routes| && Contains(routes[j].prefix, ip) ==> !Beats(routes, j, k)
  }

  /** Route `j` denotes a longer network than route `k`, or one as long configured earlier. */
  predicate Beats(routes: seq<Route>, j: nat, k: nat)
    requires j < |routes| && k < |routes|
  {
    var a, b := Network(routes[j].prefix).bits, Network(routes[k].prefix).bits;
    a > b || (a == b && j < k)
  }

  predicate MappedMatch(routes: seq<Route>, ip: Bytes, m: nat) {
    m < |routes| && IsMapped(routes[m].prefix.address) && Contains(routes[m].prefix, ip)
  }

  predicate PlainMatch(routes: seq<Route>, ip: Bytes, j: nat) {
    j < |routes| && !IsMapped(routes[j].prefix.address) && Contains(routes[j].prefix, ip)
  }

  /**
   * Told from the configuration and the address alone: some IPv4-mapped route contains the address,
   * and a plain route that contains it denotes a better network than every mapped one that does.
   */
  ghost predicate Shadowed(routes: seq<Route>, ip: Bytes) {
    && (exists m: nat :: MappedMatch(routes, ip, m))
    && (exists j: nat ::
          PlainMatch(routes, ip, j) && forall m: nat :: MappedMatch(routes, ip, m) ==> Beats(routes, j, m))
  }

  /**
   * The route the sorted scan finds is the longest match exactly when the address is not shadowed: the
   * 96 extra bits of an IPv4-mapped route count in the sort and not in what it denotes.
   */
  lemma LongestMatchExactly(routes: seq<Route>, ip: Bytes, k: nat)
    requires Best(routes, ip, k)
    ensures LongestMatch(routes, ip, k) <==> !Shadowed(routes, ip)
  {
    hide SameMasked;
    forall j: nat | j < |routes| && Contains(routes[j].prefix, ip) && IsMapped(routes[j].prefix.address)
      ensures IsMapped(routes[k].prefix.address) && !Beats(routes, j, k)
    {
      MappedIsLong(routes[j].prefix);
      MappedIsLong(routes[k].prefix);
    }
    if IsMapped(routes[k].prefix.address) {
      assert MappedMatch(routes, ip, k);
      MappedIsLong(routes[k].prefix);
      forall j: nat | PlainMatch(routes, ip, j) && Beats(routes, j, k) ensures Shadowed(routes, ip) {
        assert forall m: nat :: MappedMatch(routes, ip, m) ==> !Beats(routes, m, k);
      }
    } else {
      assert forall m: nat :: !MappedMatch(routes, ip, m);
    }
  }

  // ------------------------------------------------------------ the packet

  /** The destination field: octets 16-19 in RFC 791, section 3.1, octets 24-39 in RFC 8200, section 3. */
  function PacketDestination(packet: Packet): (ip: Option<Bytes>)
    ensures ip.Some? <==> |packet| >= 20 && (packet[0] / 16 == 4 || (packet[0] / 16 == 6 && |packet| >= 40))
    ensures ip.Some? ==> |ip.value| == 16
    ensures ip.Some? && packet[0] / 16 == 4 ==> Canonical(ip.value) == packet[16..20]
    ensures ip.Some? && packet[0] / 16 == 6 ==> ip.value == packet[24..40]
  {
    if |packet| < 1 then None
    else if packet[0] / 16 == 4 then
      if |packet| < 20 then None else Some(MAPPED + packet[16..20])
    else if packet[0] / 16 == 6 then
      if |packet| < 40 then None else Some(packet[24..40])
    else None
  }

  function RouteOf(routes: seq<Route>, packet: Packet): Option<Route> {
    match PacketDestination(packet)
    case None => None
    case Some(ip) => FirstMatch(routes, ip)
  }

  /**
   * Longest prefix match over the configured routes: a packet goes to the peer of a best route
   * for its destination, and to nobody exactly when it has no destination or no route contains it.
   */
  lemma RoutedByLongestPrefix(configured: seq<Route>, packet: Packet)
    ensures var chosen, ip := RouteOf(StableSort(configured), packet), PacketDestination(packet);
      && (chosen.None? <==> ip.None? || forall r :: r in configured ==> !Contains(r.prefix, ip.value))
      && (chosen.Some? ==> exists k: nat :: Best(configured, ip.value, k) && chosen.value == configured[k])
      && (chosen.Some? && !Shadowed(configured, ip.value) ==>
            exists k: nat :: LongestMatch(configured, ip.value, k) && chosen.value == configured[k])
  {
    hide Contains, StableSort;
    var chosen, ip := RouteOf(StableSort(configured), packet), PacketDestination(packet);
    if ip.Some? {
      FirstMatchIsBest(configured, ip.value);
      if chosen.Some? {
        var k: nat :| Best(configured, ip.value, k) && chosen.value == configured[k];
        LongestMatchExactly(configured, ip.value, k);
      }
    }
  }

  /** Longest match names one route, so the choice is determined. */
  lemma LongestMatchUnique(routes: seq<Route>, ip: Bytes, a: nat, b: nat)
    requires LongestMatch(routes, ip, a) && LongestMatch(routes, ip, b)
    ensures a == b
  {
    assert !Beats(routes, a, b) && !Beats(routes, b, a);
  }

  /** A network whose bytes from `bits` on are zero. */
  lemma WholeBytes(p: Prefix)
    requires IsAddress(p.address) && p.bits <= 8 * |p.address| && p.bits % 8 == 0
    requires forall i :: p.bits / 8 <= i < |p.address| ==> p.address[i] == 0
    ensures WellFormed(p)
  {
    forall k | p.bits <= k < 8 * |p.address| ensures Bit(p.address, k) == 0 {
      assert p.address[k / 8] == 0;
    }
  }

  /** Written IPv4-mapped, ::ffff:0:0/96 is the default route, yet it takes 10.0.0.1 away from 10.0.0.0/8. */
  lemma MappedRouteShadows(packet: Packet)
    requires |packet| == 20 && packet[0] == 0x45 && packet[16..20] == [10, 0, 0, 1]
    ensures exists every: Cidr, ten: Cidr ::
      && every == Prefix(MAPPED + [0, 0, 0, 0], 96) && ten == Prefix([10, 0, 0, 0], 8)
      && RouteOf(StableSort([Route(ten, 0), Route(every, 1)]), packet) == Some(Route(every, 1))
      && Shadowed([Route(ten, 0), Route(every, 1)], PacketDestination(packet).value)
  {
    WholeBytes(Prefix(MAPPED + [0, 0, 0, 0], 96));
    WholeBytes(Prefix([10, 0, 0, 0], 8));
    var every: Cidr, ten: Cidr := Prefix(MAPPED + [0, 0, 0, 0], 96), Prefix([10, 0, 0, 0], 8);
    var routes, ip := [Route(ten, 0), Route(every, 1)], MAPPED + [10, 0, 0, 1];
    assert PacketDestination(packet) == Some(ip);
    assert Canonical(ip) == [10, 0, 0, 1] && Canonical(every.address) == [0, 0, 0, 0];
    assert Contains(every, ip);
    assert Contains(ten, ip);
    assert routes[..1] == [Route(ten, 0)] && ([Route(ten, 0)])[..0] == [];
    assert StableSort([Route(ten, 0)]) == [Route(ten, 0)];
    assert StableSort(routes) == [Route(every, 1), Route(ten, 0)];
    assert Beats(routes, 0, 1);
    assert RouteOf(StableSort(routes), packet) == Some(Route(every, 1));
    assert MappedMatch(routes, ip, 1) && PlainMatch(routes, ip, 0);
    assert Shadowed(routes, ip);
  }

  // -------------------------------------------------------------- the table

  predicate AllCidr(routes: seq<Option<Cidr>>) {
    forall j :: 0 <= j < |routes| ==> routes[j].Some?
  }

  predicate AllParse(peers: seq<Peer>) {
    forall i :: 0 <= i < |peers| ==> AllCidr(peers[i].routes)
  }

  function PeerRoutes(peer: nat, routes: seq<Option<Cidr>>): seq<Route>
    requires AllCidr(routes)
  {
    seq(|routes|, j requires 0 <= j < |routes| => Route(routes[j].value, peer))
  }

  /** Every peer's routes, in configuration order. */
  function Configured(peers: seq<Peer>): seq<Route>
    requires AllParse(peers)
  {
    if peers == [] then []
    else
      var last := |peers| - 1;
      Configured(peers[..last]) + PeerRoutes(last, peers[last].routes)
  }

  /** How many routes the peers before number `i` configure. */
  function RoutesBefore(peers: seq<Peer>, i: nat): nat
    requires i <= |peers|
  {
    if i == 0 then 0 else RoutesBefore(peers, i - 1) + |peers[i - 1].routes|
  }

  lemma {:induction false} BeforePrefix(peers: seq<Peer>, n: nat, i: nat)
    requires i <= n <= |peers|
    ensures RoutesBefore(peers[..n], i) == RoutesBefore(peers, i)
  {
    if i > 0 {
      BeforePrefix(peers, n, i - 1);
    }
  }

  lemma {:induction false} ConfiguredSize(peers: seq<Peer>)
    requires AllParse(peers)
    ensures |Configured(peers)| == RoutesBefore(peers, |peers|)
  {
    if peers != [] {
      ConfiguredSize(peers[..|peers| - 1]);
      BeforePrefix(peers, |peers| - 1, |peers| - 1);
    }
  }

  /** Route `j` of peer `i`, with that peer, stands behind all routes of the peers before it. */
  lemma {:induction false} ConfiguredAt(peers: seq<Peer>, i: nat, j: nat)
    requires AllParse(peers) && i < |peers| && j < |peers[i].routes|
    ensures RoutesBefore(peers, i) + j < |Configured(peers)|
    ensures Configured(peers)[RoutesBefore(peers, i) + j] == Route(peers[i].routes[j].value, i)
  {
    var last := |peers| - 1;
    var init := peers[..last];
    BeforePrefix(peers, last, i);
    ConfiguredSize(init);
    if i < last {
      ConfiguredAt(init, i, j);
    }
  }

  /** Every configured route is one of some peer. */
  lemma {:induction false} ConfiguredFrom(peers: seq<Peer>, k: nat) returns (i: nat, j: nat)
    requires AllParse(peers) && k < RoutesBefore(peers, |peers|)
    ensures i < |peers| && j < |peers[i].routes| && k == RoutesBefore(peers, i) + j
  {
    var last := |peers| - 1;
    BeforePrefix(peers, last, last);
    if k < RoutesBefore(peers, last) {
      i, j := ConfiguredFrom(peers[..last], k);
      BeforePrefix(peers, last, i);
    } else {
      i, j := last, k - RoutesBefore(peers, last);
    }
  }

  lemma {:induction false} BeforeGrows(peers: seq<Peer>, a: nat, b: nat)
    requires a < b <= |peers|
    ensures RoutesBefore(peers, a) + |peers[a].routes| <= RoutesBefore(peers, b)
  {
    if a + 1 < b {
      BeforeGrows(peers, a, b - 1);
    }
  }

  predicate HasRoute(peers: seq<Peer>, i: nat, j: nat) {
    i < |peers| && j < |peers[i].routes| && peers[i].routes[j].Some?
  }

  /** Route `j` of peer `i` is a longest one that contains the address, and the first of these as configured. */
  ghost predicate BestOf(peers: seq<Peer>, ip: Bytes, i: nat, j: nat) {
    && HasRoute(peers, i, j) && Contains(peers[i].routes[j].value, ip)
    && forall x: nat, y: nat :: HasRoute(peers, x, y) && Contains(peers[x].routes[y].value, ip) ==>
         var mine, other := peers[i].routes[j].value.bits, peers[x].routes[y].value.bits;
         other < mine || (other == mine && (i < x || (i == x && j <= y)))
  }

  ghost predicate NoneContains(peers: seq<Peer>, ip: Bytes) {
    forall i: nat, j: nat :: HasRoute(peers, i, j) ==> !Contains(peers[i].routes[j].value, ip)
  }

  /**
   * From the configuration to the answer: a packet goes to the peer that configured the longest route
   * containing its destination, the first one on ties, and to nobody exactly when there is none.
   */
  lemma RoutedToItsPeer(peers: seq<Peer>, packet: Packet)
    requires AllParse(peers)
    ensures var chosen, ip := RouteOf(StableSort(Configured(peers)), packet), PacketDestination(packet);
      && (chosen.None? <==> ip.None? || NoneContains(peers, ip.value))
      && (chosen.Some? ==> exists j: nat :: BestOf(peers, ip.value, chosen.value.peer, j))
  {
    hide Contains, StableSort, Shadowed, LongestMatch, PeerRoutes, Configured;
    var configured := Configured(peers);
    RoutedByLongestPrefix(configured, packet);
    ConfiguredSize(peers);
    var chosen, ip := RouteOf(StableSort(configured), packet), PacketDestination(packet);
    if chosen.Some? {
      var k: nat :| Best(configured, ip.value, k) && chosen.value == configured[k];
      BestPeer(peers, ip.value, k);
    } else if ip.Some? {
      forall i: nat, j: nat | HasRoute(peers, i, j) ensures !Contains(peers[i].routes[j].value, ip.value) {
        ConfiguredAt(peers, i, j);
        assert configured[RoutesBefore(peers, i) + j] in configured;
      }
    }
    if ip.Some? && NoneContains(peers, ip.value) {
      forall r | r in configured ensures !Contains(r.prefix, ip.value) {
        var k :| 0 <= k < |configured| && configured[k] == r;
        var i, j := ConfiguredFrom(peers, k);
        ConfiguredAt(peers, i, j);
        assert HasRoute(peers, i, j);
      }
    }
  }

  lemma BestPeer(peers: seq<Peer>, ip: Bytes, k: nat)
    requires AllParse(peers) && Best(Configured(peers), ip, k)
    ensures exists j: nat :: BestOf(peers, ip, Configured(peers)[k].peer, j)
  {
    hide Contains, Configured;
    var configured := Configured(peers);
    ConfiguredSize(peers);
    var i, j := ConfiguredFrom(peers, k);
    ConfiguredAt(peers, i, j);
    forall x: nat, y: nat | HasRoute(peers, x, y) && Contains(peers[x].routes[y].value, ip)
      ensures var mine, other := peers[i].routes[j].value.bits, peers[x].routes[y].value.bits;
              other < mine || (other == mine && (i < x || (i == x && j <= y)))
    {
      var at := RoutesBefore(peers, x) + y;
      ConfiguredAt(peers, x, y);
      if x < i {
        BeforeGrows(peers, x, i);
      }
    }
    assert BestOf(peers, ip, i, j);
  }

  /** The first route text that is no CIDR. */
  predicate FirstBad(peers: seq<Peer>, i: nat, j: nat) {
    && i < |peers| && j < |peers[i].routes| && peers[i].routes[j].None?
    && AllParse(peers[..i]) && AllCidr(peers[i].routes[..j])
  }

  datatype Built = Built(table: Table) | BadRoute(peer: nat, route: nat)

  class Table {
    var routes: seq<Route>

    constructor ()
      ensures routes == []
    {
      routes := [];
    }

    method Lookup(packet: Packet) returns (peer: Option<nat>)
      ensures peer == match RouteOf(routes, packet)
                      case None => None
                      case Some(r) => Some(r.peer)
    {
      var ip := PacketDestination(packet);
      if ip.None? {
        return None;
      }
      for i := 0 to |routes|
        invariant FirstMatch(routes, ip.value) == FirstMatch(routes[i..], ip.value)
      {
        if Contains(routes[i].prefix, ip.value) {
          return Some(routes[i].peer);
        }
      }
      return None;
    }
  }

  /** Parses the routes peer by peer, stopping at the first bad one, then sorts them. */
  method NewRouteTable(peers: seq<Peer>) returns (built: Built)
    ensures built.BadRoute? ==> FirstBad(peers, built.peer, built.route)
    ensures built.Built? ==>
      AllParse(peers) && fresh(built.table) && built.table.routes == StableSort(Configured(peers))
  {
    hide StableSort;
    var t := new Table();
    for i := 0 to |peers|
      invariant AllParse(peers[..i])
      invariant fresh(t) && t.routes == Configured(peers[..i])
    {
      ghost var before := t.routes;
      var routes := peers[i].routes;
      for j := 0 to |routes|
        invariant AllCidr(routes[..j])
        invariant fresh(t) && t.routes == before + PeerRoutes(i, routes[..j])
      {
        if routes[j].None? {
          return BadRoute(i, j);
        }
        t.routes := t.routes + [Route(routes[j].value, i)];
        assert routes[..j + 1] == routes[..j] + [routes[j]];
        assert PeerRoutes(i, routes[..j + 1]) == PeerRoutes(i, routes[..j]) + [Route(routes[j].value, i)];
      }
      assert routes[..|routes|] == routes;
      assert peers[..i + 1][..i] == peers[..i];
    }
    assert peers[..|peers|] == peers;
    t.routes := StableSort(t.routes);
    return Built(t);
  }
}
