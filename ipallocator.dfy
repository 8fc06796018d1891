// The IP allocator of the lazy runtime's network setup. Each registered
// network has a pool: the set of allocated addresses, the usable range
// [begin, end] (the network's range without its first and last address)
// and the last address handed out, from which the next search starts.
//
// Addresses are byte strings (net.IP, the empty string standing for nil)
// when a network's range is computed, with net.IP's To4/To16 forms and its
// Mask, and integers (their value as ipToBigInt gives it) everywhere else;
// a pool's set is keyed by that integer rather than by the address text,
// and a network by its IPNet value rather than by its text. Where the
// source panics (a mask shorter than the address, a nil address given to
// big.Int arithmetic) the model returns an error carrying the runtime's
// message, and nothing is registered.

module IpAllocator {
  import opened Common

  const ErrNoAvailableIPs: string := "no available ip addresses on network"
  const ErrIPAlreadyAllocated: string := "ip already allocated"
  const ErrIPOutOfRange: string := "requested ip is out of range"
  const ErrNetworkAlreadyRegistered: string := "network already registered"
  const ErrBadSubnet: string := "network does not contain specified subnet"

  /** The runtime's message when NetworkRange indexes past the end of the mask. */
  const PanicIndex: string := "runtime error: index out of range"
  /** The runtime's message when big.Int arithmetic is given ipToBigInt's nil. */
  const PanicNil: string := "runtime error: invalid memory address or nil pointer dereference"

  /** A network as net.IPNet holds it: an address and a mask, each of any length. */
  datatype IPNet = IPNet(ip: seq<bv8>, mask: seq<bv8>)

  /** The first 12 bytes of an IPv4-mapped IPv6 address. */
  const V4InV6Prefix: seq<bv8> := [0, 0, 0, 0, 0, 0, 0, 0, 0, 0, 0xff, 0xff]

  predicate AllFF(s: seq<bv8>)
  {
    forall i :: 0 <= i < |s| ==> s[i] == 0xff
  }

  // -----------------------------------------------------------------------
  // Address forms (net.IP.To4, net.IP.To16) and ipToBigInt
  // -----------------------------------------------------------------------

  /** net.IP.To4: a 4-byte address, or the last 4 bytes of an IPv4-mapped one; nil otherwise. */
  function To4(ip: seq<bv8>): seq<bv8>
  {
    if |ip| == 4 then ip
    else if |ip| == 16 && ip[..12] == V4InV6Prefix then ip[12..]
    else []
  }

  /** net.IP.To16: a 16-byte address, or a 4-byte one behind the IPv4-mapped prefix; nil otherwise. */
  function To16(ip: seq<bv8>): seq<bv8>
  {
    if |ip| == 4 then V4InV6Prefix + ip
    else if |ip| == 16 then ip
    else []
  }

  /** NetworkRange's form of the network address: the To4 form when there is one, else the To16 form. */
  function NetIP(ip: seq<bv8>): seq<bv8>
  {
    if To4(ip) != [] then To4(ip) else To16(ip)
  }

  /**
   * The form chosen is the same address: it is nil exactly for a length
   * other than 4 and 16, an IPv4 address (4 bytes or IPv4-mapped) becomes
   * its 4 bytes, any other 16-byte address stays as it is.
   */
  lemma NetIPSameAddress(ip: seq<bv8>)
    ensures NetIP(ip) == [] <==> |ip| != 4 && |ip| != 16
    ensures NetIP(ip) != [] ==> To16(NetIP(ip)) == To16(ip)
    ensures |NetIP(ip)| == 4 <==> |ip| == 4 || (|ip| == 16 && ip[..12] == V4InV6Prefix)
  {
    if |ip| == 16 && ip[..12] == V4InV6Prefix {
      assert V4InV6Prefix + ip[12..] == ip[..12] + ip[12..] == ip;
    }
  }

  /** The big-endian value of a byte string. */
  function Value(bs: seq<bv8>): nat
  {
    if bs == [] then 0 else Value(bs[..|bs| - 1]) * 256 + bs[|bs| - 1] as int
  }

  /** ipToBigInt: the value of the To4 form when there is one, else of the To16 form; nil (None) otherwise. */
  function IpToBigInt(ip: seq<bv8>): (r: Option<nat>)
    ensures r.Some? <==> |ip| == 4 || |ip| == 16
  {
    if To4(ip) != [] then Some(Value(To4(ip)))
    else if To16(ip) != [] then Some(Value(To16(ip)))
    else None
  }

  /** An IPv4-mapped address has the value of its 4-byte form; any other 16-byte address its own value. */
  lemma MappedSameValue(a: seq<bv8>)
    requires |a| == 4
    ensures IpToBigInt(V4InV6Prefix + a) == IpToBigInt(a) == Some(Value(a))
  {
    var ip := V4InV6Prefix + a;
    assert ip[..12] == V4InV6Prefix && ip[12..] == a;
  }

  // -----------------------------------------------------------------------
  // NetworkRange: CIDR masking, section 3.1 of RFC 4632
  // -----------------------------------------------------------------------

  /**
   * net.IP.Mask, which gives NetworkRange's first address: the address with
   * the host bits cleared. A 16-byte mask whose first 12 bytes are all ones
   * applies to a 4-byte address by its last 4 bytes, a 4-byte mask to an
   * IPv4-mapped address by that address's last 4 bytes; any other pair of
   * lengths that differ gives nil.
   */
  function Masked(a: seq<bv8>, mask: seq<bv8>): (r: seq<bv8>)
    ensures |a| == |mask| ==> |r| == |a| && forall i :: 0 <= i < |r| ==> r[i] == a[i] & mask[i]
    ensures |a| == 4 && |mask| == 16 && AllFF(mask[..12]) ==>
      |r| == 4 && forall i :: 0 <= i < 4 ==> r[i] == a[i] & mask[12 + i]
    ensures |a| == 16 && |mask| == 4 && a[..12] == V4InV6Prefix ==>
      |r| == 4 && forall i :: 0 <= i < 4 ==> r[i] == a[12 + i] & mask[i]
    ensures (|a| != |mask| && !(|a| == 4 && |mask| == 16 && AllFF(mask[..12]))
      && !(|a| == 16 && |mask| == 4 && a[..12] == V4InV6Prefix)) ==> r == []
  {
    var m := if |mask| == 16 && |a| == 4 && AllFF(mask[..12]) then mask[12..] else mask;
    var b := if |m| == 4 && |a| == 16 && a[..12] == V4InV6Prefix then a[12..] else a;
    if |b| != |m| then [] else seq(|b|, i requires 0 <= i < |b| => b[i] & m[i])
  }

  /**
   * NetworkRange's loop, which gives the last address: each byte of the
   * address with the host bits of the mask's byte at the same position set;
   * a mask shorter than the address is indexed past its end.
   */
  function LastAddr(a: seq<bv8>, mask: seq<bv8>): (r: Result<seq<bv8>>)
    ensures r.Err? <==> |mask| < |a|
    ensures r.Err? ==> r.msg == PanicIndex
    ensures r.Ok? ==> |r.value| == |a| && forall i :: 0 <= i < |a| ==> r.value[i] == a[i] | !mask[i]
  {
    if |mask| < |a| then Err(PanicIndex)
    else Ok(seq(|a|, i requires 0 <= i < |a| => a[i] | !mask[i]))
  }

  /** A network's first and last address; nil and nil for an address that is neither 4 nor 16 bytes. */
  datatype Range = Range(first: seq<bv8>, last: seq<bv8>)

  function RangeOf(n: IPNet): Result<Range>
  {
    var a := NetIP(n.ip);
    if a == [] then Ok(Range([], []))
    else
      match LastAddr(a, n.mask)
      case Err(e) => Err(e)
      case Ok(l) => Ok(Range(Masked(a, n.mask), l))
  }

  /** NetworkRange: the address form, then the last address byte by byte, then the first one by masking. */
  method NetworkRange(n: IPNet) returns (r: Result<Range>)
    ensures r == RangeOf(n)
  {
    var netIP: seq<bv8>;
    if To4(n.ip) != [] {
      netIP := To4(n.ip);
    } else if To16(n.ip) != [] {
      netIP := To16(n.ip);
    } else {
      return Ok(Range([], []));
    }
    var lastIP := [];
    var i := 0;
    while i < |netIP|
      invariant 0 <= i <= |netIP| && i <= |n.mask|
      invariant |lastIP| == i && forall j :: 0 <= j < i ==> lastIP[j] == netIP[j] | !n.mask[j]
    {
      if i >= |n.mask| {
        return Err(PanicIndex);
      }
      lastIP := lastIP + [netIP[i] | !n.mask[i]];
      i := i + 1;
    }
    assert netIP == NetIP(n.ip) && lastIP == LastAddr(netIP, n.mask).value;
    return Ok(Range(Masked(netIP, n.mask), lastIP));
  }

  /**
   * A network whose mask has its address's length, and whose 16-byte
   * address is not IPv4-mapped: the first address is the address with the
   * host bits cleared and the last one the address with them set.
   */
  lemma SameLengthRange(n: IPNet)
    requires |n.mask| == |n.ip| && (|n.ip| == 4 || (|n.ip| == 16 && n.ip[..12] != V4InV6Prefix))
    ensures RangeOf(n).Ok?
    ensures var rg := RangeOf(n).value;
      && |rg.first| == |rg.last| == |n.ip|
      && forall i :: 0 <= i < |n.ip| ==> rg.first[i] == n.ip[i] & n.mask[i] && rg.last[i] == n.ip[i] | !n.mask[i]
  {
  }

  lemma {:induction false} ValueMonotone(a: seq<bv8>, b: seq<bv8>)
    requires |a| == |b| && forall i :: 0 <= i < |a| ==> a[i] as int <= b[i] as int
    ensures Value(a) <= Value(b)
  {
    if a != [] {
      ValueMonotone(a[..|a| - 1], b[..|b| - 1]);
    }
  }

  lemma ByteBounds(x: bv8, m: bv8, lo: bv8, hi: bv8)
    requires lo == x & m && hi == x | !m
    ensures lo as int <= x as int <= hi as int
  {
  }

  /** Clearing bits byte by byte gives a value at or below the original's. */
  lemma AndBelow(a: seq<bv8>, m: seq<bv8>, f: seq<bv8>)
    requires |f| == |a| == |m| && forall i :: 0 <= i < |a| ==> f[i] == a[i] & m[i]
    ensures Value(f) <= Value(a)
  {
    forall i | 0 <= i < |a|
      ensures f[i] as int <= a[i] as int
    {
      ByteBounds(a[i], m[i], f[i], a[i] | !m[i]);
    }
    ValueMonotone(f, a);
  }

  /** A first address that is not nil has the address's length and lies at or below it. */
  lemma MaskedBelow(a: seq<bv8>, mask: seq<bv8>)
    requires |a| <= |mask| && (|a| == 4 || |a| == 16) && Masked(a, mask) != []
    ensures |Masked(a, mask)| == |a| && Value(Masked(a, mask)) <= Value(a)
  {
    var f := Masked(a, mask);
    if |a| == |mask| {
      AndBelow(a, mask, f);
    } else {
      var m := mask[12..];
      assert |f| == 4 && forall i :: 0 <= i < 4 ==> f[i] == a[i] & m[i];
      AndBelow(a, m, f);
    }
  }

  /** The last address lies at or above the address. */
  lemma LastAbove(a: seq<bv8>, mask: seq<bv8>)
    requires |a| <= |mask|
    ensures Value(a) <= Value(LastAddr(a, mask).value)
  {
    var l := LastAddr(a, mask).value;
    forall i | 0 <= i < |a|
      ensures a[i] as int <= l[i] as int
    {
      ByteBounds(a[i], mask[i], a[i] & mask[i], l[i]);
    }
    ValueMonotone(a, l);
  }

  /**
   * Whenever NetworkRange gives a first address, it, the address form and
   * the last address have one length, and the address form lies between
   * the two.
   */
  lemma RangeContainsAddress(n: IPNet)
    ensures RangeOf(n).Ok? && RangeOf(n).value.first != [] ==>
      var a, rg := NetIP(n.ip), RangeOf(n).value;
      |rg.first| == |a| == |rg.last| && Value(rg.first) <= Value(a) <= Value(rg.last)
  {
    var a := NetIP(n.ip);
    if RangeOf(n).Ok? && RangeOf(n).value.first != [] {
      NetIPSameAddress(n.ip);
      MaskedBelow(a, n.mask);
      LastAbove(a, n.mask);
    }
  }

  // -----------------------------------------------------------------------
  // Pools
  // -----------------------------------------------------------------------

  /** An allocatedMap's state. */
  datatype Pool = Pool(p: set<int>, last: int, begin: int, end: int)

  /** Allocated addresses lie in the range; `last` is in the range or just before it. */
  predicate PoolValid(pl: Pool)
  {
    (pl.last == pl.begin - 1 || pl.begin <= pl.last <= pl.end)
    && forall x :: x in pl.p ==> pl.begin <= x <= pl.end
  }

  /**
   * The usable range newAllocatedMap and RegisterSubnet compute: one past
   * the first address's value to one before the last address's. A nil
   * address makes big.Int's Add or Sub panic.
   */
  function UsableRange(n: IPNet): (r: Result<(int, int)>)
    ensures RangeOf(n).Err? ==> r == Err(PanicIndex)
    ensures RangeOf(n).Ok? ==>
      var rg := RangeOf(n).value;
      match (IpToBigInt(rg.first), IpToBigInt(rg.last))
      case (Some(f), Some(l)) => r == Ok((f + 1, l - 1))
      case _ => r == Err(PanicNil)
  {
    match RangeOf(n)
    case Err(e) => Err(e)
    case Ok(rg) =>
      if IpToBigInt(rg.first).None? || IpToBigInt(rg.last).None? then Err(PanicNil)
      else Ok((IpToBigInt(rg.first).value + 1, IpToBigInt(rg.last).value - 1))
  }

  /** newAllocatedMap: nothing allocated, the usable range, `last` just before it; or the panic computing the range. */
  function NewPool(n: IPNet): (r: Result<Pool>)
    ensures r.Ok? <==> UsableRange(n).Ok?
    ensures r.Err? ==> r.msg == UsableRange(n).msg
    ensures r.Ok? ==> PoolValid(r.value) && r.value.p == {} && r.value.last == r.value.begin - 1
    ensures r.Ok? ==> (r.value.begin, r.value.end) == UsableRange(n).value
  {
    match UsableRange(n)
    case Err(e) => Err(e)
    case Ok((begin, end)) => Ok(Pool({}, begin - 1, begin, end))
  }

  /** NewPool fails exactly for an address that is neither 4 nor 16 bytes, a mask shorter than the address form, or a mask Masked cannot apply. */
  lemma NewPoolFails(n: IPNet)
    ensures NewPool(n).Err? <==>
      NetIP(n.ip) == [] || |n.mask| < |NetIP(n.ip)| || Masked(NetIP(n.ip), n.mask) == []
    ensures NewPool(n).Err? ==>
      NewPool(n).msg == (if NetIP(n.ip) != [] && |n.mask| < |NetIP(n.ip)| then PanicIndex else PanicNil)
  {
    NetIPSameAddress(n.ip);
  }

  /** To4 normalisation: an IPv4-mapped address has the range and the pool of its 4-byte form, whatever the mask. */
  lemma MappedAddressSameRange(a: seq<bv8>, mask: seq<bv8>)
    requires |a| == 4
    ensures RangeOf(IPNet(V4InV6Prefix + a, mask)) == RangeOf(IPNet(a, mask))
    ensures NewPool(IPNet(V4InV6Prefix + a, mask)) == NewPool(IPNet(a, mask))
  {
    var ip := V4InV6Prefix + a;
    assert ip[..12] == V4InV6Prefix && ip[12..] == a;
  }

  /**
   * An IPv4 address with a 16-byte mask whose first 12 bytes are all ones
   * (an IPv4-mapped prefix such as ::ffff:10.0.0.0/120): the last address
   * comes from the mask's first 4 bytes, all ones, so it is the address
   * itself; the range ends just before it, and a network given by its own
   * first address hands out nothing.
   */
  lemma WideMaskEndsAtAddress(ip: seq<bv8>, mask: seq<bv8>)
    requires |mask| == 16 && AllFF(mask[..12])
    requires |ip| == 4 || (|ip| == 16 && ip[..12] == V4InV6Prefix)
    ensures var a := To4(ip);
      && NewPool(IPNet(ip, mask)).Ok?
      && NewPool(IPNet(ip, mask)).value.end == Value(a) - 1
      && (Masked(a, mask) == a ==> NextIP(NewPool(IPNet(ip, mask)).value).0 == Err(ErrNoAvailableIPs))
  {
    var a := To4(ip);
    NetIPSameAddress(ip);
    WideMaskLastIsAddress(a, mask);
    var f := Masked(a, mask);
    assert RangeOf(IPNet(ip, mask)) == Ok(Range(f, a));
  }

  lemma WideMaskLastIsAddress(a: seq<bv8>, mask: seq<bv8>)
    requires |a| == 4 && |mask| == 16 && AllFF(mask[..12])
    ensures LastAddr(a, mask) == Ok(a) && |Masked(a, mask)| == 4
  {
    var l := LastAddr(a, mask).value;
    forall i | 0 <= i < 4
      ensures l[i] == a[i]
    {
      assert mask[..12][i] == 0xff;
    }
    assert l == a;
  }


  /** The address after `pos`, wrapping from the end of the range to its beginning. */
  function Succ(pl: Pool, pos: int): int
  {
    if pos + 1 > pl.end then pl.begin else pos + 1
  }

  /** The address reached after k steps from `pos`. */
  function Probe(pl: Pool, pos: int, k: nat): int
  {
    if k == 0 then pos else Succ(pl, Probe(pl, pos, k - 1))
  }

  /** The size of the range (0 when it is empty). */
  function RangeSize(pl: Pool): nat
  {
    if pl.end - pl.begin + 1 >= 0 then pl.end - pl.begin + 1 else 0
  }

  /** getNextIP's search: at most `fuel` steps from `pos`, the first address not allocated. */
  function NextFreeFrom(pl: Pool, pos: int, fuel: nat): Option<int>
    decreases fuel
  {
    if fuel == 0 then None
    else
      var q := Succ(pl, pos);
      if q in pl.p then NextFreeFrom(pl, q, fuel - 1) else Some(q)
  }

  /** getNextIP: the search from `last` over the whole range; the address found is allocated and becomes `last`. */
  function NextIP(pl: Pool): (Result<int>, Pool)
  {
    match NextFreeFrom(pl, pl.last, RangeSize(pl))
    case None => (Err(ErrNoAvailableIPs), pl)
    case Some(x) => (Ok(x), pl.(p := pl.p + {x}, last := x))
  }

  /** checkIP: an allocated address is refused first, then one outside the range; otherwise it is recorded. */
  function Check(pl: Pool, ip: int): (r: (Result<int>, Pool))
    ensures ip in pl.p ==> r == (Err(ErrIPAlreadyAllocated), pl)
    ensures ip !in pl.p && (ip < pl.begin || ip > pl.end) ==> r == (Err(ErrIPOutOfRange), pl)
    ensures ip !in pl.p && pl.begin <= ip <= pl.end ==> r == (Ok(ip), pl.(p := pl.p + {ip}))
  {
    if ip in pl.p then (Err(ErrIPAlreadyAllocated), pl)
    else if ip < pl.begin || ip > pl.end then (Err(ErrIPOutOfRange), pl)
    else (Ok(ip), pl.(p := pl.p + {ip}))
  }

  /** ReleaseIP on a known network: only that address leaves the set. */
  function Release(pl: Pool, ip: int): (r: Pool)
    ensures r.p == pl.p - {ip} && r.last == pl.last && r.begin == pl.begin && r.end == pl.end
  {
    pl.(p := pl.p - {ip})
  }

  // -----------------------------------------------------------------------
  // Properties of the search
  // -----------------------------------------------------------------------

  lemma {:induction false} ProbeUp(pl: Pool, pos: int, j: nat)
    requires pos <= pl.end && j <= pl.end - pos
    ensures Probe(pl, pos, j) == pos + j
  {
    if j > 0 {
      ProbeUp(pl, pos, j - 1);
    }
  }

  lemma {:induction false} ProbeWrap(pl: Pool, pos: int, j: nat)
    requires pl.begin - 1 <= pos <= pl.end
    requires pl.end - pos < j <= RangeSize(pl)
    ensures Probe(pl, pos, j) == pl.begin + (j - (pl.end - pos) - 1)
  {
    if j == pl.end - pos + 1 {
      ProbeUp(pl, pos, j - 1);
    } else {
      ProbeWrap(pl, pos, j - 1);
    }
  }

  /** From a valid `last`, the probes 1..RangeSize visit every address of the range. */
  lemma ProbesCover(pl: Pool, y: int) returns (j: nat)
    requires PoolValid(pl) && pl.begin <= y <= pl.end
    ensures 1 <= j <= RangeSize(pl) && Probe(pl, pl.last, j) == y
  {
    if y > pl.last {
      j := y - pl.last;
      ProbeUp(pl, pl.last, j);
    } else {
      j := (pl.end - pl.last) + (y - pl.begin + 1);
      ProbeWrap(pl, pl.last, j);
    }
  }

  /** A probe from a position in or just before the range stays in the range. */
  lemma SuccInRange(pl: Pool, pos: int)
    requires pl.begin <= pl.end && pl.begin - 1 <= pos <= pl.end
    ensures pl.begin <= Succ(pl, pos) <= pl.end
  {
  }

  /**
   * What the search finds: a free address in the range, reached after k
   * steps, every address passed on the way being allocated; when it finds
   * nothing, every address it probed is allocated.
   */
  lemma {:induction false} NextFreeFromFacts(pl: Pool, pos: int, fuel: nat) returns (k: nat)
    requires fuel > 0 ==> pl.begin <= pl.end && pl.begin - 1 <= pos <= pl.end
    ensures NextFreeFrom(pl, pos, fuel).Some? ==>
      var x := NextFreeFrom(pl, pos, fuel).value;
      && pl.begin <= x <= pl.end && x !in pl.p
      && 1 <= k <= fuel && Probe(pl, pos, k) == x
      && forall j :: 1 <= j < k ==> Probe(pl, pos, j) in pl.p
    ensures NextFreeFrom(pl, pos, fuel).None? ==> forall j :: 1 <= j <= fuel ==> Probe(pl, pos, j) in pl.p
    decreases fuel
  {
    if fuel == 0 {
      k := 0;
    } else {
      var q := Succ(pl, pos);
      SuccInRange(pl, pos);
      if q in pl.p {
        var k' := NextFreeFromFacts(pl, q, fuel - 1);
        k := k' + 1;
        ProbeShift(pl, pos, fuel);
      } else {
        k := 1;
      }
    }
  }

  /** Probing k+1 steps from pos is probing k steps from the address after pos. */
  lemma {:induction false} ProbeAfter(pl: Pool, pos: int, k: nat)
    ensures Probe(pl, pos, k + 1) == Probe(pl, Succ(pl, pos), k)
  {
    if k > 0 {
      ProbeAfter(pl, pos, k - 1);
    }
  }

  lemma ProbeShift(pl: Pool, pos: int, fuel: nat)
    ensures forall j :: 1 <= j <= fuel ==> Probe(pl, pos, j) == Probe(pl, Succ(pl, pos), j - 1)
  {
    forall j | 1 <= j <= fuel
      ensures Probe(pl, pos, j) == Probe(pl, Succ(pl, pos), j - 1)
    {
      ProbeAfter(pl, pos, j - 1);
    }
  }

  /**
   * getNextIP hands out an address of the range that was free, records it
   * and makes it `last`, and keeps the pool valid.
   */
  lemma NextIPFresh(pl: Pool)
    requires PoolValid(pl)
    ensures var (r, pl') := NextIP(pl);
            && PoolValid(pl')
            && (r.Ok? ==> pl.begin <= r.value <= pl.end && r.value !in pl.p
                          && pl'.p == pl.p + {r.value} && pl'.last == r.value
                          && pl'.begin == pl.begin && pl'.end == pl.end)
            && (r.Err? ==> r.msg == ErrNoAvailableIPs && pl' == pl)
  {
    var _ := NextFreeFromFacts(pl, pl.last, RangeSize(pl));
  }

  /** The address found is the first free one after `last`, going round the range. */
  lemma NextIPFirstFree(pl: Pool) returns (k: nat)
    requires PoolValid(pl)
    requires NextIP(pl).0.Ok?
    ensures 1 <= k <= RangeSize(pl) && Probe(pl, pl.last, k) == NextIP(pl).0.value
    ensures forall j :: 1 <= j < k ==> Probe(pl, pl.last, j) in pl.p
  {
    k := NextFreeFromFacts(pl, pl.last, RangeSize(pl));
  }

  /** getNextIP fails exactly when every address of the range is allocated. */
  lemma NextIPExhausted(pl: Pool)
    requires PoolValid(pl)
    ensures NextIP(pl).0.Err? <==> forall y :: pl.begin <= y <= pl.end ==> y in pl.p
  {
    var _ := NextFreeFromFacts(pl, pl.last, RangeSize(pl));
    if NextIP(pl).0.Err? {
      forall y | pl.begin <= y <= pl.end
        ensures y in pl.p
      {
        var j := ProbesCover(pl, y);
      }
    }
  }

  /** The first automatic allocation on a fresh network is the beginning of its range. */
  lemma FirstAllocationIsBegin(n: IPNet)
    requires NewPool(n).Ok? && NewPool(n).value.begin <= NewPool(n).value.end
    ensures NextIP(NewPool(n).value).0 == Ok(NewPool(n).value.begin)
  {
  }

  /** Releasing an address that checkIP has just recorded gives the pool back as it was. */
  lemma ReleaseUndoesCheck(pl: Pool, ip: int)
    requires Check(pl, ip).0.Ok?
    ensures Release(Check(pl, ip).1, ip) == pl
  {
    assert Check(pl, ip).1.p - {ip} == pl.p;
  }

  /** A released address of the range can be requested again. */
  lemma ReleasedIsAvailable(pl: Pool, ip: int)
    requires pl.begin <= ip <= pl.end
    ensures Check(Release(pl, ip), ip).0 == Ok(ip)
  {
  }

  /** checkIP keeps the pool valid. */
  lemma CheckKeepsValid(pl: Pool, ip: int)
    requires PoolValid(pl)
    ensures PoolValid(Check(pl, ip).1)
  {
  }

  /** RequestIP on a network's pool: the next free address, or the given one checked. */
  function Request(pl: Pool, ip: Option<int>): (Result<int>, Pool)
  {
    if ip.None? then NextIP(pl) else Check(pl, ip.value)
  }

  /** A registered network's pool, or a fresh pool over the network's whole range. */
  function PoolOrNew(pools: map<IPNet, Pool>, network: IPNet): Result<Pool>
  {
    if network in pools then Ok(pools[network]) else NewPool(network)
  }

  /**
   * RegisterSubnet's decision: the network's pool is made first (its panic
   * comes first), then the subnet's usable range (its panic next); that
   * range must lie in the network's usable range and hold more than one
   * address, and the pool then starts just before it.
   */
  function SubnetPool(network: IPNet, subnet: IPNet): (r: Result<Pool>)
    ensures r.Ok? ==> PoolValid(r.value) && r.value.p == {} && r.value.last == r.value.begin - 1
    ensures NewPool(network).Err? ==> r == Err(NewPool(network).msg)
    ensures NewPool(network).Ok? && UsableRange(subnet).Err? ==> r == Err(UsableRange(subnet).msg)
    ensures NewPool(network).Ok? && UsableRange(subnet).Ok? ==>
      var n, (begin, end) := NewPool(network).value, UsableRange(subnet).value;
      if begin >= n.begin && end <= n.end && begin < end
      then r.Ok? && r.value.begin == begin && r.value.end == end
      else r == Err(ErrBadSubnet)
  {
    match NewPool(network)
    case Err(e) => Err(e)
    case Ok(n) =>
      match UsableRange(subnet)
      case Err(e) => Err(e)
      case Ok((begin, end)) =>
        if !(begin >= n.begin && end <= n.end && begin < end) then Err(ErrBadSubnet)
        else Ok(n.(begin := begin, end := end, last := begin - 1))
  }

  lemma UpdateTwice<K, V>(m: map<K, V>, k: K, v1: V, v2: V)
    ensures m[k := v1][k := v2] == m[k := v2]
  {
  }

  // -----------------------------------------------------------------------
  // The allocator objects
  // -----------------------------------------------------------------------

  class AllocatedMap {
    var p: set<int>
    var last: int
    var begin: int
    var end: int

    function State(): Pool
      reads this
    {
      Pool(p, last, begin, end)
    }

    /** The pool object newAllocatedMap makes over a usable range: nothing allocated, `last` just before the range. */
    constructor (b: int, e: int)
      ensures State() == Pool({}, b - 1, b, e)
    {
      p := {};
      begin := b;
      end := e;
      last := b - 1;
    }

    /** The pool is cut down to a subnet's range, from which the next address is handed out first. */
    method Narrow(b: int, e: int)
      modifies this`begin, this`end, this`last
      ensures State() == old(State()).(begin := b, end := e, last := b - 1)
    {
      begin := b;
      end := e;
      last := b - 1;
    }

    method CheckIP(ip: int) returns (r: Result<int>)
      modifies this`p
      ensures (r, State()) == Check(old(State()), ip)
    {
      if ip in p {
        return Err(ErrIPAlreadyAllocated);
      }
      if ip < begin || ip > end {
        return Err(ErrIPOutOfRange);
      }
      p := p + {ip};
      return Ok(ip);
    }

    /** RequestIP's work on one pool, which stays valid. */
    method Allocate(ip: Option<int>) returns (r: Result<int>)
      requires PoolValid(State())
      modifies this`p, this`last
      ensures r == Request(old(State()), ip).0
      ensures State() == Request(old(State()), ip).1
      ensures PoolValid(State())
    {
      if ip.None? {
        NextIPFresh(State());
        r := GetNextIP();
      } else {
        CheckKeepsValid(State(), ip.value);
        r := CheckIP(ip.value);
      }
    }

    /** getNextIP: step from `last`, wrapping at the end, over at most the whole range. */
    method GetNextIP() returns (r: Result<int>)
      modifies this`p, this`last
      ensures (r, State()) == NextIP(old(State()))
    {
      ghost var pl := State();
      var pos := last;
      var allRange := end - begin;
      var i := 0;
      while i <= allRange
        invariant 0 <= i <= RangeSize(pl)
        invariant State() == pl
        invariant NextFreeFrom(pl, pl.last, RangeSize(pl)) == NextFreeFrom(pl, pos, RangeSize(pl) - i)
      {
        pos := pos + 1;
        if pos > end {
          pos := begin;
        }
        if pos in p {
          i := i + 1;
          continue;
        }
        p := p + {pos};
        last := pos;
        return Ok(pos);
      }
      return Err(ErrNoAvailableIPs);
    }
  }

  /** The begin and end newAllocatedMap and RegisterSubnet compute with big.Int from NetworkRange's addresses. */
  method Bounds(n: IPNet) returns (r: Result<(int, int)>)
    ensures r == UsableRange(n)
  {
    var rg := NetworkRange(n);
    if rg.Err? {
      return Err(rg.msg);
    }
    var first, last := IpToBigInt(rg.value.first), IpToBigInt(rg.value.last);
    if first.None? || last.None? {
      return Err(PanicNil);
    }
    return Ok((first.value + 1, last.value - 1));
  }

  /** newAllocatedMap: the pool object over a network's usable range, or the panic computing that range. */
  method NewAllocatedMap(network: IPNet) returns (r: Result<AllocatedMap>)
    ensures r.Err? ==> NewPool(network) == Err(r.msg)
    ensures r.Ok? ==> NewPool(network) == Ok(r.value.State()) && fresh(r.value)
  {
    var u := Bounds(network);
    if u.Err? {
      return Err(u.msg);
    }
    var am := new AllocatedMap(u.value.0, u.value.1);
    return Ok(am);
  }

  class IPAllocator {
    var allocatedIPs: map<IPNet, AllocatedMap>
    /** The state of every registered network's pool. */
    ghost var pools: map<IPNet, Pool>

    /** `pools` mirrors the pool objects; distinct networks have distinct pools, and every pool is valid. */
    ghost predicate Valid()
      reads this, allocatedIPs.Values
    {
      && allocatedIPs.Keys == pools.Keys
      && (forall k :: k in allocatedIPs ==> allocatedIPs[k].State() == pools[k] && PoolValid(pools[k]))
      && (forall k1, k2 :: k1 in allocatedIPs && k2 in allocatedIPs && k1 != k2 ==>
            allocatedIPs[k1] != allocatedIPs[k2])
    }

    constructor ()
      ensures Valid() && pools == map[]
    {
      allocatedIPs := map[];
      pools := map[];
    }

    /**
     * RegisterSubnet: a known network is refused; a panic computing either
     * range, or a subnet outside the network's range, is reported without
     * registering anything.
     */
    method RegisterSubnet(network: IPNet, subnet: IPNet) returns (err: Option<string>)
      requires Valid()
      modifies this
      ensures Valid()
      ensures network in old(pools) ==> err == Some(ErrNetworkAlreadyRegistered) && pools == old(pools)
      ensures network !in old(pools) ==>
        match SubnetPool(network, subnet)
        case Err(e) => err == Some(e) && pools == old(pools)
        case Ok(pl) => err == None && pools == old(pools)[network := pl]
    {
      if network in allocatedIPs {
        return Some(ErrNetworkAlreadyRegistered);
      }
      var made := NewAllocatedMap(network);
      if made.Err? {
        return Some(made.msg);
      }
      var n := made.value;
      var u := Bounds(subnet);
      if u.Err? {
        return Some(u.msg);
      }
      var (begin, end) := u.value;
      if !(begin >= n.begin && end <= n.end && begin < end) {
        return Some(ErrBadSubnet);
      }
      n.Narrow(begin, end);
      assert SubnetPool(network, subnet) == Ok(n.State());
      Install(network, n);
      return None;
    }

    /** A new pool object becomes the network's pool. */
    method Install(network: IPNet, n: AllocatedMap)
      requires Valid() && network !in allocatedIPs && n !in allocatedIPs.Values && PoolValid(n.State())
      modifies this
      ensures Valid() && pools == old(pools)[network := n.State()]
      ensures allocatedIPs == old(allocatedIPs)[network := n]
    {
      allocatedIPs := allocatedIPs[network := n];
      pools := pools[network := n.State()];
    }

    /**
     * RequestIP: an unknown network is registered with its whole range;
     * with no address the next free one is handed out, otherwise the given
     * one is checked. Other networks are untouched.
     */
    method RequestIP(network: IPNet, ip: Option<int>) returns (r: Result<int>)
      requires Valid()
      modifies this, allocatedIPs.Values
      ensures Valid()
      ensures match PoolOrNew(old(pools), network)
        case Err(e) => r == Err(e) && pools == old(pools)
        case Ok(pl) => var res := Request(pl, ip); r == res.0 && pools == old(pools)[network := res.1]
    {
      ghost var before := pools;
      var am := PoolFor(network);
      if am.Err? {
        return Err(am.msg);
      }
      ghost var pl := am.value.State();
      r := Allot(network, am.value, ip);
      UpdateTwice(before, network, pl, Request(pl, ip).1);
    }

    /** RequestIP's work on a registered network's pool; the other pools are untouched. */
    method Allot(network: IPNet, am: AllocatedMap, ip: Option<int>) returns (r: Result<int>)
      requires Valid() && network in allocatedIPs && allocatedIPs[network] == am
      modifies this`pools, am`p, am`last
      ensures Valid()
      ensures r == Request(old(pools)[network], ip).0
      ensures pools == old(pools)[network := Request(old(pools)[network], ip).1]
    {
      r := am.Allocate(ip);
      pools := pools[network := am.State()];
      assert forall k :: k in allocatedIPs && k != network ==> allocatedIPs[k] != am;
    }

    /** The pool of a network, made with the network's whole range when it is not registered yet. */
    method PoolFor(network: IPNet) returns (am: Result<AllocatedMap>)
      requires Valid()
      modifies this
      ensures Valid()
      ensures am.Err? ==>
        && PoolOrNew(old(pools), network) == Err(am.msg)
        && pools == old(pools) && allocatedIPs == old(allocatedIPs)
      ensures am.Ok? ==>
        && network in allocatedIPs && allocatedIPs[network] == am.value
        && PoolOrNew(old(pools), network) == Ok(am.value.State())
        && pools == old(pools)[network := am.value.State()]
        && (forall k :: k in allocatedIPs && k != network ==> allocatedIPs[k] != am.value)
        && (am.value in old(allocatedIPs.Values) || fresh(am.value))
    {
      if network in allocatedIPs {
        am := Ok(allocatedIPs[network]);
        assert pools == old(pools)[network := am.value.State()];
      } else {
        am := NewAllocatedMap(network);
        if am.Ok? {
          allocatedIPs := allocatedIPs[network := am.value];
          pools := pools[network := am.value.State()];
        }
      }
    }

    /** ReleaseIP: the address leaves its network's set; an unknown network is ignored; never an error. */
    method ReleaseIP(network: IPNet, ip: int) returns (err: Option<string>)
      requires Valid()
      modifies this, allocatedIPs.Values
      ensures Valid() && err == None
      ensures network in old(pools) ==> pools == old(pools)[network := Release(old(pools)[network], ip)]
      ensures network !in old(pools) ==> pools == old(pools)
    {
      if network in allocatedIPs {
        var am := allocatedIPs[network];
        am.p := am.p - {ip};
        pools := pools[network := am.State()];
      }
      return None;
    }
  }
}
