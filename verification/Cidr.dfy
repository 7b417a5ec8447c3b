/** CIDR blocks in the prefix notation of section 3.1 of RFC 4632, and the containment
    test of the route controller. An address is its bits, most significant first: the
    byte operations of the Go library act on each bit alone. */
module Cidr {
  import opened Common

  type Address = seq<bool>

  /** A block as the Go library holds it: network address and mask length. */
  datatype IpNet = IpNet(ip: Address, ones: nat)

  /** A CIDR as it is written in a node spec or a route table: nothing, text that does
      not parse, or an address and a prefix length. The address need not be the network
      address of its block, and there are several spellings of both, by leading zeros or
      letter case, of which 0 is the one the library prints. */
  datatype CidrText = Blank | Garbage(text: string) | Written(addr: Address, bits: nat, spelling: nat)

  /** An IPv4 or an IPv6 address. */
  predicate IsAddress(a: Address) { |a| == 32 || |a| == 128 }

  /** Bit `i` of the mask of a block. */
  predicate Mask(net: IpNet, i: nat) { i < net.ones }

  /** A block whose network address has no host bit set. */
  ghost predicate Canonical(net: IpNet) {
    && IsAddress(net.ip)
    && net.ones <= |net.ip|
    && forall i :: 0 <= i < |net.ip| ==> (net.ip[i] && Mask(net, i)) == net.ip[i]
  }

  /** Membership of an address: same family, same network bits. */
  predicate Contains(net: IpNet, a: Address) {
    && |a| == |net.ip|
    && forall i :: 0 <= i < |a| ==> (net.ip[i] && Mask(net, i)) == (a[i] && Mask(net, i))
  }

  /** Every address of `inner` is an address of `outer`. */
  ghost predicate Within(inner: IpNet, outer: IpNet) {
    forall a: Address :: Contains(inner, a) ==> Contains(outer, a)
  }

  ghost predicate Disjoint(x: IpNet, y: IpNet) {
    forall a: Address :: !(Contains(x, a) && Contains(y, a))
  }

  /** The block an address belongs to. */
  function NetworkOf(addr: Address, bits: nat): IpNet {
    IpNet(seq(|addr|, i requires 0 <= i < |addr| => addr[i] && i < bits), bits)
  }

  function ParseCidr(text: CidrText): (r: Option<IpNet>)
    ensures r.Some? ==> Canonical(r.value)
  {
    match text
    case Written(addr, bits, _) =>
      if IsAddress(addr) && bits <= |addr| then Some(NetworkOf(addr, bits)) else None
    case _ => None
  }

  /** What parses: an address of 32 or of 128 bits with a prefix no longer than it is. */
  lemma ParsesExactly(text: CidrText)
    ensures ParseCidr(text).Some? <==>
              text.Written? && ((|text.addr| == 32 && text.bits <= 32) || (|text.addr| == 128 && text.bits <= 128))
    ensures ParseCidr(text).Some? ==>
              && |ParseCidr(text).value.ip| == |text.addr| && ParseCidr(text).value.ones == text.bits
              && Contains(ParseCidr(text).value, text.addr)
  {
  }

  function Text(net: IpNet): CidrText { Written(net.ip, net.ones, 0) }

  lemma ParseText(net: IpNet)
    requires Canonical(net)
    ensures ParseCidr(Text(net)) == Some(net)
  {
    assert NetworkOf(net.ip, net.ones).ip == net.ip;
  }

  /** The last address of a block. */
  function LastAddress(net: IpNet): Address {
    seq(|net.ip|, i requires 0 <= i < |net.ip| => net.ip[i] || !Mask(net, i))
  }

  /** Testing the first and the last address decides containment: when both agree with
      the outer block, the outer mask tests no bit that the inner mask leaves free. */
  lemma EndsDecideContainment(inner: IpNet, outer: IpNet)
    requires Canonical(inner)
    ensures Contains(inner, inner.ip) && Contains(inner, LastAddress(inner))
    ensures Contains(outer, inner.ip) && Contains(outer, LastAddress(inner)) <==> Within(inner, outer)
  {
    var last := LastAddress(inner);
    assert Contains(inner, inner.ip) && Contains(inner, last);
    if Contains(outer, inner.ip) && Contains(outer, last) {
      forall a: Address | Contains(inner, a)
        ensures Contains(outer, a)
      {
        forall i | 0 <= i < |a|
          ensures (outer.ip[i] && Mask(outer, i)) == (a[i] && Mask(outer, i))
        {
          assert (outer.ip[i] && Mask(outer, i)) == (last[i] && Mask(outer, i));
        }
      }
    }
  }

  /** Aligned blocks are nested or disjoint. */
  lemma NestedOrDisjoint(x: IpNet, y: IpNet)
    ensures Within(x, y) || Within(y, x) || Disjoint(x, y)
  {
    if !Disjoint(x, y) {
      var a: Address :| Contains(x, a) && Contains(y, a);
      if y.ones <= x.ones { SharedAddressNests(x, y, a); } else { SharedAddressNests(y, x, a); }
    }
  }

  /** A block sharing an address with a block of shorter or equal prefix lies within it. */
  lemma SharedAddressNests(inner: IpNet, outer: IpNet, x: Address)
    requires outer.ones <= inner.ones
    requires Contains(inner, x) && Contains(outer, x)
    ensures Within(inner, outer)
  {
    forall a: Address | Contains(inner, a)
      ensures Contains(outer, a)
    {
      forall i | 0 <= i < |a|
        ensures (outer.ip[i] && Mask(outer, i)) == (a[i] && Mask(outer, i))
      {
        assert (inner.ip[i] && Mask(inner, i)) == (x[i] && Mask(inner, i));
      }
    }
  }

  lemma WithinHasLongerPrefix(inner: IpNet, outer: IpNet)
    requires Canonical(inner) && Canonical(outer)
    ensures Within(inner, outer) ==> outer.ones <= inner.ones
  {
    EndsDecideContainment(inner, outer);
    if inner.ones < outer.ones && Contains(outer, inner.ip) {
      var i := inner.ones;
      assert (outer.ip[i] && Mask(outer, i)) == (inner.ip[i] && Mask(outer, i));
      assert !Contains(outer, LastAddress(inner));
    }
  }

  /** Canonical blocks with the same addresses are the same block. */
  lemma MutualContainmentIsEquality(x: IpNet, y: IpNet)
    requires Canonical(x) && Canonical(y)
    requires Within(x, y) && Within(y, x)
    ensures x == y
  {
    WithinHasLongerPrefix(x, y);
    WithinHasLongerPrefix(y, x);
    EndsDecideContainment(x, y);
    assert x.ip == y.ip;
  }

  /** The containment test of the route controller. Without an outer block everything is
      contained. Otherwise the first result decides containment of the parsed block, and
      the second is the same unless the text is the outer block's own text. */
  method ContainsRoute(outside: Option<IpNet>, inside: CidrText)
    returns (containsEqual: bool, realContains: bool, err: bool)
    requires outside.Some? ==> Canonical(outside.value)
    ensures outside.None? ==> containsEqual && realContains && !err
    ensures outside.Some? ==> (err <==> ParseCidr(inside).None?)
    ensures err ==> !containsEqual && !realContains
    ensures outside.Some? && !err ==>
              (containsEqual <==> Within(ParseCidr(inside).value, outside.value))
    ensures outside.Some? && !err ==>
              (realContains <==> containsEqual && inside != Text(outside.value))
  {
    if outside.None? {
      return true, true, false;
    }
    var net := outside.value;
    var parsed := ParseCidr(inside);
    if parsed.None? {
      return false, false, true;
    }
    var cidr := parsed.value;
    if Text(net) == inside {
      ParseText(net);
      return true, false, false;
    }
    var lastIP := new bool[|cidr.ip|];
    for i := 0 to lastIP.Length
      invariant forall j :: 0 <= j < i ==> lastIP[j] == (cidr.ip[j] || !Mask(cidr, j))
    {
      lastIP[i] := cidr.ip[i] || !Mask(cidr, i);
    }
    assert lastIP[..] == LastAddress(cidr);
    EndsDecideContainment(cidr, net);
    if !Contains(net, cidr.ip) || !Contains(net, lastIP[..]) {
      return false, false, false;
    }
    return true, true, false;
  }

  /** The second result means "strictly smaller" exactly when the text is not another text of
      the outer block itself: one whose address has a host bit set, or whose spelling is not
      the library's, is reported as strictly contained. */
  lemma StrictnessOfText(inside: CidrText, outer: IpNet)
    requires Canonical(outer) && ParseCidr(inside).Some?
    ensures var inner := ParseCidr(inside).value;
            var strictlySmaller := Within(inner, outer) && !Within(outer, inner);
            (Within(inner, outer) && inside != Text(outer) <==> strictlySmaller)
            <==> !(inner == outer && (inside.addr != outer.ip || inside.spelling != 0))
  {
    var inner := ParseCidr(inside).value;
    if Within(inner, outer) && Within(outer, inner) {
      MutualContainmentIsEquality(inner, outer);
    }
  }

  /** Such texts exist for every block: with a host bit, if it has one, or spelled differently. */
  lemma OtherTexts(net: IpNet, spelling: nat)
    requires Canonical(net)
    ensures ParseCidr(Written(net.ip, net.ones, spelling)) == Some(net)
    ensures ParseCidr(Written(LastAddress(net), net.ones, spelling)) == Some(net)
    ensures net.ones < |net.ip| ==> LastAddress(net) != net.ip
  {
    assert NetworkOf(net.ip, net.ones).ip == net.ip;
    assert NetworkOf(LastAddress(net), net.ones).ip == net.ip;
    if net.ones < |net.ip| {
      assert LastAddress(net)[net.ones] && !net.ip[net.ones];
    }
  }
}
