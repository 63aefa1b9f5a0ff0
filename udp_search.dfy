/**
 * The subnet broadcast address `SearchDobot` sends its keyword to
 * (udpsearch.go): the interface address with every host bit of its subnet
 * mask raised, `ip | ^mask`, byte by byte. Only IPv4 addresses have one.
 */
module UdpSearch {
  import opened Wrappers

  const IPV4_LEN: nat := 4
  const IPV6_LEN: nat := 16

  /** The twelve-byte prefix of an IPv4 address written in the 16-byte form. */
  const V4_IN_V6_PREFIX: seq<bv8> := [0, 0, 0, 0, 0, 0, 0, 0, 0, 0, 0xFF, 0xFF]

  /**
   * `net.IP.To4`: a 4-byte address as it is, the last four bytes of an
   * IPv4-mapped 16-byte address, and nothing for any other address.
   */
  function To4(ip: seq<bv8>): (r: Option<seq<bv8>>)
    ensures r.Some? ==> |r.value| == IPV4_LEN
    ensures r.Some? <==> |ip| == IPV4_LEN || (|ip| == IPV6_LEN && ip[..12] == V4_IN_V6_PREFIX)
    ensures r.Some? ==> r.value == ip[|ip| - IPV4_LEN..]
  {
    if |ip| == IPV4_LEN then Some(ip)
    else if |ip| == IPV6_LEN && ip[..12] == V4_IN_V6_PREFIX then Some(ip[12..])
    else None
  }

  /** The broadcast address of `ip` in the subnet `mask`, as a value. */
  function Broadcast(ip: seq<bv8>, mask: seq<bv8>): (r: seq<bv8>)
    requires |ip| <= |mask|
    ensures |r| == |ip|
    decreases |ip|
  {
    if ip == [] then [] else [ip[0] | !mask[0]] + Broadcast(ip[1..], mask[1..])
  }

  lemma {:induction false} BroadcastAt(ip: seq<bv8>, mask: seq<bv8>, i: nat)
    requires |ip| <= |mask| && i < |ip|
    ensures Broadcast(ip, mask)[i] == ip[i] | !mask[i]
    decreases i
  {
    if i > 0 {
      BroadcastAt(ip[1..], mask[1..], i - 1);
    }
  }

  /** The bytes are exactly `ip[i] | ^mask[i]`, so the function is determined bytewise. */
  lemma BroadcastIsBytewise(ip: seq<bv8>, mask: seq<bv8>)
    requires |ip| <= |mask|
    ensures forall i :: 0 <= i < |ip| ==> Broadcast(ip, mask)[i] == ip[i] | !mask[i]
  {
    forall i | 0 <= i < |ip| {
      BroadcastAt(ip, mask, i);
    }
  }

  lemma NetworkBitsOfByte(a: bv8, m: bv8)
    ensures (a | !m) & m == a & m
    ensures (a | !m) | m == 0xFF
    ensures (a | !m) | !m == a | !m
  {
  }

  /**
   * The network part is kept: under the mask, the broadcast address and the
   * interface address agree byte for byte.
   */
  lemma NetworkPartPreserved(ip: seq<bv8>, mask: seq<bv8>)
    requires |ip| <= |mask|
    ensures forall i :: 0 <= i < |ip| ==> Broadcast(ip, mask)[i] & mask[i] == ip[i] & mask[i]
  {
    forall i | 0 <= i < |ip|
      ensures Broadcast(ip, mask)[i] & mask[i] == ip[i] & mask[i]
    {
      BroadcastAt(ip, mask, i);
      NetworkBitsOfByte(ip[i], mask[i]);
    }
  }

  /** Every host bit is raised: the broadcast address or the mask is all ones. */
  lemma HostBitsAllSet(ip: seq<bv8>, mask: seq<bv8>)
    requires |ip| <= |mask|
    ensures forall i :: 0 <= i < |ip| ==> Broadcast(ip, mask)[i] | mask[i] == 0xFF
  {
    forall i | 0 <= i < |ip|
      ensures Broadcast(ip, mask)[i] | mask[i] == 0xFF
    {
      BroadcastAt(ip, mask, i);
      NetworkBitsOfByte(ip[i], mask[i]);
    }
  }

  /** The broadcast address is its own broadcast address in the same subnet. */
  lemma BroadcastIdempotent(ip: seq<bv8>, mask: seq<bv8>)
    requires |ip| <= |mask|
    ensures Broadcast(Broadcast(ip, mask), mask) == Broadcast(ip, mask)
  {
    var b := Broadcast(ip, mask);
    var bb := Broadcast(b, mask);
    forall i | 0 <= i < |ip|
      ensures bb[i] == b[i]
    {
      BroadcastAt(ip, mask, i);
      BroadcastAt(b, mask, i);
      NetworkBitsOfByte(ip[i], mask[i]);
    }
  }

  /**
   * `calculateBroadcastIP`: `nil` unless the address is IPv4; otherwise a
   * fresh 4-byte address filled byte by byte with `ip[i] | ^mask[i]`.
   */
  method CalculateBroadcastIP(ip: seq<bv8>, mask: seq<bv8>) returns (broadcast: array?<bv8>)
    requires To4(ip).Some? ==> |mask| >= IPV4_LEN
    ensures (broadcast == null) <==> To4(ip).None?
    ensures broadcast != null ==> fresh(broadcast) && broadcast[..] == Broadcast(To4(ip).value, mask)
  {
    var ip4 := To4(ip);
    if ip4.None? {
      return null;
    }
    var v := ip4.value;
    broadcast := new bv8[|v|];
    for i := 0 to |v|
      invariant forall j :: 0 <= j < i ==> broadcast[j] == v[j] | !mask[j]
    {
      broadcast[i] := v[i] | !mask[i];
    }
    BroadcastIsBytewise(v, mask);
  }
}
