/** The keeper's in-memory cache of the last scan. */
module Store {
  import opened Base
  import opened KeeperVaults

  predicate DistinctAddresses(vaults: seq<KeeperVault>) {
    forall i, j :: 0 <= i < j < |vaults| ==> vaults[i].address != vaults[j].address
  }

  function Addresses(vaults: seq<KeeperVault>): seq<Pubkey> {
    seq(|vaults|, i requires 0 <= i < |vaults| => vaults[i].address)
  }

  /** By address; where an address repeats, the later vault wins. */
  function ByAddress(vaults: seq<KeeperVault>): (m: map<Pubkey, KeeperVault>)
    ensures forall a :: a in m <==> exists i :: 0 <= i < |vaults| && vaults[i].address == a
    ensures forall a :: a in m ==> m[a].address == a && m[a] in vaults
  {
    if vaults == [] then map[]
    else
      var last := vaults[|vaults| - 1];
      assert vaults == vaults[..|vaults| - 1] + [last];
      ByAddress(vaults[..|vaults| - 1])[last.address := last]
  }

  function OwnedBy(vaults: seq<KeeperVault>, owner: Pubkey): seq<KeeperVault> {
    if vaults == [] then []
    else
      var last := vaults[|vaults| - 1];
      OwnedBy(vaults[..|vaults| - 1], owner) + (if last.owner == owner then [last] else [])
  }

  /** Exactly the owner's vaults, each as often as it is listed. */
  lemma {:induction false} OwnedByExactly(vaults: seq<KeeperVault>, owner: Pubkey, v: KeeperVault)
    ensures multiset(OwnedBy(vaults, owner))[v] == if v.owner == owner then multiset(vaults)[v] else 0
  {
    if vaults != [] {
      OwnedByExactly(vaults[..|vaults| - 1], owner, v);
      assert vaults == vaults[..|vaults| - 1] + [vaults[|vaults| - 1]];
    }
  }

  /** ... and in the order they are listed: `at` says where each one stands. */
  lemma {:induction false} OwnedByKeepsOrder(vaults: seq<KeeperVault>, owner: Pubkey) returns (at: seq<nat>)
    ensures |at| == |OwnedBy(vaults, owner)|
    ensures forall k :: 0 <= k < |at| ==> at[k] < |vaults| && vaults[at[k]] == OwnedBy(vaults, owner)[k]
    ensures forall j, k :: 0 <= j < k < |at| ==> at[j] < at[k]
  {
    at := [];
    if vaults != [] {
      var n := |vaults| - 1;
      at := OwnedByKeepsOrder(vaults[..n], owner);
      if vaults[n].owner == owner {
        at := at + [n];
      }
    }
  }

  /** Where an address repeats, the last vault listed under it is kept. */
  lemma {:induction false} ByAddressIsLatest(vaults: seq<KeeperVault>, i: nat)
    requires i < |vaults| && forall j :: i < j < |vaults| ==> vaults[j].address != vaults[i].address
    ensures vaults[i].address in ByAddress(vaults) && ByAddress(vaults)[vaults[i].address] == vaults[i]
  {
    if i < |vaults| - 1 {
      ByAddressIsLatest(vaults[..|vaults| - 1], i);
    }
  }

  lemma ByAddressOfDistinct(vaults: seq<KeeperVault>, i: nat)
    requires DistinctAddresses(vaults) && i < |vaults|
    ensures vaults[i].address in ByAddress(vaults) && ByAddress(vaults)[vaults[i].address] == vaults[i]
  {
    ByAddressIsLatest(vaults, i);
  }

  function Pick(m: map<Pubkey, KeeperVault>, order: seq<Pubkey>): seq<KeeperVault>
    requires forall i :: 0 <= i < |order| ==> order[i] in m
  {
    seq(|order|, i requires 0 <= i < |order| => m[order[i]])
  }

  /** A cache filled from any scan lists one vault for each one scanned, under the
      same address. */
  lemma PickFollowsScan(vaults: seq<KeeperVault>)
    ensures |Pick(ByAddress(vaults), Addresses(vaults))| == |vaults|
    ensures forall i :: 0 <= i < |vaults| ==>
              Pick(ByAddress(vaults), Addresses(vaults))[i].address == vaults[i].address
  {
  }

  /** A cache filled from a scan without repeats lists that scan again. */
  lemma PickOfDistinct(vaults: seq<KeeperVault>)
    requires DistinctAddresses(vaults)
    ensures Pick(ByAddress(vaults), Addresses(vaults)) == vaults
  {
    forall i | 0 <= i < |vaults| ensures Pick(ByAddress(vaults), Addresses(vaults))[i] == vaults[i] {
      ByAddressOfDistinct(vaults, i);
    }
  }

  class Memory {
    var vaults: map<Pubkey, KeeperVault>
    var order: seq<Pubkey>

    predicate Valid()
      reads this
    {
      forall i :: 0 <= i < |order| ==> order[i] in vaults
    }

    /** The cached scan, in its order. */
    function Listed(): seq<KeeperVault>
      requires Valid()
      reads this
    {
      Pick(vaults, order)
    }

    constructor ()
      ensures Valid() && vaults == map[] && order == []
    {
      vaults, order := map[], [];
    }

    /** Forgets everything and keeps this scan. */
    method Replace(scan: seq<KeeperVault>)
      modifies this
      ensures Valid()
      ensures vaults == ByAddress(scan) && order == Addresses(scan)
      ensures DistinctAddresses(scan) ==> Listed() == scan
    {
      vaults, order := map[], [];
      for i := 0 to |scan|
        invariant vaults == ByAddress(scan[..i])
        invariant order == Addresses(scan[..i])
      {
        assert scan[..i + 1][..i] == scan[..i];
        vaults := vaults[scan[i].address := scan[i]];
        order := order + [scan[i].address];
      }
      assert scan[..|scan|] == scan;
      if DistinctAddresses(scan) {
        PickOfDistinct(scan);
      }
    }

    method List() returns (out: seq<KeeperVault>)
      requires Valid()
      ensures out == Listed()
    {
      out := [];
      for i := 0 to |order|
        invariant out == Listed()[..i]
      {
        assert Listed()[..i + 1] == Listed()[..i] + [vaults[order[i]]];
        out := out + [vaults[order[i]]];
      }
    }

    /** The cached vault with this address, or nothing. */
    method Get(address: Pubkey) returns (r: Option<KeeperVault>)
      ensures r.Some? <==> address in vaults
      ensures r.Some? ==> r.value == vaults[address]
    {
      if address !in vaults {
        return None;
      }
      return Some(vaults[address]);
    }

    method ByOwner(owner: Pubkey) returns (out: seq<KeeperVault>)
      requires Valid()
      ensures out == OwnedBy(Listed(), owner)
    {
      out := [];
      for i := 0 to |order|
        invariant out == OwnedBy(Listed()[..i], owner)
      {
        var vault := vaults[order[i]];
        assert Listed()[..i + 1] == Listed()[..i] + [vault];
        if vault.owner == owner {
          out := out + [vault];
        }
      }
      assert Listed()[..|order|] == Listed();
    }
  }
}
