/** The keeper's decoder: a reader that remembers its first error, proved equal
    to the parser that stops there, and inverse to the program's layout. */
module Decoding {
  import opened Base
  import opened VaultRules
  import opened KeeperVaults
  import opened Layout

  class Reader {
    const buf: Bytes
    var off: nat
    var failed: bool

    predicate Valid()
      reads this
    {
      off <= |buf|
    }

    function Rest(): Bytes
      requires Valid()
      reads this
    {
      buf[off..]
    }

    constructor (buf: Bytes, off: nat)
      requires off <= |buf|
      ensures Valid() && this.buf == buf && this.off == off && !failed
    {
      this.buf, this.off, failed := buf, off, false;
    }

    /** The next `n` bytes; zeroes, and no movement, once anything has failed. */
    method Take(n: nat) returns (out: Bytes)
      requires Valid()
      modifies this
      ensures Valid() && |out| == n
      ensures failed <==> old(failed) || Layout.Take(old(Rest()), n).None?
      ensures !failed ==> Layout.Take(old(Rest()), n) == Some((out, Rest()))
      ensures failed ==> off == old(off) && out == seq(n, _ => 0)
    {
      if failed {
        return seq(n, _ => 0);
      }
      if off + n > |buf| {
        failed := true;
        return seq(n, _ => 0);
      }
      out := buf[off..off + n];
      TakeAt(buf, off, n);
      off := off + n;
    }

    method U8() returns (x: u8)
      requires Valid()
      modifies this
      ensures Valid()
      ensures failed <==> old(failed) || ParseU8(old(Rest())).None?
      ensures !failed ==> ParseU8(old(Rest())) == Some((x, Rest()))
      ensures failed ==> x == 0
    {
      var b := Take(1);
      x := b[0];
    }

    method U16() returns (x: u16)
      requires Valid()
      modifies this
      ensures Valid()
      ensures failed <==> old(failed) || ParseU16(old(Rest())).None?
      ensures !failed ==> ParseU16(old(Rest())) == Some((x, Rest()))
    {
      var b := Take(2);
      x := FromLE16(b);
    }

    method U64() returns (x: u64)
      requires Valid()
      modifies this
      ensures Valid()
      ensures failed <==> old(failed) || ParseU64(old(Rest())).None?
      ensures !failed ==> ParseU64(old(Rest())) == Some((x, Rest()))
    {
      var b := Take(8);
      x := FromLE64(b);
    }

    method I64() returns (x: i64)
      requires Valid()
      modifies this
      ensures Valid()
      ensures failed <==> old(failed) || ParseI64(old(Rest())).None?
      ensures !failed ==> ParseI64(old(Rest())) == Some((x, Rest()))
    {
      var u := U64();
      x := Signed(u);
    }

    method Bool() returns (b: bool)
      requires Valid()
      modifies this
      ensures Valid()
      ensures failed <==> old(failed) || ParseBool(old(Rest())).None?
      ensures !failed ==> ParseBool(old(Rest())) == Some((b, Rest()))
      ensures failed ==> !b
    {
      var x := U8();
      b := x != 0;
    }

    method Key() returns (k: Pubkey)
      requires Valid()
      modifies this
      ensures Valid()
      ensures failed <==> old(failed) || ParseKey(old(Rest())).None?
      ensures !failed ==> ParseKey(old(Rest())) == Some((k, Rest()))
    {
      var b := Take(32);
      k := Pubkey(b);
    }

    method OptionKey() returns (k: Option<Pubkey>)
      requires Valid()
      modifies this
      ensures Valid()
      ensures failed <==> old(failed) || ParseMint(old(Rest())).None?
      ensures !failed ==> ParseMint(old(Rest())) == Some((k, Rest()))
    {
      var some := Bool();
      if !some {
        return None;
      }
      var key := Key();
      return Some(key);
    }

    method Slot() returns (b: Beneficiary)
      requires Valid()
      modifies this
      ensures Valid()
      ensures failed <==> old(failed) || ParseSlot(old(Rest())).None?
      ensures !failed ==> ParseSlot(old(Rest())) == Some((b, Rest()))
    {
      var address := Key();
      var bps := U16();
      var claimed := Bool();
      b := Beneficiary(address, bps, claimed);
    }

    method Head() returns (h: Head)
      requires Valid()
      modifies this
      ensures Valid()
      ensures failed <==> old(failed) || ParseHead(old(Rest())).None?
      ensures !failed ==> ParseHead(old(Rest())) == Some((h, Rest()))
    {
      var owner := Key();
      var vaultId := U64();
      var mint := OptionKey();
      var lastCheckin := I64();
      var timeout := I64();
      h := Layout.Head(owner, vaultId, mint, lastCheckin, timeout);
    }

    method Slots(n: nat) returns (slots: seq<Beneficiary>)
      requires Valid()
      modifies this
      ensures Valid() && |slots| == n
      ensures failed <==> old(failed) || ParseSlots(old(Rest()), n).None?
      ensures !failed ==> ParseSlots(old(Rest()), n) == Some((slots, Rest()))
    {
      slots := [];
      for i := 0 to n
        invariant Valid() && |slots| == i
        invariant failed <==> old(failed) || ParseSlots(old(Rest()), i).None?
        invariant !failed ==> ParseSlots(old(Rest()), i) == Some((slots, Rest()))
      {
        var slot := Slot();
        slots := slots + [slot];
      }
    }

    method Tail() returns (t: Tail)
      requires Valid()
      modifies this
      ensures Valid()
      ensures failed <==> old(failed) || ParseTail(old(Rest())).None?
      ensures !failed ==> ParseTail(old(Rest())) == Some((t, Rest()))
    {
      var count := U8();
      var isClaimed := Bool();
      var claimPool := U64();
      var bump := U8();
      t := Layout.Tail(count, isClaimed, claimPool, bump);
    }
  }

  /** Reads every field whatever happened before, and looks for an error once,
      at the end; yet it decides and returns what the short-circuiting parser does. */
  method DecodeVault(address: Pubkey, data: Bytes) returns (r: Result<KeeperVault, DecodeError>)
    ensures r == ParseVault(address, data)
  {
    if |data| < 8 {
      return Err(NotAVault);
    }
    if data[..8] != DISCRIMINATOR {
      return Err(NotAVault);
    }
    var reader := new Reader(data, 8);
    var head := reader.Head();
    var slots := reader.Slots(MAX_BENEFICIARIES);
    var tail := reader.Tail();
    if reader.failed {
      return Err(Truncated);
    }
    if tail.count > MAX_BENEFICIARIES {
      return Err(TooManyHeirs);
    }
    return Ok(View(address, Assemble(head, slots, tail)));
  }

  // ---- which byte strings decode

  lemma TakeAt(data: Bytes, k: nat, n: nat)
    requires k <= |data|
    ensures k + n <= |data| ==> Layout.Take(data[k..], n) == Some((data[k..k + n], data[k + n..]))
    ensures k + n > |data| ==> Layout.Take(data[k..], n).None?
  {
    if k + n <= |data| {
      assert data[k..][..n] == data[k..k + n];
      assert data[k..][n..] == data[k + n..];
    }
  }

  lemma SlotAt(data: Bytes, k: nat)
    requires k <= |data|
    ensures ParseSlot(data[k..]).Some? <==> k + 35 <= |data|
    ensures k + 35 <= |data| ==> ParseSlot(data[k..]).value.1 == data[k + 35..]
  {
    TakeAt(data, k, 32);
    if k + 32 <= |data| {
      TakeAt(data, k + 32, 2);
      if k + 34 <= |data| {
        TakeAt(data, k + 34, 1);
      }
    }
  }

  lemma {:induction false} SlotsAt(data: Bytes, k: nat, n: nat)
    requires k <= |data|
    ensures ParseSlots(data[k..], n).Some? <==> k + 35 * n <= |data|
    ensures k + 35 * n <= |data| ==> ParseSlots(data[k..], n).value.1 == data[k + 35 * n..]
  {
    if n > 0 {
      SlotsAt(data, k, n - 1);
      if k + 35 * (n - 1) <= |data| {
        SlotAt(data, k + 35 * (n - 1));
      }
    }
  }

  /** Bytes from the mint's tag byte on that the mint takes. */
  function MintSize(data: Bytes): nat {
    if |data| > 48 && data[48] != 0 then 33 else 1
  }

  lemma HeadAt(data: Bytes)
    requires |data| >= 8
    ensures ParseHead(data[8..]).Some? <==> 64 + MintSize(data) <= |data|
    ensures 64 + MintSize(data) <= |data| ==> ParseHead(data[8..]).value.1 == data[64 + MintSize(data)..]
  {
    TakeAt(data, 8, 32);
    if 40 <= |data| {
      TakeAt(data, 40, 8);
      if 48 <= |data| {
        TakeAt(data, 48, 1);
        if 49 <= |data| {
          TakeAt(data, 49, 32);
          var m := 48 + MintSize(data);
          if m <= |data| {
            TakeAt(data, m, 8);
            if m + 8 <= |data| {
              TakeAt(data, m + 8, 8);
            }
          }
        }
      }
    }
  }

  lemma TailAt(data: Bytes, k: nat)
    requires k <= |data|
    ensures ParseTail(data[k..]).Some? <==> k + 11 <= |data|
    ensures k + 11 <= |data| ==> ParseTail(data[k..]).value.0.count == data[k]
  {
    TakeAt(data, k, 1);
    if k + 1 <= |data| {
      TakeAt(data, k + 1, 1);
      if k + 2 <= |data| {
        TakeAt(data, k + 2, 8);
        if k + 10 <= |data| {
          TakeAt(data, k + 10, 1);
        }
      }
    }
  }

  /** Exactly which byte strings decode: the discriminator, 251 bytes without a
      mint or 283 with one, and a heir count that fits the table. */
  lemma DecodesIff(address: Pubkey, data: Bytes)
    ensures ParseVault(address, data).Ok?
       <==> && |data| >= 250 + MintSize(data)
            && data[..8] == DISCRIMINATOR
            && data[239 + MintSize(data)] <= MAX_BENEFICIARIES
    ensures ParseVault(address, data) == Err(NotAVault) <==> |data| < 8 || data[..8] != DISCRIMINATOR
    ensures ParseVault(address, data) == Err(Truncated)
       <==> |data| >= 8 && data[..8] == DISCRIMINATOR && |data| < 250 + MintSize(data)
  {
    if |data| >= 8 && data[..8] == DISCRIMINATOR {
      HeadAt(data);
      var m := 64 + MintSize(data);
      if m <= |data| {
        SlotsAt(data, m, 5);
        if m + 175 <= |data| {
          TailAt(data, m + 175);
        }
      }
    }
  }

  // ---- decoding what the program wrote

  lemma TakeExact(a: Bytes, t: Bytes)
    ensures Layout.Take(a + t, |a|) == Some((a, t))
  {
  }

  lemma U64Back(x: u64, t: Bytes)
    ensures ParseU64(ToLE64(x) + t) == Some((x, t))
  {
    TakeExact(ToLE64(x), t);
    LE64RoundTrip(x);
  }

  lemma I64Back(x: i64, t: Bytes)
    ensures ParseI64(ToLE64(Unsigned(x)) + t) == Some((x, t))
  {
    U64Back(Unsigned(x), t);
  }

  lemma MintBack(mint: Option<Pubkey>, t: Bytes)
    ensures ParseMint(EncodeMint(mint) + t) == Some((mint, t))
  {
    if mint.None? {
      TakeExact([0], t);
    } else {
      TakeExact([1], mint.value.bytes + t);
      assert [1] + mint.value.bytes + t == [1] + (mint.value.bytes + t);
      TakeExact(mint.value.bytes, t);
    }
  }

  lemma SlotBack(b: Beneficiary, t: Bytes)
    ensures ParseSlot(EncodeSlot(b) + t) == Some((b, t))
  {
    var flag: Bytes := [EncodeBool(b.claimed)];
    assert EncodeSlot(b) + t == b.address.bytes + (ToLE16(b.shareBps) + (flag + t));
    TakeExact(b.address.bytes, ToLE16(b.shareBps) + (flag + t));
    TakeExact(ToLE16(b.shareBps), flag + t);
    LE16RoundTrip(b.shareBps);
    TakeExact(flag, t);
  }

  lemma {:induction false} SlotsBack(slots: seq<Beneficiary>, t: Bytes)
    ensures ParseSlots(EncodeSlots(slots) + t, |slots|) == Some((slots, t))
  {
    if slots == [] {
      assert EncodeSlots(slots) + t == t;
    } else {
      var n := |slots| - 1;
      assert EncodeSlots(slots) + t == EncodeSlots(slots[..n]) + (EncodeSlot(slots[n]) + t);
      SlotsBack(slots[..n], EncodeSlot(slots[n]) + t);
      SlotBack(slots[n], t);
      assert slots[..n] + [slots[n]] == slots;
    }
  }

  lemma HeadShape(v: VaultData, t: Bytes)
    ensures EncodeHead(v) + t
         == v.owner.bytes + (ToLE64(v.vaultId) + (EncodeMint(v.mint)
            + (ToLE64(Unsigned(v.lastCheckin)) + (ToLE64(Unsigned(v.timeoutSeconds)) + t))))
  {
  }

  lemma HeadBack(v: VaultData, t: Bytes)
    ensures ParseHead(EncodeHead(v) + t)
         == Some((Layout.Head(v.owner, v.vaultId, v.mint, v.lastCheckin, v.timeoutSeconds), t))
  {
    var t5 := ToLE64(Unsigned(v.timeoutSeconds)) + t;
    var t4 := ToLE64(Unsigned(v.lastCheckin)) + t5;
    var t3 := EncodeMint(v.mint) + t4;
    var t2 := ToLE64(v.vaultId) + t3;
    HeadShape(v, t);
    TakeExact(v.owner.bytes, t2);
    U64Back(v.vaultId, t3);
    MintBack(v.mint, t4);
    I64Back(v.lastCheckin, t5);
    I64Back(v.timeoutSeconds, t);
  }

  lemma TailBack(v: VaultData, t: Bytes)
    ensures ParseTail(EncodeTail(v) + t) == Some((Layout.Tail(v.count, v.isClaimed, v.claimPool, v.bump), t))
  {
    var bump: Bytes := [v.bump];
    var flag: Bytes := [EncodeBool(v.isClaimed)];
    var count: Bytes := [v.count];
    var t3 := ToLE64(v.claimPool) + (bump + t);
    assert EncodeTail(v) + t == count + (flag + t3);
    TakeExact(count, flag + t3);
    TakeExact(flag, t3);
    U64Back(v.claimPool, bump + t);
    TakeExact(bump, t);
  }

  lemma {:induction false} SlotsSize(slots: seq<Beneficiary>)
    ensures |EncodeSlots(slots)| == 35 * |slots|
  {
    if slots != [] {
      SlotsSize(slots[..|slots| - 1]);
    }
  }

  lemma BodyBack(v: VaultData, padding: Bytes)
    requires v.Shaped()
    ensures ParseBody(EncodeHead(v) + (EncodeSlots(v.slots) + (EncodeTail(v) + padding))) == Some(v)
  {
    HeadBack(v, EncodeSlots(v.slots) + (EncodeTail(v) + padding));
    SlotsBack(v.slots, EncodeTail(v) + padding);
    TailBack(v, padding);
  }

  lemma EncodedSize(v: VaultData)
    requires v.Shaped()
    ensures |Encode(v)| == if v.mint.None? then 251 else ACCOUNT_SIZE
  {
    SlotsSize(v.slots);
  }

  /** Round trip: whatever vault the program stores, of either mint shape and
      with any bytes after it, the keeper reads back the same fields and exactly
      the slots in use. */
  lemma DecodeInvertsEncode(address: Pubkey, v: VaultData, padding: Bytes)
    requires v.Shaped()
    ensures ParseVault(address, Encode(v) + padding) == Ok(View(address, v))
  {
    var body := EncodeHead(v) + (EncodeSlots(v.slots) + (EncodeTail(v) + padding));
    assert Encode(v) + padding == DISCRIMINATOR + body;
    assert (DISCRIMINATOR + body)[8..] == body;
    BodyBack(v, padding);
  }

  /** A timeout the program accepts survives the conversion to nanoseconds. */
  lemma TimeoutConvertsExactly(address: Pubkey, v: VaultData)
    requires v.Shaped() && MIN_TIMEOUT_SECONDS <= v.timeoutSeconds <= MAX_TIMEOUT_SECONDS
    ensures View(address, v).timeout == v.timeoutSeconds * SECOND
    ensures View(address, v).Deadline() == (v.lastCheckin + v.timeoutSeconds) * SECOND
  {
  }

  /** Wrapping loses nothing but multiples of the word. */
  lemma WrapKeepsResidue(x: int)
    ensures (Wrap64(x) - x) % 0x1_0000_0000_0000_0000 == 0
    ensures FitsI64(x) ==> Wrap64(x) == x
  {
  }

  /** The keeper's vault holds the stored one field by field: seconds as
      nanoseconds, up to multiples of the word for a timeout, and the heirs of
      exactly the slots in use, in order. */
  ghost predicate Keeps(r: KeeperVault, address: Pubkey, v: VaultData) {
    && r.address == address && r.owner == v.owner && r.vaultId == v.vaultId && r.mint == v.mint
    && r.lastCheckIn == v.lastCheckin * SECOND
    && (r.timeout - v.timeoutSeconds * SECOND) % 0x1_0000_0000_0000_0000 == 0
    && |r.beneficiaries| == v.count <= |v.slots|
    && (forall i :: 0 <= i < v.count ==> r.beneficiaries[i] == v.slots[i])
    && r.isClaimed == v.isClaimed && r.claimPool == v.claimPool && r.bump == v.bump
  }

  lemma ViewKeeps(address: Pubkey, v: VaultData)
    requires v.count <= |v.slots|
    ensures Keeps(View(address, v), address, v)
  {
    WrapKeepsResidue(v.timeoutSeconds * SECOND);
  }

  /** Whatever the program stores comes back field by field. */
  lemma StoredFieldsComeBack(address: Pubkey, v: VaultData, padding: Bytes)
    requires v.Shaped()
    ensures ParseVault(address, Encode(v) + padding).Ok?
    ensures Keeps(ParseVault(address, Encode(v) + padding).value, address, v)
    ensures MIN_TIMEOUT_SECONDS <= v.timeoutSeconds <= MAX_TIMEOUT_SECONDS ==>
              ParseVault(address, Encode(v) + padding).value.timeout == v.timeoutSeconds * SECOND
  {
    DecodeInvertsEncode(address, v, padding);
    ViewKeeps(address, v);
    WrapKeepsResidue(v.timeoutSeconds * SECOND);
  }

  // ---- which byte is which field

  lemma U8Is(data: Bytes, k: nat)
    requires k + 1 <= |data|
    ensures ParseU8(data[k..]) == Some((data[k], data[k + 1..]))
    ensures ParseBool(data[k..]) == Some((data[k] != 0, data[k + 1..]))
  {
    TakeAt(data, k, 1);
  }

  lemma U16Is(data: Bytes, k: nat)
    requires k + 2 <= |data|
    ensures ParseU16(data[k..]) == Some((FromLE16(data[k..k + 2]), data[k + 2..]))
  {
    TakeAt(data, k, 2);
  }

  lemma U64Is(data: Bytes, k: nat)
    requires k + 8 <= |data|
    ensures ParseU64(data[k..]) == Some((FromLE64(data[k..k + 8]), data[k + 8..]))
    ensures ParseI64(data[k..]) == Some((Signed(FromLE64(data[k..k + 8])), data[k + 8..]))
  {
    TakeAt(data, k, 8);
  }

  lemma KeyIs(data: Bytes, k: nat)
    requires k + 32 <= |data|
    ensures ParseKey(data[k..]) == Some((Pubkey(data[k..k + 32]), data[k + 32..]))
  {
    TakeAt(data, k, 32);
  }

  /** The heir stored from byte `k` on. */
  function HeirAt(data: Bytes, k: nat): Beneficiary
    requires k + 35 <= |data|
  {
    Beneficiary(Pubkey(data[k..k + 32]), FromLE16(data[k + 32..k + 34]), data[k + 34] != 0)
  }

  lemma SlotIs(data: Bytes, k: nat)
    requires k + 35 <= |data|
    ensures ParseSlot(data[k..]) == Some((HeirAt(data, k), data[k + 35..]))
  {
    KeyIs(data, k);
    U16Is(data, k + 32);
    U8Is(data, k + 34);
  }

  lemma {:induction false} SlotsAre(data: Bytes, k: nat, n: nat)
    requires k + 35 * n <= |data|
    ensures ParseSlots(data[k..], n).Some? && ParseSlots(data[k..], n).value.1 == data[k + 35 * n..]
    ensures forall i :: 0 <= i < n ==> ParseSlots(data[k..], n).value.0[i] == HeirAt(data, k + 35 * i)
  {
    if n > 0 {
      SlotsAre(data, k, n - 1);
      SlotIs(data, k + 35 * (n - 1));
      var before := ParseSlots(data[k..], n - 1).value.0;
      assert ParseSlots(data[k..], n).value == (before + [HeirAt(data, k + 35 * (n - 1))], data[k + 35 * n..]);
      forall i | 0 <= i < n ensures (before + [HeirAt(data, k + 35 * (n - 1))])[i] == HeirAt(data, k + 35 * i) {
        assert i < n - 1 || i == n - 1;
      }
    }
  }

  lemma MintIs(data: Bytes)
    requires |data| >= 48 + MintSize(data)
    ensures ParseMint(data[48..])
         == Some((if data[48] == 0 then None else Some(Pubkey(data[49..81])), data[48 + MintSize(data)..]))
  {
    U8Is(data, 48);
    if data[48] != 0 {
      KeyIs(data, 49);
    }
  }

  lemma HeadIs(data: Bytes)
    requires |data| >= 64 + MintSize(data)
    ensures var m := 48 + MintSize(data);
            ParseHead(data[8..])
            == Some((Layout.Head(Pubkey(data[8..40]), FromLE64(data[40..48]),
                                 if data[48] == 0 then None else Some(Pubkey(data[49..81])),
                                 Signed(FromLE64(data[m..m + 8])), Signed(FromLE64(data[m + 8..m + 16]))),
                     data[m + 16..]))
  {
    var m := 48 + MintSize(data);
    KeyIs(data, 8);
    U64Is(data, 40);
    MintIs(data);
    U64Is(data, m);
    U64Is(data, m + 8);
  }

  lemma TailIs(data: Bytes, k: nat)
    requires k + 11 <= |data|
    ensures ParseTail(data[k..])
         == Some((Layout.Tail(data[k], data[k + 1] != 0, FromLE64(data[k + 2..k + 10]), data[k + 10]), data[k + 11..]))
  {
    U8Is(data, k);
    U8Is(data, k + 1);
    U64Is(data, k + 2);
    U8Is(data, k + 10);
  }

  /** The whole table, stored from byte `k` on. */
  function HeirsAt(data: Bytes, k: nat): seq<Beneficiary>
    requires k + 175 <= |data|
  {
    seq(MAX_BENEFICIARIES, i requires 0 <= i < MAX_BENEFICIARIES => HeirAt(data, k + 35 * i))
  }

  lemma TableIs(data: Bytes, k: nat)
    requires k + 175 <= |data|
    ensures ParseSlots(data[k..], MAX_BENEFICIARIES) == Some((HeirsAt(data, k), data[k + 175..]))
  {
    SlotsAre(data, k, MAX_BENEFICIARIES);
    assert ParseSlots(data[k..], MAX_BENEFICIARIES).value.0 == HeirsAt(data, k);
  }

  /** The stored vault, each field by its offset: a mint moves what follows by 32. */
  function StoredAt(data: Bytes): VaultData
    requires |data| >= 250 + MintSize(data)
  {
    var m := 48 + MintSize(data);
    VaultData(Pubkey(data[8..40]), FromLE64(data[40..48]),
              if data[48] == 0 then None else Some(Pubkey(data[49..81])),
              Signed(FromLE64(data[m..m + 8])), Signed(FromLE64(data[m + 8..m + 16])),
              HeirsAt(data, m + 16),
              data[m + 191], data[m + 192] != 0, FromLE64(data[m + 193..m + 201]), data[m + 201])
  }

  lemma BodyIs(data: Bytes)
    requires |data| >= 250 + MintSize(data)
    ensures ParseBody(data[8..]) == Some(StoredAt(data))
  {
    var m := 48 + MintSize(data);
    HeadIs(data);
    TableIs(data, m + 16);
    TailIs(data, m + 191);
  }

  /** Every byte string that decodes, decodes to what stands at those offsets. */
  lemma FieldsByOffset(address: Pubkey, data: Bytes)
    requires ParseVault(address, data).Ok?
    ensures |data| >= 250 + MintSize(data)
    ensures Keeps(ParseVault(address, data).value, address, StoredAt(data))
  {
    DecodesIff(address, data);
    BodyIs(data);
    ViewKeeps(address, StoredAt(data));
  }
}
