/** The byte layout of a vault account: what the program writes (Borsh, little
    endian), and a parser that stops at the first read that fails. */
module Layout {
  import opened Base
  import opened VaultRules
  import opened KeeperVaults

  type Bytes = seq<u8>

  const DISCRIMINATOR: Bytes := [211, 8, 232, 43, 2, 152, 117, 119]
  const ACCOUNT_SIZE := 283

  // ---- integers

  function FromLE16(b: Bytes): u16
    requires |b| == 2
  {
    (b[0] as int) + 0x100 * (b[1] as int)
  }

  function FromLE64(b: Bytes): u64
    requires |b| == 8
  {
    (b[0] as int) + 0x100 * (b[1] as int) + 0x1_0000 * (b[2] as int) + 0x100_0000 * (b[3] as int)
    + 0x1_0000_0000 * (b[4] as int)
    + 0x100_0000_0000 * (b[5] as int) + 0x1_0000_0000_0000 * (b[6] as int) + 0x100_0000_0000_0000 * (b[7] as int)
  }

  /** The same 64 bits read as a signed integer. */
  function Signed(x: u64): i64 {
    if x > I64_MAX then x - 0x1_0000_0000_0000_0000 else x
  }

  function Unsigned(x: i64): u64 {
    if x < 0 then x + 0x1_0000_0000_0000_0000 else x
  }

  function ToLE16(x: u16): Bytes {
    [x % 0x100, x / 0x100]
  }

  function ToLE64(x: u64): Bytes {
    var q1 := x / 0x100;
    var q2 := q1 / 0x100;
    var q3 := q2 / 0x100;
    var q4 := q3 / 0x100;
    var q5 := q4 / 0x100;
    var q6 := q5 / 0x100;
    var q7 := q6 / 0x100;
    [x % 0x100, q1 % 0x100, q2 % 0x100, q3 % 0x100, q4 % 0x100, q5 % 0x100, q6 % 0x100, q7 % 0x100]
  }

  lemma LE16RoundTrip(x: u16)
    ensures FromLE16(ToLE16(x)) == x
  {
  }

  lemma LE64RoundTrip(x: u64)
    ensures FromLE64(ToLE64(x)) == x
  {
  }

  // ---- the parser

  type Parsed<T> = Option<(T, Bytes)>

  function Take(s: Bytes, n: nat): Parsed<Bytes> {
    if |s| < n then None else Some((s[..n], s[n..]))
  }

  function ParseU8(s: Bytes): Parsed<u8> {
    var (b, rest) :- Take(s, 1);
    Some((b[0], rest))
  }

  function ParseU16(s: Bytes): Parsed<u16> {
    var (b, rest) :- Take(s, 2);
    Some((FromLE16(b), rest))
  }

  function ParseU64(s: Bytes): Parsed<u64> {
    var (b, rest) :- Take(s, 8);
    Some((FromLE64(b), rest))
  }

  function ParseI64(s: Bytes): Parsed<i64> {
    var (x, rest) :- ParseU64(s);
    Some((Signed(x), rest))
  }

  function ParseBool(s: Bytes): Parsed<bool> {
    var (x, rest) :- ParseU8(s);
    Some((x != 0, rest))
  }

  function ParseKey(s: Bytes): Parsed<Pubkey> {
    var (b, rest) :- Take(s, 32);
    Some((Pubkey(b), rest))
  }

  /** One tag byte, then the key only when the tag is set. */
  function ParseMint(s: Bytes): Parsed<Option<Pubkey>> {
    var (some, rest) :- ParseBool(s);
    if !some then Some((None, rest))
    else
      var (key, rest') :- ParseKey(rest);
      Some((Some(key), rest'))
  }

  function ParseSlot(s: Bytes): Parsed<Beneficiary> {
    var (address, s1) :- ParseKey(s);
    var (bps, s2) :- ParseU16(s1);
    var (claimed, s3) :- ParseBool(s2);
    Some((Beneficiary(address, bps, claimed), s3))
  }

  function ParseSlots(s: Bytes, n: nat): (r: Parsed<seq<Beneficiary>>)
    ensures r.Some? ==> |r.value.0| == n
  {
    if n == 0 then Some(([], s))
    else
      var (slots, rest) :- ParseSlots(s, n - 1);
      var (slot, rest') :- ParseSlot(rest);
      Some((slots + [slot], rest'))
  }

  datatype Head = Head(owner: Pubkey, vaultId: u64, mint: Option<Pubkey>, lastCheckin: i64, timeout: i64)

  datatype Tail = Tail(count: u8, isClaimed: bool, claimPool: u64, bump: u8)

  function ParseHead(s: Bytes): Parsed<Head> {
    var (owner, s1) :- ParseKey(s);
    var (vaultId, s2) :- ParseU64(s1);
    var (mint, s3) :- ParseMint(s2);
    var (lastCheckin, s4) :- ParseI64(s3);
    var (timeout, s5) :- ParseI64(s4);
    Some((Head(owner, vaultId, mint, lastCheckin, timeout), s5))
  }

  function ParseTail(s: Bytes): Parsed<Tail> {
    var (count, s1) :- ParseU8(s);
    var (isClaimed, s2) :- ParseBool(s1);
    var (claimPool, s3) :- ParseU64(s2);
    var (bump, s4) :- ParseU8(s3);
    Some((Tail(count, isClaimed, claimPool, bump), s4))
  }

  function Assemble(h: Head, slots: seq<Beneficiary>, t: Tail): VaultData {
    VaultData(h.owner, h.vaultId, h.mint, h.lastCheckin, h.timeout, slots, t.count, t.isClaimed, t.claimPool, t.bump)
  }

  /** Everything after the discriminator; the bytes left over do not matter. */
  function ParseBody(s: Bytes): Option<VaultData> {
    var (h, s1) :- ParseHead(s);
    var (slots, s2) :- ParseSlots(s1, MAX_BENEFICIARIES);
    var (t, _) :- ParseTail(s2);
    Some(Assemble(h, slots, t))
  }

  datatype DecodeError = NotAVault | Truncated | TooManyHeirs

  /** A stored vault as the keeper holds it: instants and durations in
      nanoseconds, and only the slots in use. */
  function View(address: Pubkey, v: VaultData): KeeperVault
    requires v.count <= |v.slots|
  {
    KeeperVault(address, v.owner, v.vaultId, v.mint, v.lastCheckin * SECOND, Wrap64(v.timeoutSeconds * SECOND),
                v.slots[..v.count], v.isClaimed, v.claimPool, v.bump)
  }

  function ParseVault(address: Pubkey, data: Bytes): Result<KeeperVault, DecodeError> {
    if |data| < 8 || data[..8] != DISCRIMINATOR then Err(NotAVault)
    else
      match ParseBody(data[8..])
      case None => Err(Truncated)
      case Some(v) => if v.count > |v.slots| then Err(TooManyHeirs) else Ok(View(address, v))
  }

  // ---- what the program writes

  function EncodeBool(b: bool): u8 {
    if b then 1 else 0
  }

  function EncodeMint(mint: Option<Pubkey>): Bytes {
    if mint.None? then [0] else [1] + mint.value.bytes
  }

  function EncodeSlot(b: Beneficiary): Bytes {
    b.address.bytes + ToLE16(b.shareBps) + [EncodeBool(b.claimed)]
  }

  function EncodeSlots(slots: seq<Beneficiary>): Bytes {
    if slots == [] then [] else EncodeSlots(slots[..|slots| - 1]) + EncodeSlot(slots[|slots| - 1])
  }

  function EncodeHead(v: VaultData): Bytes {
    v.owner.bytes + ToLE64(v.vaultId) + EncodeMint(v.mint)
    + ToLE64(Unsigned(v.lastCheckin)) + ToLE64(Unsigned(v.timeoutSeconds))
  }

  function EncodeTail(v: VaultData): Bytes {
    [v.count] + [EncodeBool(v.isClaimed)] + ToLE64(v.claimPool) + [v.bump]
  }

  function Encode(v: VaultData): Bytes {
    DISCRIMINATOR + EncodeHead(v) + EncodeSlots(v.slots) + EncodeTail(v)
  }

  /** Signed and unsigned readings of the same 64 bits. */
  lemma SignedIsTwosComplement(x: u64)
    ensures (Signed(x) - x) % 0x1_0000_0000_0000_0000 == 0 && Unsigned(Signed(x)) == x
  {
  }
}
