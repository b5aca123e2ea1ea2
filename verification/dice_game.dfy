/**
 * The dice game's bet resolution. The house proves it saw a bet by signing
 * the bet's bytes with Ed25519 in an instruction placed first in the same
 * transaction; `verify_ed25519_signature` checks that instruction's header
 * and that it signs exactly this bet with the house key and the given
 * signature. `resolve_bet` then turns the SHA-256 of the signature into a
 * roll in `[0, 100)` and pays `amount * 100 / roll` to a winner.
 *
 * The precompile's own signature check and SHA-256 are not modelled: the
 * instruction and the 32 hash bytes are inputs.
 */
module DiceGame {
  import opened Primitives
  import opened LittleEndian

  /** The errors of the game's error enum that bet resolution raises. */
  datatype DiceError =
    | Ed25519Program
    | Ed25519Accounts
    | Ed25519DataLength
    | Ed25519Header
    | Ed25519Signature
    | Ed25519Pubkey
    | Ed25519Message
    | Overflow

  datatype Error = Dice(e: DiceError) | Host(h: HostError)

  /** `ed25519_program::ID`, `Ed25519SigVerify111111111111111111111111111`. */
  const ED25519_PROGRAM_ID: Pubkey := [
    3, 125, 70, 214, 124, 147, 251, 190, 18, 249, 66, 143, 131, 141, 64, 255,
    5, 112, 116, 73, 39, 244, 138, 100, 252, 202, 112, 68, 128, 0, 0, 0]

  /** A transaction instruction as the instructions sysvar returns it. */
  datatype Instruction = Instruction(programId: Pubkey, accounts: seq<Pubkey>, data: seq<u8>)

  /** The `Bet` account's fields. */
  datatype Bet = Bet(player: Pubkey, seed: u128, slot: u64, amount: u64, roll: u8, bump: u8)

  const BET_LEN: nat := 66

  /**
   * `Bet::to_slice`: the bytes the house signs, `player` (32) then `seed`
   * (16), `slot` (8) and `amount` (8) little-endian, then `roll` and `bump`.
   */
  function BetToSlice(b: Bet): (bs: seq<u8>)
    ensures |bs| == BET_LEN
  {
    b.player + ToLe(b.seed as nat, 16) + ToLe(b.slot as nat, 8) + ToLe(b.amount as nat, 8) + [b.roll, b.bump]
  }

  /** Reads a bet back from its 66 bytes. */
  function BetFromSlice(bs: seq<u8>): (b: Option<Bet>)
    ensures b.Some? <==> |bs| == BET_LEN
  {
    if |bs| != BET_LEN then None
    else
      LimitValues();
      Some(Bet(bs[..32], FromLe(bs[32..48]) as u128, FromLe(bs[48..56]) as u64, FromLe(bs[56..64]) as u64,
               bs[64], bs[65]))
  }

  /** A bet's bytes decode to the bet: the serialization loses nothing. */
  lemma BetSliceRoundTrip(b: Bet)
    ensures BetFromSlice(BetToSlice(b)) == Some(b)
  {
    var bs := BetToSlice(b);
    LimitValues();
    assert bs[..32] == b.player;
    assert bs[32..48] == ToLe(b.seed as nat, 16);
    assert bs[48..56] == ToLe(b.slot as nat, 8);
    assert bs[56..64] == ToLe(b.amount as nat, 8);
    FromToLe(b.seed as nat, 16);
    FromToLe(b.slot as nat, 8);
    FromToLe(b.amount as nat, 8);
  }

  /** Distinct bets have distinct bytes, so a signature over the bytes binds one bet. */
  lemma BetToSliceInjective(b1: Bet, b2: Bet)
    requires BetToSlice(b1) == BetToSlice(b2)
    ensures b1 == b2
  {
    BetSliceRoundTrip(b1);
    BetSliceRoundTrip(b2);
  }

  /** `u16::from_le_bytes([data[i], data[i + 1]]) as usize`. */
  function OffsetAt(data: seq<u8>, i: nat): (r: nat)
    requires i + 1 < |data|
    ensures r == FromLe(data[i..i + 2]) && r < U16_LIMIT
  {
    assert data[i..i + 2] == [data[i], data[i + 1]];
    U16FromLe(data[i], data[i + 1]) as nat
  }

  /** Whether `data[start..start + len]` exists, and equals `expected`. */
  predicate SliceIs(data: seq<u8>, start: nat, len: nat, expected: seq<u8>)
  {
    start + len <= |data| && data[start..start + len] == expected
  }

  /**
   * `verify_ed25519_signature`: instruction 0 must be the Ed25519 precompile
   * with no accounts and more than 112 bytes of data announcing one
   * signature; the signature, public key and message it points at must be
   * `sig`, the house key and the bet's bytes. A slice out of range panics.
   */
  function VerifyEd25519Signature(ix: Option<Instruction>, sig: seq<u8>, house: Pubkey, bet: Bet): (r: Result<(), Error>)
    ensures ix.None? || ix.value.programId != ED25519_PROGRAM_ID ==> r == Err(Dice(Ed25519Program))
    ensures ix.Some? && ix.value.programId == ED25519_PROGRAM_ID && ix.value.accounts != [] ==>
      r == Err(Dice(Ed25519Accounts))
    ensures ix.Some? && ix.value.programId == ED25519_PROGRAM_ID && ix.value.accounts == [] ==>
      var data := ix.value.data;
      && (|data| <= 112 ==> r == Err(Dice(Ed25519DataLength)))
      && (|data| > 112 && data[0] != 1 ==> r == Err(Dice(Ed25519Header)))
      && (r.Ok? <==>
            && |data| > 112 && data[0] == 1
            && SliceIs(data, FromLe(data[2..4]), 64, sig)
            && SliceIs(data, FromLe(data[6..8]), 32, house)
            && SliceIs(data, FromLe(data[10..12]), FromLe(data[12..14]), BetToSlice(bet)))
    ensures ix.Some? && ix.value.programId == ED25519_PROGRAM_ID && ix.value.accounts == []
            && |ix.value.data| > 112 && ix.value.data[0] == 1 ==>
      var data := ix.value.data;
      var sigAt, keyAt, msgAt, msgLen := FromLe(data[2..4]), FromLe(data[6..8]), FromLe(data[10..12]), FromLe(data[12..14]);
      && (sigAt + 64 > |data| ==> r == Err(Host(Panic)))
      && (sigAt + 64 <= |data| && data[sigAt..sigAt + 64] != sig ==> r == Err(Dice(Ed25519Signature)))
      && (SliceIs(data, sigAt, 64, sig) && keyAt + 32 > |data| ==> r == Err(Host(Panic)))
      && ((SliceIs(data, sigAt, 64, sig) && keyAt + 32 <= |data| && data[keyAt..keyAt + 32] != house) ==>
            r == Err(Dice(Ed25519Pubkey)))
      && ((SliceIs(data, sigAt, 64, sig) && SliceIs(data, keyAt, 32, house) && msgAt + msgLen > |data|) ==>
            r == Err(Host(Panic)))
      && ((SliceIs(data, sigAt, 64, sig) && SliceIs(data, keyAt, 32, house) && msgAt + msgLen <= |data|
           && data[msgAt..msgAt + msgLen] != BetToSlice(bet)) ==> r == Err(Dice(Ed25519Message)))
  {
    if ix.None? then Err(Dice(Ed25519Program))
    else
      var ix := ix.value;
      if ix.programId != ED25519_PROGRAM_ID then Err(Dice(Ed25519Program))
      else if ix.accounts != [] then Err(Dice(Ed25519Accounts))
      else if !(|ix.data| > 112) then Err(Dice(Ed25519DataLength))
      else
        var data := ix.data;
        if data[0] != 1 then Err(Dice(Ed25519Header))
        else
          var sigOffset := OffsetAt(data, 2);
          var pubkeyOffset := OffsetAt(data, 6);
          var msgOffset := OffsetAt(data, 10);
          var msgSize := OffsetAt(data, 12);
          if sigOffset + 64 > |data| then Err(Host(Panic))
          else if data[sigOffset..sigOffset + 64] != sig then Err(Dice(Ed25519Signature))
          else if pubkeyOffset + 32 > |data| then Err(Host(Panic))
          else if data[pubkeyOffset..pubkeyOffset + 32] != house then Err(Dice(Ed25519Pubkey))
          else if msgOffset + msgSize > |data| then Err(Host(Panic))
          else if data[msgOffset..msgOffset + msgSize] != BetToSlice(bet) then Err(Dice(Ed25519Message))
          else Ok(())
  }

  /**
   * One verified Ed25519 instruction vouches for exactly one bet: if it
   * verifies for two bets, they are the same bet.
   */
  lemma VerifiedInstructionDeterminesBet(ix: Option<Instruction>, sig: seq<u8>, house: Pubkey, b1: Bet, b2: Bet)
    requires VerifyEd25519Signature(ix, sig, house, b1).Ok?
    requires VerifyEd25519Signature(ix, sig, house, b2).Ok?
    ensures b1 == b2
  {
    BetToSliceInjective(b1, b2);
  }

  /**
   * The 16-byte header a client writes for one signature: the count 1 and a
   * padding byte, then the `u16` signature offset, public-key offset,
   * message offset and message size, each instruction index `u16::MAX`.
   */
  function Ed25519HeaderBytes(msgSize: nat): (h: seq<u8>)
    requires msgSize < U16_LIMIT
    ensures |h| == 16
  {
    [1, 0] + ToLe(48, 2) + [0xff, 0xff] + ToLe(16, 2) + [0xff, 0xff] + ToLe(112, 2) + ToLe(msgSize, 2) + [0xff, 0xff]
  }

  /** The header's offset fields read back as 48, 16, 112 and the message size. */
  lemma Ed25519HeaderFields(msgSize: nat)
    requires msgSize < U16_LIMIT
    ensures var h := Ed25519HeaderBytes(msgSize);
      h[0] == 1 && FromLe(h[2..4]) == 48 && FromLe(h[6..8]) == 16 && FromLe(h[10..12]) == 112
      && FromLe(h[12..14]) == msgSize
  {
    var h := Ed25519HeaderBytes(msgSize);
    LimitValues();
    FieldReadsBack(h, 2, 48);
    FieldReadsBack(h, 6, 16);
    FieldReadsBack(h, 10, 112);
    FieldReadsBack(h, 12, msgSize);
  }

  /** A two-byte field holding `ToLe(x, 2)` reads back as `x`. */
  lemma FieldReadsBack(h: seq<u8>, i: nat, x: nat)
    requires i + 2 <= |h| && h[i..i + 2] == ToLe(x, 2) && x < Limit(2)
    ensures FromLe(h[i..i + 2]) == x
  {
    FromToLe(x, 2);
  }

  /**
   * The instruction data a client builds for one signature: the header, then
   * the public key at 16, the signature at 48 and the message at 112.
   */
  function Ed25519InstructionData(pubkey: Pubkey, sig: seq<u8>, msg: seq<u8>): (data: seq<u8>)
    requires |sig| == 64 && |msg| < U16_LIMIT
    ensures |data| == 112 + |msg|
  {
    Ed25519HeaderBytes(|msg|) + pubkey + sig + msg
  }

  /** The instruction the client places first is accepted for the bet whose bytes it signs. */
  lemma WellFormedInstructionVerifies(house: Pubkey, sig: seq<u8>, bet: Bet)
    requires |sig| == 64
    ensures VerifyEd25519Signature(
              Some(Instruction(ED25519_PROGRAM_ID, [], Ed25519InstructionData(house, sig, BetToSlice(bet)))),
              sig, house, bet).Ok?
  {
    var msg := BetToSlice(bet);
    var h := Ed25519HeaderBytes(|msg|);
    var data := Ed25519InstructionData(house, sig, msg);
    Ed25519HeaderFields(|msg|);
    assert data[..16] == h;
    assert data[2..4] == h[2..4] && data[6..8] == h[6..8] && data[10..12] == h[10..12] && data[12..14] == h[12..14];
    assert data[16..48] == house;
    assert data[48..112] == sig;
    assert data[112..112 + |msg|] == msg;
  }

  /** `buf.copy_from_slice(src)`: fills `buf` from a slice of the same length. */
  method CopyFromSlice(buf: array<u8>, src: seq<u8>)
    requires buf.Length == |src|
    modifies buf
    ensures buf[..] == src
  {
    for i := 0 to buf.Length
      invariant buf[..i] == src[..i]
    {
      buf[i] := src[i];
    }
  }

  /** The roll a 32-byte hash gives: its two little-endian `u128` halves added with wrap-around, mod 100. */
  function RollOf(hash: seq<u8>): (result: nat)
    requires |hash| == 32
    ensures result < 100
  {
    (FromLe(hash[..16]) + FromLe(hash[16..])) % U128_LIMIT % 100
  }

  /**
   * The roll `resolve_bet` derives from the hash of the signature, built as
   * the source builds it: each half copied into a 16-byte buffer and read
   * `u128::from_le_bytes`.
   */
  method Roll(hash: seq<u8>) returns (result: u128)
    requires |hash| == 32
    ensures result as int == RollOf(hash) && result < 100
  {
    var buf := new u8[16];
    CopyFromSlice(buf, hash[0..16]);
    LimitValues();
    var lower := FromLe(buf[..]) as u128;
    CopyFromSlice(buf, hash[16..32]);
    var upper := FromLe(buf[..]) as u128;
    assert hash[..16] == hash[0..16] && hash[16..] == hash[16..32];
    result := ((lower as int + upper as int) % U128_LIMIT) as u128 % 100;
  }

  /**
   * A winner's payout: `amount * 100` in `u128`, divided by the chosen roll
   * with `checked_div`, then cast `as u64`, which keeps the low 64 bits.
   */
  function Payout(amount: u64, roll: u8): (r: Result<u64, Error>)
    ensures roll == 0 ==> r == Err(Dice(Overflow))
    ensures roll > 0 ==> r.Ok? && r.value as int == (amount as int * 100 / roll as int) % U64_LIMIT
  {
    var scaled := amount as int * 100;
    if scaled >= U128_LIMIT then Err(Dice(Overflow))
    else if roll == 0 then Err(Dice(Overflow))
    else Ok(((scaled / roll as int) % U64_LIMIT) as u64)
  }

  /**
   * `resolve_bet`: the player wins when the roll is below the bet's `roll`,
   * and is then paid `Payout`; a loss pays nothing. The result is the
   * lamports the vault transfers to the player, if any.
   */
  method ResolveBet(hash: seq<u8>, bet: Bet) returns (r: Result<Option<u64>, Error>)
    requires |hash| == 32
    ensures r.Ok?
    ensures r.value.Some? <==> RollOf(hash) < bet.roll as int
    ensures r.value.Some? ==> Payout(bet.amount, bet.roll) == Ok(r.value.value)
  {
    var result := Roll(hash);
    if (result as int as u8) < bet.roll {
      var payout := Payout(bet.amount, bet.roll);
      if payout.Err? {
        return Err(Dice(Overflow));
      }
      return Ok(Some(payout.value));
    }
    return Ok(None);
  }

  /** A winning roll is below the bet's `roll`, so the divisor is at least 1 and the division cannot fail. */
  lemma WinningRollDivides(hash: seq<u8>, bet: Bet)
    requires |hash| == 32 && RollOf(hash) < bet.roll as int
    ensures Payout(bet.amount, bet.roll).Ok?
  {
  }

  /** A winner whose payout is not truncated gets back at least the stake when `roll <= 100`. */
  lemma PayoutAtLeastAmount(amount: u64, roll: u8)
    requires 1 <= roll <= 100
    requires amount as int * 100 / roll as int < U64_LIMIT
    ensures Payout(amount, roll).Ok? && Payout(amount, roll).value >= amount
  {
    var a, k := amount as int, roll as int;
    assert a * k <= a * 100 by { MulLeft(a, k, 100); }
    DivLowerBound(a * 100, k, a);
  }

  lemma MulLeft(a: nat, b: int, c: int)
    requires b <= c
    ensures a * b <= a * c
  {
  }

  lemma DivLowerBound(x: nat, k: nat, q: nat)
    requires k > 0 && q * k <= x
    ensures q <= x / k
  {
    var d := x / k;
    assert x == d * k + x % k && x % k < k;
    if q > d {
      assert (d + 1) * k <= q * k by { MulLeft(k, d + 1, q); }
      assert false;
    }
  }

  /** The `as u64` cast wraps: staking `2^63` lamports on roll 1 and winning pays nothing. */
  lemma PayoutTruncates()
    ensures Payout(0x8000_0000_0000_0000, 1) == Ok(0)
  {
  }
}
