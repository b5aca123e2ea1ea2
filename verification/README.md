# Four Anchor programs, modelled in Dafny

This project models the on-chain instruction handlers of four Solana
programs written with Anchor. Each handler is a short state change guarded
by checks. The handlers of the AMM, voting and staking programs are each
modelled twice: once as a pure function from the accounts before the call
to the accounts after it (or an error), and once as a class method that
updates the accounts in place and is proved to agree with that function.
The dice game's signature check is a pure function over the instruction
bytes, and its bet resolution is a method that builds the roll in a
buffer and returns the payout.

- **AMM** (`amm_update.dfy`): `update(locked)` lets the pool's authority
  lock or unlock the pool's `Config` account.
- **Quadratic voting** (`quadratic_voting.dfy`): the program creates polls
  with a voting window, adds candidates to a poll, and adds votes to a
  candidate's tally. The store invariant says that each poll's `candidates`
  counter equals the number of its candidate accounts.
- **NFT staking** (`nft_staking.dfy`): users stake, unstake and claim. Each
  user's `amount_staked` equals their number of stake records and stays at
  most `max_stake`. Points are earned per whole day staked, with the
  source's `i64` and `u32` arithmetic. Claiming mints
  `points * 10^decimals` reward tokens and resets the points.
- **Dice game** (`dice_game.dfy`): `verify_ed25519_signature` parses the
  Ed25519 precompile instruction that the house places first in the
  transaction. `resolve_bet` derives the roll from the hash of the
  signature and computes the winner's payout.
- `primitives.dfy` holds Rust's integer widths and the checked, saturating
  and casting operations the handlers use. It also holds the runtime
  errors: account already in use, account not initialized, seed too long
  and panic. `little_endian.dfy` holds the little-endian byte codec.

Accounts live at program-derived addresses, so each program's accounts are
maps keyed by the seeds of those addresses. An `init` account whose key is
already present fails with "account already in use". A `seeds` account
whose key is absent fails with "account not initialized". A failed
transaction leaves every account as it was.

The programs' integer types are modelled as `newtype`s over `int`, with
every overflow check, wrap-around and cast written out. Anchor reports a
program's own errors as 6000 plus the variant's position in its enum.

The Rust definitions of the NFT-staking account structs are not among the
sources; the model's `StakeConfig`, `UserAccount` and `StakeAccount` take
their field widths, inferred from how the handlers use the fields:
`points_per_stake: u8`, `max_stake: u8`, `freeze_period: u32`,
`points: u32`, `amount_staked: u8` and `staked_at: i64`. The Rust definition
of the AMM's `Config` struct is not among the sources either: the fields of
the model's `ConfigState` and `Config` class (`seed`, `authority`,
the two mints, `fee`, `locked`, `config_bump`) are inferred from the
`update` handler and the client tests, and a field it may also hold, such
as an LP-mint bump, is left out.

Errors are reported in the order the code raises them. Anchor first reads
the existing accounts, then creates the `init` accounts, then checks the
`constraint` clauses, and only then runs the handler. `vote` refuses zero
votes before it reads the clock. The window check reads the clock as
`unix_timestamp as u64`, so a negative timestamp becomes a value of at
least `2^63`: it falls after the end of any window whose `poll_end` is
below `2^63`, and can lie inside a window only when `poll_end` reaches it.

The dice game's verifier does not check the three instruction-index fields
of the Ed25519 header (bytes 4-5, 8-9 and 14-15). The model does not check
them either.

## Model

| member | source | states |
|---|---|---|
| Primitives.CheckedAddU64 | anchor-quadratic-voting/programs/anchor-quadratic-voting/src/instructions/initialise_candidate.rs:34 | `checked_add` on `u64`: `Some` exactly when the sum fits, and then it is the sum |
| Primitives.CheckedMulU64 | anchor-quadratic-voting/programs/anchor-quadratic-voting/src/instructions/vote.rs:47 | `checked_mul` on `u64`: `Some` exactly when the product fits, and then it is the product |
| Primitives.CheckedSubI64 | anchor-nft-staking-starter-q4-25/programs/anchor-nft-staking-q4-25/src/instructions/unstake.rs:67-69 | `checked_sub` on `i64`: `Some` exactly when the difference lies in the `i64` range, and then it is the difference |
| Primitives.CheckedMulI64 | anchor-nft-staking-starter-q4-25/programs/anchor-nft-staking-q4-25/src/instructions/unstake.rs:72-74 | `checked_mul` on `i64`: `Some` exactly when the product lies in the `i64` range, and then it is the product |
| Primitives.TruncDiv | anchor-nft-staking-starter-q4-25/programs/anchor-nft-staking-q4-25/src/instructions/unstake.rs:81 | signed division by a positive divisor truncates toward zero: the remainder has the sign of the dividend and is smaller than the divisor in magnitude |
| Primitives.LowU32 | anchor-nft-staking-starter-q4-25/programs/anchor-nft-staking-q4-25/src/instructions/unstake.rs:82-84 | `as u32` on an `i64` keeps the value modulo `2^32` |
| Primitives.AsU64 | anchor-quadratic-voting/programs/anchor-quadratic-voting/src/instructions/vote.rs:32 | `as u64` on an `i64` keeps non-negative values and adds `2^64` to negative ones |
| Primitives.SaturatingAddU32 | anchor-nft-staking-starter-q4-25/programs/anchor-nft-staking-q4-25/src/instructions/unstake.rs:87 | `saturating_add` on `u32`: the sum, or `u32::MAX` when the sum would exceed it |
| Primitives.Pow | anchor-nft-staking-starter-q4-25/programs/anchor-nft-staking-q4-25/src/instructions/claim.rs:61 | `10u64.pow(d)` on unbounded integers: a positive base gives a positive power |
| LittleEndian.FromLe | anchor-dice-game-starter-q4-25/programs/anchor-dice-game-q4-25/src/instructions/resolve_bet.rs:90-92 | `u128::from_le_bytes`: the unsigned value of a byte string, byte `i` weighing `256^i`; an `n`-byte value is below `256^n`, so two bytes always make a `u16` offset |
| LittleEndian.ToLe | anchor-dice-game-starter-q4-25/tests/anchor-dice-game-q4-25.ts:45-47 | `toArrayLike(Buffer, "le", n)` / `to_le_bytes`: the `n` least significant base-256 digits, least first, exactly `n` bytes; `FromToLe` and `ToFromLe` make it the inverse of `FromLe` |
| LittleEndian.FromToLe | anchor-dice-game-starter-q4-25/tests/anchor-dice-game-q4-25.ts:42-50 | decoding the `n`-byte little-endian encoding of a value below `256^n` returns the value |
| LittleEndian.ToFromLe | anchor-dice-game-starter-q4-25/tests/anchor-dice-game-q4-25.ts:42-50 | encoding the value of a byte string at its own length returns the string |
| LittleEndian.FromLeInjective | anchor-dice-game-starter-q4-25/tests/anchor-dice-game-q4-25.ts:42-50 | two byte strings of one length with the same little-endian value are equal |
| LittleEndian.U16FromLe | anchor-dice-game-starter-q4-25/programs/anchor-dice-game-q4-25/src/instructions/resolve_bet.rs:57-60 | `u16::from_le_bytes([lo, hi])` is the little-endian value of the two bytes |
| AmmUpdate.UpdateConfig | anchor-amm-starter-q4-25/programs/anchor-amm-q4-25/src/instructions/update.rs:17-30 | succeeds exactly when the authority is set and equals the signer; `NoAuthoritySet` is checked before `InvalidAuthority`; on success `locked` is the argument and every other field is unchanged |
| AmmUpdate.Config.Update | anchor-amm-starter-q4-25/programs/anchor-amm-q4-25/src/instructions/update.rs:17-30 | the method writes only `locked`; its new state is `UpdateConfig` of the old one, and an error leaves the account as it was |
| AmmUpdate.UpdateIdempotent | anchor-amm-starter-q4-25/programs/anchor-amm-q4-25/src/instructions/update.rs:27 | repeating a successful `update(b)` gives the same config |
| AmmUpdate.LockThenUnlock | anchor-amm-starter-q4-25/tests/anchor-amm-q4-25.ts:374-400 | the authority locks then unlocks: the pool ends unlocked with every other field as before |
| AmmUpdate.NoAuthorityIsPermanent | anchor-amm-starter-q4-25/programs/anchor-amm-q4-25/src/instructions/update.rs:18-21 | without an authority every update fails with `NoAuthoritySet`, whoever signs |
| AmmUpdate.LockAndUnlock | anchor-amm-starter-q4-25/tests/anchor-amm-q4-25.ts:374-400 | the client sequence on one account: locked after the first call, unlocked and otherwise unchanged after the second |
| QuadraticVoting.Code | anchor-quadratic-voting/programs/anchor-quadratic-voting/src/errors.rs:4-15 | each error is numbered 6000 plus its place in the enum, within 6000..6004 |
| QuadraticVoting.CodeInjective | anchor-quadratic-voting/programs/anchor-quadratic-voting/src/errors.rs:4-15 | distinct errors have distinct codes |
| QuadraticVoting.ApplyInitialisePoll | anchor-quadratic-voting/programs/anchor-quadratic-voting/src/instructions/initialise_poll.rs:10-37 | succeeds exactly when the id is unused and `poll_start < poll_end`; a used id fails `AccountAlreadyInUse` first, a bad window `InvalidPollDuration`; the new poll holds the arguments and `candidates == 0`; candidates and other polls are untouched |
| QuadraticVoting.ApplyInitialiseCandidate | anchor-quadratic-voting/programs/anchor-quadratic-voting/src/instructions/initialise_candidate.rs:10-39 | fails in order on a missing poll, a name longer than a 32-byte seed, an existing candidate, a counter at `u64::MAX`; otherwise the poll counter grows by one, no other poll field or poll changes, and the new candidate has the name and no votes |
| QuadraticVoting.InWindow | anchor-quadratic-voting/programs/anchor-quadratic-voting/src/instructions/vote.rs:32-41 | the clock reading read `as u64` lies between `poll_start` and `poll_end`, both included: a non-negative reading as itself, a negative one as itself plus `2^64` |
| QuadraticVoting.ApplyVote | anchor-quadratic-voting/programs/anchor-quadratic-voting/src/instructions/vote.rs:9-59 | fails in order on missing accounts, zero votes, a clock before the start or after the end, `num_votes^2` overflow, tally overflow; succeeds exactly when none applies; then only this candidate's tally changes, by `num_votes`, and the polls are unchanged |
| QuadraticVoting.VotingProgram.InitialisePoll | anchor-quadratic-voting/programs/anchor-quadratic-voting/src/instructions/initialise_poll.rs:21-39 | the new account state is `ApplyInitialisePoll` of the old one, an error changes nothing, and the store invariant is kept |
| QuadraticVoting.VotingProgram.InitialiseCandidate | anchor-quadratic-voting/programs/anchor-quadratic-voting/src/instructions/initialise_candidate.rs:27-41 | the new account state is `ApplyInitialiseCandidate` of the old one, an error changes nothing, and the store invariant is kept |
| QuadraticVoting.VotingProgram.Vote | anchor-quadratic-voting/programs/anchor-quadratic-voting/src/instructions/vote.rs:22-62 | the new account state is `ApplyVote` of the old one, the polls are never written, an error changes nothing, and the store invariant is kept |
| QuadraticVoting.InitialisePollKeepsValid | anchor-quadratic-voting/programs/anchor-quadratic-voting/src/instructions/initialise_poll.rs:29-37 | a new poll keeps every stored poll's window non-empty and every counter equal to its number of candidate accounts |
| QuadraticVoting.InitialiseCandidateKeepsValid | anchor-quadratic-voting/programs/anchor-quadratic-voting/src/instructions/initialise_candidate.rs:34-39 | a new candidate keeps each poll's counter equal to its number of candidate accounts |
| QuadraticVoting.VoteKeepsValid | anchor-quadratic-voting/programs/anchor-quadratic-voting/src/instructions/vote.rs:55-59 | a vote keeps the store invariant |
| QuadraticVoting.CandidatesCountInits | anchor-quadratic-voting/tests/anchor-quadratic-voting.ts:55-74 | after `n` successful candidate initialisations the poll counter has grown by `n` |
| QuadraticVoting.SecondPollInitFails | anchor-quadratic-voting/programs/anchor-quadratic-voting/src/instructions/initialise_poll.rs:10-16 | a second poll at the same id fails with `AccountAlreadyInUse` |
| QuadraticVoting.DuplicateCandidateFails | anchor-quadratic-voting/tests/anchor-quadratic-voting.ts:262-276 | a second candidate with the same name under the same poll fails with `AccountAlreadyInUse` |
| QuadraticVoting.CostOverflowsIff | anchor-quadratic-voting/programs/anchor-quadratic-voting/src/instructions/vote.rs:47 | `num_votes * num_votes` overflows `u64` exactly when `num_votes >= 2^32` |
| QuadraticVoting.WindowInclusive | anchor-quadratic-voting/programs/anchor-quadratic-voting/src/instructions/vote.rs:34-41 | a clock reading equal to the start or to the end is inside the window |
| QuadraticVoting.ZeroVotesCheckedFirst | anchor-quadratic-voting/tests/anchor-quadratic-voting.ts:242-256 | zero votes fail with `ZeroVotes` at every clock reading |
| QuadraticVoting.VotesAccumulate | anchor-quadratic-voting/tests/anchor-quadratic-voting.ts:104-115 | two successful votes add both counts to the tally |
| NftStaking.CheckAssets | anchor-nft-staking-starter-q4-25/programs/anchor-nft-staking-q4-25/src/instructions/stake.rs:18-32 | the asset and collection constraints pass exactly when both accounts are owned by the core program and hold data; the asset owner is checked first |
| NftStaking.ApplyStake | anchor-nft-staking-starter-q4-25/programs/anchor-nft-staking-q4-25/src/instructions/stake.rs:18-84 | fails in Anchor's order: a missing user account, an existing stake record, then the asset and collection constraints; succeeds exactly when the user account exists, the asset has no stake record, both accounts pass the asset and collection constraints and `amount_staked < max_stake`, so the checked add never fails; then the record holds user, asset and time, the count grows by one, and points and other users are unchanged |
| NftStaking.PointsEarned | anchor-nft-staking-starter-q4-25/programs/anchor-nft-staking-q4-25/src/instructions/unstake.rs:82-84 | the low 32 bits of `points_per_stake * days` when the `i64` product fits, `u32::MAX` (the low bits of `i64::MAX`) otherwise |
| NftStaking.FreezeSeconds | anchor-nft-staking-starter-q4-25/programs/anchor-nft-staking-q4-25/src/instructions/unstake.rs:72-74 | the freeze period in seconds never overflows: it is `freeze_period * 86400` |
| NftStaking.ApplyUnstake | anchor-nft-staking-starter-q4-25/programs/anchor-nft-staking-q4-25/src/instructions/unstake.rs:18-94 | fails in Anchor's order: a missing user account or stake record, the asset and collection constraints, then `NotOwner`, `InvalidAsset`, the `i64` subtraction overflow and `FreezePeriodNotPassed` in order; on success the record is closed, the count drops by one and points grow saturating by the points for whole days staked |
| NftStaking.ApplyClaim | anchor-nft-staking-starter-q4-25/programs/anchor-nft-staking-q4-25/src/instructions/claim.rs:49-62 | no points: success, nothing minted, nothing changed; `10^decimals` beyond `u64` panics; `points * 10^decimals` beyond `u64` fails with `ArithmeticOverflow`; when both fit, the claim succeeds, mints that product and resets points to zero |
| NftStaking.StakingProgram.Stake | anchor-nft-staking-starter-q4-25/programs/anchor-nft-staking-q4-25/src/instructions/stake.rs:64-101 | the new account state is `ApplyStake` of the old one, an error changes nothing, and the store invariant is kept |
| NftStaking.StakingProgram.Unstake | anchor-nft-staking-starter-q4-25/programs/anchor-nft-staking-q4-25/src/instructions/unstake.rs:65-126 | the new account state is `ApplyUnstake` of the old one, an error changes nothing, and the store invariant is kept |
| NftStaking.StakingProgram.Claim | anchor-nft-staking-starter-q4-25/programs/anchor-nft-staking-q4-25/src/instructions/claim.rs:49-82 | the new account state and the minted amount are `ApplyClaim` of the old state, a failed claim leaves the points as they were, and the store invariant is kept |
| NftStaking.StakeKeepsValid | anchor-nft-staking-starter-q4-25/programs/anchor-nft-staking-q4-25/src/instructions/stake.rs:66-84 | staking keeps `amount_staked <= max_stake` and each count equal to the user's number of stake records |
| NftStaking.UnstakeKeepsValid | anchor-nft-staking-starter-q4-25/programs/anchor-nft-staking-q4-25/src/instructions/unstake.rs:87-94 | unstaking keeps the same invariant |
| NftStaking.ClaimKeepsValid | anchor-nft-staking-starter-q4-25/programs/anchor-nft-staking-q4-25/src/instructions/claim.rs:57 | claiming keeps the same invariant |
| NftStaking.UnstakeNeverUnderflows | anchor-nft-staking-starter-q4-25/programs/anchor-nft-staking-q4-25/src/instructions/unstake.rs:89-94 | on a valid store a user who owns a stake record has `amount_staked >= 1`, so the checked decrement cannot fail |
| NftStaking.PointsEarnedNeverFallsBack | anchor-nft-staking-starter-q4-25/programs/anchor-nft-staking-q4-25/src/instructions/unstake.rs:81-84 | for any non-negative `i64` time staked the product fits in `i64`: the `i64::MAX` fallback is never used and the points are the product modulo `2^32` |
| NftStaking.UnstakeSucceedsAfterFreeze | anchor-nft-staking-starter-q4-25/programs/anchor-nft-staking-q4-25/src/instructions/unstake.rs:66-94 | with valid accounts owned by the user, unstake succeeds exactly when the time staked fits in `i64` and is at least the freeze period |
| NftStaking.StakeUnstakeRoundTrip | anchor-nft-staking-starter-q4-25/programs/anchor-nft-staking-q4-25/src/instructions/unstake.rs:81-94 | stake then unstake after the freeze period restores every record and count, and adds the points earned for the whole days in between |
| NftStaking.ClaimTwiceMintsOnce | anchor-nft-staking-starter-q4-25/programs/anchor-nft-staking-q4-25/src/instructions/claim.rs:52-57 | a claim right after a successful claim mints nothing and changes nothing |
| DiceGame.BetToSlice | anchor-dice-game-starter-q4-25/tests/anchor-dice-game-q4-25.ts:42-50 | the signed bet bytes are 66 long: key, seed, slot, amount, roll, bump |
| DiceGame.BetFromSlice | anchor-dice-game-starter-q4-25/tests/anchor-dice-game-q4-25.ts:42-50 | reads a bet back exactly from a 66-byte string |
| DiceGame.BetSliceRoundTrip | anchor-dice-game-starter-q4-25/tests/anchor-dice-game-q4-25.ts:42-50 | decoding the bytes of a bet returns the bet |
| DiceGame.BetToSliceInjective | anchor-dice-game-starter-q4-25/programs/anchor-dice-game-q4-25/src/instructions/resolve_bet.rs:75-78 | distinct bets have distinct bytes |
| DiceGame.OffsetAt | anchor-dice-game-starter-q4-25/programs/anchor-dice-game-q4-25/src/instructions/resolve_bet.rs:57-60 | an offset is the little-endian value of its two bytes and is below `2^16` |
| DiceGame.VerifyEd25519Signature | anchor-dice-game-starter-q4-25/programs/anchor-dice-game-q4-25/src/instructions/resolve_bet.rs:38-81 | fails in order on a wrong program or missing instruction, accounts, data of 112 bytes or less, a signature count other than 1, then for each slice in turn a panic when it is out of range or `Ed25519Signature`, `Ed25519Pubkey`, `Ed25519Message` when it differs; succeeds exactly when the slices at the encoded offsets are the signature, the house key and the bet bytes |
| DiceGame.VerifiedInstructionDeterminesBet | anchor-dice-game-starter-q4-25/programs/anchor-dice-game-q4-25/src/instructions/resolve_bet.rs:75-78 | an instruction that verifies for two bets verifies for one bet only |
| DiceGame.Ed25519HeaderBytes | anchor-dice-game-starter-q4-25/tests/anchor-dice-game-q4-25.ts:177-185 | the header a client writes for one signature is 16 bytes |
| DiceGame.Ed25519HeaderFields | anchor-dice-game-starter-q4-25/tests/anchor-dice-game-q4-25.ts:184 | that header reads back one signature at offset 48, the key at 16 and the message at 112 with its size |
| DiceGame.Ed25519InstructionData | anchor-dice-game-starter-q4-25/tests/anchor-dice-game-q4-25.ts:177-180 | the client instruction data is the header, key, signature and message, `112 + |msg|` bytes |
| DiceGame.WellFormedInstructionVerifies | anchor-dice-game-starter-q4-25/tests/anchor-dice-game-q4-25.ts:177-204 | the instruction a client builds for the bet with the house key and signature passes verification |
| DiceGame.CopyFromSlice | anchor-dice-game-starter-q4-25/programs/anchor-dice-game-q4-25/src/instructions/resolve_bet.rs:88-91 | `copy_from_slice` leaves the buffer equal to the source |
| DiceGame.RollOf | anchor-dice-game-starter-q4-25/programs/anchor-dice-game-q4-25/src/instructions/resolve_bet.rs:94 | the roll is below 100 |
| DiceGame.Roll | anchor-dice-game-starter-q4-25/programs/anchor-dice-game-q4-25/src/instructions/resolve_bet.rs:84-94 | the roll built through the 16-byte buffer is the two halves added modulo `2^128`, modulo 100 |
| DiceGame.Payout | anchor-dice-game-starter-q4-25/programs/anchor-dice-game-q4-25/src/instructions/resolve_bet.rs:98-102 | a zero roll fails with `Overflow`; otherwise `amount * 100 / roll` modulo `2^64` |
| DiceGame.ResolveBet | anchor-dice-game-starter-q4-25/programs/anchor-dice-game-q4-25/src/instructions/resolve_bet.rs:83-124 | never fails; pays exactly when the roll is below the bet's roll, and then pays `Payout` |
| DiceGame.WinningRollDivides | anchor-dice-game-starter-q4-25/programs/anchor-dice-game-q4-25/src/instructions/resolve_bet.rs:97-102 | a winning roll implies a non-zero divisor, so the payout is computed |
| DiceGame.PayoutAtLeastAmount | anchor-dice-game-starter-q4-25/programs/anchor-dice-game-q4-25/src/instructions/resolve_bet.rs:98-102 | with `1 <= roll <= 100` and no truncation, the payout is at least the amount staked |
| DiceGame.PayoutTruncates | anchor-dice-game-starter-q4-25/programs/anchor-dice-game-q4-25/src/instructions/resolve_bet.rs:102 | staking `2^63` on roll 1 and winning pays 0, because the cast keeps the low 64 bits |

## Left out

- Cross-program calls are not modelled: the mpl-core freeze plugin calls in stake and unstake, the SPL `mint_to` in claim, and the system transfer in `resolve_bet`. Claim and `resolve_bet` return the amount they would mint or transfer. A failure inside one of these calls is not modelled.
- SHA-256 and the Ed25519 precompile's own signature check are foreign code. The 32 hash bytes and the instruction the sysvar returns are inputs.
- `Clock::get` becomes a `now: i64` parameter. `msg!` logging, the `lib.rs` dispatch, rent, account space and bump derivation are not modelled. Bumps are parameters.
- Closing the bet account after `resolve_bet` is not modelled. Neither is the vault's balance: a transfer the vault cannot cover is not modelled.
- The instructions that create the staking config, user accounts, bets and AMM pools are not part of this model. Neither are the AMM's deposit, swap and withdraw: their source is not part of this model. The devnet client scripts are client-side I/O and are also left out.
- Candidate names are byte strings. Rust's UTF-8 `String` check is not modelled. A name longer than 32 bytes fails as a seed before the account's 64-byte `max_len` can matter.
- NftStaking.ApplyClaim: `10u64.pow(decimals)` overflow is modelled as a panic. This assumes the build enables overflow checks. Without them the power would wrap.
- DiceGame.PayoutAtLeastAmount: the payout is at least the stake only when `amount * 100 / roll` fits in `u64`. Otherwise the `as u64` cast truncates it, as `PayoutTruncates` shows.
- NftStaking.StakeUnstakeRoundTrip: requires the time between the two calls to fit in `i64`, because otherwise unstake fails with an overflow.
