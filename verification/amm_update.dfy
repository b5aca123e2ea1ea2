/**
 * The AMM's administrative switch: `update(locked)` lets the pool's
 * authority lock or unlock the pool. The instruction holds two guards and
 * one field write; everything else in the `Config` account stays as it was.
 */
module AmmUpdate {
  import opened Primitives

  /** The two errors of the AMM's error enum that `update` can raise. */
  datatype AmmError = NoAuthoritySet | InvalidAuthority

  /** A snapshot of the `Config` account, as a value. */
  datatype ConfigState = ConfigState(
    seed: u64,
    authority: Option<Pubkey>,
    mintX: Pubkey,
    mintY: Pubkey,
    fee: u16,
    locked: bool,
    configBump: u8)

  /**
   * What `update` does to a config when `signer` signs it: the authority
   * must be set, and equal to the signer, before `locked` is written.
   */
  function UpdateConfig(c: ConfigState, signer: Pubkey, locked: bool): (r: Result<ConfigState, AmmError>)
    ensures r.Ok? <==> c.authority == Some(signer)
    ensures c.authority.None? ==> r == Err(NoAuthoritySet)
    ensures c.authority.Some? && c.authority.value != signer ==> r == Err(InvalidAuthority)
    ensures r.Ok? ==> r.value.locked == locked && r.value.(locked := c.locked) == c
  {
    if c.authority.None? then Err(NoAuthoritySet)
    else if c.authority.value != signer then Err(InvalidAuthority)
    else Ok(c.(locked := locked))
  }

  /** The pool's `Config` account, updated in place by `update`. */
  class Config {
    var seed: u64
    var authority: Option<Pubkey>
    var mintX: Pubkey
    var mintY: Pubkey
    var fee: u16
    var locked: bool
    var configBump: u8

    function State(): ConfigState
      reads this
    {
      ConfigState(seed, authority, mintX, mintY, fee, locked, configBump)
    }

    constructor (c: ConfigState)
      ensures State() == c
    {
      seed, authority, mintX, mintY := c.seed, c.authority, c.mintX, c.mintY;
      fee, locked, configBump := c.fee, c.locked, c.configBump;
    }

    /** `Update::update`: the authority checks, then the write to `locked`. */
    method Update(signer: Pubkey, locked: bool) returns (r: Result<(), AmmError>)
      modifies this`locked
      ensures r.Ok? ==> UpdateConfig(old(State()), signer, locked) == Ok(State())
      ensures r.Err? ==> UpdateConfig(old(State()), signer, locked) == Err(r.error)
      ensures r.Err? ==> State() == old(State())
    {
      if authority.None? {
        return Err(NoAuthoritySet);
      }
      if authority.value != signer {
        return Err(InvalidAuthority);
      }
      this.locked := locked;
      return Ok(());
    }
  }

  /** Repeating an update changes nothing more: `update(b)` is idempotent. */
  lemma UpdateIdempotent(c: ConfigState, signer: Pubkey, locked: bool)
    requires UpdateConfig(c, signer, locked).Ok?
    ensures UpdateConfig(UpdateConfig(c, signer, locked).value, signer, locked) == UpdateConfig(c, signer, locked)
  {
  }

  /** Locking and then unlocking by the authority leaves the pool unlocked and otherwise as it was. */
  lemma LockThenUnlock(c: ConfigState, signer: Pubkey)
    requires c.authority == Some(signer)
    ensures UpdateConfig(c, signer, true).Ok?
    ensures UpdateConfig(UpdateConfig(c, signer, true).value, signer, false) == Ok(c.(locked := false))
  {
  }

  /** A pool created without an authority can never be locked or unlocked, by anyone. */
  lemma NoAuthorityIsPermanent(c: ConfigState, signer: Pubkey, locked: bool)
    requires c.authority.None?
    ensures UpdateConfig(c, signer, locked) == Err(NoAuthoritySet)
  {
  }

  /** The client's sequence: lock, then unlock, on one account. */
  method LockAndUnlock(config: Config, signer: Pubkey) returns (lockedAfterFirst: bool)
    requires config.authority == Some(signer)
    modifies config`locked
    ensures lockedAfterFirst && !config.locked
    ensures config.State() == old(config.State()).(locked := false)
  {
    var r := config.Update(signer, true);
    lockedAfterFirst := config.locked;
    r := config.Update(signer, false);
  }
}
