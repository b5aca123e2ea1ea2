/**
 * The NFT-staking program: a user freezes an asset to stake it, later
 * unstakes it to earn points per whole day staked, and claims the points as
 * reward tokens.
 *
 * The user account lives at seeds `["user", user]` and a stake record at
 * `["stake", config, asset]`; since there is one config, the stake records
 * are keyed by the asset's key. The config is read-only here.
 */
module NftStaking {
  import opened Primitives

  /** The errors of the program's error enum that these instructions raise. */
  datatype StakeError =
    | MaxStakeReached
    | FreezePeriodNotPassed
    | NotOwner
    | InvalidAsset
    | AssetNotInitialized
    | InvalidCollection
    | CollectionNotInitialized

  datatype Error = Staking(e: StakeError) | Host(h: HostError)

  const SECONDS_PER_DAY: int := 86400

  datatype StakeConfig = StakeConfig(pointsPerStake: u8, maxStake: u8, freezePeriod: u32, rewardsBump: u8, bump: u8)

  datatype UserAccount = UserAccount(points: u32, amountStaked: u8, bump: u8)

  datatype StakeAccount = StakeAccount(owner: Pubkey, mint: Pubkey, stakedAt: i64, bump: u8)

  /**
   * An unchecked account (the asset or its collection) as its constraints
   * see it: its key, whether the mpl-core program owns it, whether its data
   * is empty.
   */
  datatype AccountInfo = AccountInfo(key: Pubkey, ownedByCore: bool, dataIsEmpty: bool)

  /** The program's mutable accounts: user accounts by user, stake records by asset. */
  datatype Store = Store(users: map<Pubkey, UserAccount>, stakes: map<Pubkey, StakeAccount>)

  /** The assets `user` has staked. */
  ghost function StakedBy(s: Store, user: Pubkey): set<Pubkey>
  {
    set a | a in s.stakes.Keys && s.stakes[a].owner == user
  }

  /**
   * What every reachable store satisfies: each stake record names the asset
   * it is stored under and belongs to a user with an account; each user's
   * `amount_staked` is the number of their stake records and at most
   * `max_stake`.
   */
  ghost predicate Valid(cfg: StakeConfig, s: Store)
  {
    && (forall a :: a in s.stakes ==> s.stakes[a].mint == a && s.stakes[a].owner in s.users)
    && (forall u :: u in s.users ==> s.users[u].amountStaked <= cfg.maxStake)
    && (forall u :: u in s.users ==> s.users[u].amountStaked as int == |StakedBy(s, u)|)
  }

  /** The `asset` and `collection` account constraints shared by stake and unstake, in order. */
  function CheckAssets(asset: AccountInfo, collection: AccountInfo): (r: Option<Error>)
    ensures r.None? <==> asset.ownedByCore && !asset.dataIsEmpty && collection.ownedByCore && !collection.dataIsEmpty
    ensures !asset.ownedByCore ==> r == Some(Staking(InvalidAsset))
  {
    if !asset.ownedByCore then Some(Staking(InvalidAsset))
    else if asset.dataIsEmpty then Some(Staking(AssetNotInitialized))
    else if !collection.ownedByCore then Some(Staking(InvalidCollection))
    else if collection.dataIsEmpty then Some(Staking(CollectionNotInitialized))
    else None
  }

  /**
   * `Stake::stake` with its account checks in the order Anchor runs them:
   * the user account is read, the stake record is created, then the asset
   * and collection constraints are checked. The handler refuses once the
   * user has `max_stake` assets staked, records the stake at time `now` and
   * counts it.
   */
  function ApplyStake(cfg: StakeConfig, s: Store, user: Pubkey, asset: AccountInfo, collection: AccountInfo,
                      now: i64, bump: u8): (r: Result<Store, Error>)
    ensures user !in s.users ==> r == Err(Host(AccountNotInitialized))
    ensures user in s.users && asset.key in s.stakes ==> r == Err(Host(AccountAlreadyInUse))
    ensures user in s.users && asset.key !in s.stakes && CheckAssets(asset, collection).Some? ==>
      r == Err(CheckAssets(asset, collection).value)
    ensures r.Ok? <==> (CheckAssets(asset, collection).None? && user in s.users && asset.key !in s.stakes
                        && s.users[user].amountStaked < cfg.maxStake)
    ensures (CheckAssets(asset, collection).None? && user in s.users && asset.key !in s.stakes
             && s.users[user].amountStaked >= cfg.maxStake) ==> r == Err(Staking(MaxStakeReached))
    ensures r.Ok? ==> r.value.stakes == s.stakes[asset.key := StakeAccount(user, asset.key, now, bump)]
    ensures r.Ok? ==> (r.value.users.Keys == s.users.Keys
      && r.value.users[user].amountStaked as int == s.users[user].amountStaked as int + 1
      && r.value.users[user].points == s.users[user].points
      && r.value.users[user].bump == s.users[user].bump
      && forall u :: u in s.users && u != user ==> r.value.users[u] == s.users[u])
  {
    if user !in s.users then Err(Host(AccountNotInitialized))
    else if asset.key in s.stakes then Err(Host(AccountAlreadyInUse))
    else if CheckAssets(asset, collection).Some? then Err(CheckAssets(asset, collection).value)
    else
      var account := s.users[user];
      if !(account.amountStaked < cfg.maxStake) then Err(Staking(MaxStakeReached))
      else if account.amountStaked as int + 1 >= U8_LIMIT then Err(Host(ArithmeticOverflow))
      else
        Ok(Store(s.users[user := account.(amountStaked := account.amountStaked + 1)],
                 s.stakes[asset.key := StakeAccount(user, asset.key, now, bump)]))
  }

  /**
   * The points earned for `days` whole days: `points_per_stake * days` in
   * `i64`, `i64::MAX` if that overflows, then cast `as u32`.
   */
  function PointsEarned(pointsPerStake: u8, days: i64): (r: u32)
    ensures I64_MIN <= pointsPerStake as int * days as int <= I64_MAX ==>
      r as int == (pointsPerStake as int * days as int) % U32_LIMIT
    ensures !(I64_MIN <= pointsPerStake as int * days as int <= I64_MAX) ==> r as int == U32_MAX
  {
    match CheckedMulI64(pointsPerStake as int as i64, days)
    case Some(p) => LowU32(p)
    case None => LowU32(I64_MAX as i64)
  }

  /**
   * `freeze_period` in seconds: `(freeze_period as i64).checked_mul(86400)`.
   * A `u32` count of days times 86400 stays below `2^49`, so the checked
   * multiplication never fails.
   */
  function FreezeSeconds(cfg: StakeConfig): (r: Option<i64>)
    ensures r.Some? && r.value as int == cfg.freezePeriod as int * SECONDS_PER_DAY
  {
    CheckedMulI64(cfg.freezePeriod as int as i64, SECONDS_PER_DAY as i64)
  }

  /**
   * `Unstake::unstake` with its account checks in the order Anchor runs
   * them: the user account and stake record are read, then the asset and
   * collection constraints are checked, then the record must belong to the
   * user and name the asset; the freeze period must have
   * passed; points for the whole days staked are added, saturating at
   * `u32::MAX`; the count drops by one and the record is closed.
   */
  function ApplyUnstake(cfg: StakeConfig, s: Store, user: Pubkey, asset: AccountInfo, collection: AccountInfo,
                        now: i64): (r: Result<Store, Error>)
    ensures user !in s.users || asset.key !in s.stakes ==> r == Err(Host(AccountNotInitialized))
    ensures user in s.users && asset.key in s.stakes && CheckAssets(asset, collection).Some? ==>
      r == Err(CheckAssets(asset, collection).value)
    ensures (CheckAssets(asset, collection).None? && user in s.users && asset.key in s.stakes) ==>
      var st := s.stakes[asset.key];
      && (st.owner != user ==> r == Err(Staking(NotOwner)))
      && (st.owner == user && st.mint != asset.key ==> r == Err(Staking(InvalidAsset)))
      && ((st.owner == user && st.mint == asset.key
           && !(I64_MIN <= now as int - st.stakedAt as int <= I64_MAX)) ==> r == Err(Host(ArithmeticOverflow)))
      && ((st.owner == user && st.mint == asset.key && now as int - st.stakedAt as int <= I64_MAX
           && now as int - st.stakedAt as int >= I64_MIN
           && now as int - st.stakedAt as int < cfg.freezePeriod as int * SECONDS_PER_DAY) ==>
            r == Err(Staking(FreezePeriodNotPassed)))
    ensures r.Ok? ==>
      && user in s.users && asset.key in s.stakes
      && var st, u := s.stakes[asset.key], s.users[user];
      && var elapsed := now as int - st.stakedAt as int;
      && st.owner == user && st.mint == asset.key
      && cfg.freezePeriod as int * SECONDS_PER_DAY <= elapsed <= I64_MAX
      && u.amountStaked >= 1
      && r.value.stakes == s.stakes - {asset.key}
      && r.value.users == s.users[user := u.(
           points := SaturatingAddU32(u.points, PointsEarned(cfg.pointsPerStake, (elapsed / SECONDS_PER_DAY) as i64)),
           amountStaked := (u.amountStaked as int - 1) as u8)]
  {
    if user !in s.users || asset.key !in s.stakes then Err(Host(AccountNotInitialized))
    else if CheckAssets(asset, collection).Some? then Err(CheckAssets(asset, collection).value)
    else
      var st, u := s.stakes[asset.key], s.users[user];
      if st.owner != user then Err(Staking(NotOwner))
      else if st.mint != asset.key then Err(Staking(InvalidAsset))
      else match CheckedSubI64(now, st.stakedAt)
        case None => Err(Host(ArithmeticOverflow))
        case Some(timeStaked) =>
          match FreezeSeconds(cfg)
          case None => Err(Host(ArithmeticOverflow))
          case Some(freezeSeconds) =>
            if !(timeStaked >= freezeSeconds) then Err(Staking(FreezePeriodNotPassed))
            else
              var days := TruncDiv(timeStaked as int, SECONDS_PER_DAY) as i64;
              var points := SaturatingAddU32(u.points, PointsEarned(cfg.pointsPerStake, days));
              if u.amountStaked == 0 then Err(Host(ArithmeticOverflow))
              else
                Ok(Store(s.users[user := u.(points := points, amountStaked := u.amountStaked - 1)],
                         s.stakes - {asset.key}))
  }

  /** What a claim produces: the new accounts and the amount minted, if any. */
  datatype Claimed = Claimed(store: Store, minted: Option<u64>)

  /**
   * `Claim::claim`: with no points it succeeds and mints nothing; otherwise
   * it resets the points and mints `points * 10^decimals` reward tokens.
   * `10u64.pow(decimals)` is unchecked and panics for `decimals >= 20`.
   */
  function ApplyClaim(s: Store, user: Pubkey, decimals: u8): (r: Result<Claimed, Error>)
    ensures user !in s.users ==> r == Err(Host(AccountNotInitialized))
    ensures user in s.users && s.users[user].points == 0 ==> r == Ok(Claimed(s, None))
    ensures (user in s.users && s.users[user].points > 0 && Pow(10, decimals as nat) >= U64_LIMIT) ==>
      r == Err(Host(Panic))
    ensures (user in s.users && s.users[user].points > 0 && Pow(10, decimals as nat) < U64_LIMIT
             && s.users[user].points as int * Pow(10, decimals as nat) >= U64_LIMIT) ==>
      r == Err(Host(ArithmeticOverflow))
    ensures (user in s.users && s.users[user].points > 0 && Pow(10, decimals as nat) < U64_LIMIT
             && s.users[user].points as int * Pow(10, decimals as nat) < U64_LIMIT) ==>
      r.Ok? && r.value.minted.Some?
    ensures r.Ok? && r.value.minted.Some? ==>
      && user in s.users
      && r.value.minted.value as int == s.users[user].points as int * Pow(10, decimals as nat)
      && r.value.minted.value > 0
      && r.value.store == Store(s.users[user := s.users[user].(points := 0)], s.stakes)
  {
    if user !in s.users then Err(Host(AccountNotInitialized))
    else
      var u := s.users[user];
      if u.points == 0 then Ok(Claimed(s, None))
      else
        var scale := Pow(10, decimals as nat);
        if scale >= U64_LIMIT then Err(Host(Panic))
        else match CheckedMulU64(u.points as int as u64, scale as u64)
          case None => Err(Host(ArithmeticOverflow))
          case Some(amount) =>
            Ok(Claimed(Store(s.users[user := u.(points := 0)], s.stakes), Some(amount)))
  }

  /** The program's accounts, updated in place by stake, unstake and claim. */
  class StakingProgram {
    const config: StakeConfig
    var users: map<Pubkey, UserAccount>
    var stakes: map<Pubkey, StakeAccount>

    function State(): Store
      reads this
    {
      Store(users, stakes)
    }

    /**
     * The program as it stands once the config and some user accounts exist
     * and nothing is staked yet.
     */
    constructor (config: StakeConfig, users: map<Pubkey, UserAccount>)
      requires forall u :: u in users ==> users[u].amountStaked == 0
      ensures this.config == config && State() == Store(users, map[]) && Valid(config, State())
    {
      this.config := config;
      this.users, stakes := users, map[];
      new;
      forall u | u in users ensures |StakedBy(State(), u)| == 0 {
        assert StakedBy(State(), u) == {};
      }
    }

    method Stake(user: Pubkey, asset: AccountInfo, collection: AccountInfo, now: i64, bump: u8)
      returns (r: Result<(), Error>)
      requires Valid(config, State())
      modifies this
      ensures Valid(config, State())
      ensures r.Ok? ==> ApplyStake(config, old(State()), user, asset, collection, now, bump) == Ok(State())
      ensures r.Err? ==> ApplyStake(config, old(State()), user, asset, collection, now, bump) == Err(r.error)
      ensures r.Err? ==> State() == old(State())
    {
      if user !in users {
        return Err(Host(AccountNotInitialized));
      }
      if asset.key in stakes {
        return Err(Host(AccountAlreadyInUse));
      }
      var bad := CheckAssets(asset, collection);
      if bad.Some? {
        return Err(bad.value);
      }
      var account := users[user];
      if !(account.amountStaked < config.maxStake) {
        return Err(Staking(MaxStakeReached));
      }
      // The runtime discards every write of a failed transaction, so the
      // count is checked here, before the record is written.
      if account.amountStaked as int + 1 >= U8_LIMIT {
        return Err(Host(ArithmeticOverflow));
      }
      stakes := stakes[asset.key := StakeAccount(user, asset.key, now, bump)];
      users := users[user := account.(amountStaked := account.amountStaked + 1)];
      StakeKeepsValid(config, old(State()), user, asset, collection, now, bump);
      return Ok(());
    }

    method Unstake(user: Pubkey, asset: AccountInfo, collection: AccountInfo, now: i64)
      returns (r: Result<(), Error>)
      requires Valid(config, State())
      modifies this
      ensures Valid(config, State())
      ensures r.Ok? ==> ApplyUnstake(config, old(State()), user, asset, collection, now) == Ok(State())
      ensures r.Err? ==> ApplyUnstake(config, old(State()), user, asset, collection, now) == Err(r.error)
      ensures r.Err? ==> State() == old(State())
    {
      if user !in users || asset.key !in stakes {
        return Err(Host(AccountNotInitialized));
      }
      var bad := CheckAssets(asset, collection);
      if bad.Some? {
        return Err(bad.value);
      }
      var stake := stakes[asset.key];
      if stake.owner != user {
        return Err(Staking(NotOwner));
      }
      if stake.mint != asset.key {
        return Err(Staking(InvalidAsset));
      }
      var timeStaked := CheckedSubI64(now, stake.stakedAt);
      if timeStaked.None? {
        return Err(Host(ArithmeticOverflow));
      }
      var freezeSeconds := FreezeSeconds(config);
      if freezeSeconds.None? {
        return Err(Host(ArithmeticOverflow));
      }
      if !(timeStaked.value >= freezeSeconds.value) {
        return Err(Staking(FreezePeriodNotPassed));
      }
      var days := TruncDiv(timeStaked.value as int, SECONDS_PER_DAY) as i64;
      var pointsEarned := PointsEarned(config.pointsPerStake, days);
      var account := users[user];
      // As in stake, the decrement is checked before any write.
      if account.amountStaked == 0 {
        return Err(Host(ArithmeticOverflow));
      }
      users := users[user := account.(points := SaturatingAddU32(account.points, pointsEarned),
                                      amountStaked := account.amountStaked - 1)];
      // `close = user`: the stake record is closed once the handler succeeds.
      stakes := stakes - {asset.key};
      UnstakeKeepsValid(config, old(State()), user, asset, collection, now);
      return Ok(());
    }

    method Claim(user: Pubkey, decimals: u8) returns (r: Result<Option<u64>, Error>)
      requires Valid(config, State())
      modifies this
      ensures Valid(config, State())
      ensures r.Ok? ==> ApplyClaim(old(State()), user, decimals) == Ok(Claimed(State(), r.value))
      ensures r.Err? ==> ApplyClaim(old(State()), user, decimals) == Err(r.error)
      ensures r.Err? ==> State() == old(State())
    {
      if user !in users {
        return Err(Host(AccountNotInitialized));
      }
      var points := users[user].points;
      if points == 0 {
        return Ok(None);
      }
      var usersBefore := users;
      users := users[user := users[user].(points := 0)];
      var scale := Pow(10, decimals as nat);
      if scale >= U64_LIMIT {
        users := usersBefore;
        return Err(Host(Panic));
      }
      var amount := CheckedMulU64(points as int as u64, scale as u64);
      if amount.None? {
        // The failed transaction rolls back the reset.
        users := usersBefore;
        return Err(Host(ArithmeticOverflow));
      }
      ClaimKeepsValid(config, old(State()), user, decimals);
      return Ok(Some(amount.value));
    }
  }

  lemma StakeKeepsValid(cfg: StakeConfig, s: Store, user: Pubkey, asset: AccountInfo, collection: AccountInfo,
                        now: i64, bump: u8)
    requires Valid(cfg, s)
    ensures ApplyStake(cfg, s, user, asset, collection, now, bump).Ok? ==>
      Valid(cfg, ApplyStake(cfg, s, user, asset, collection, now, bump).value)
  {
    var r := ApplyStake(cfg, s, user, asset, collection, now, bump);
    if r.Ok? {
      var t := r.value;
      forall u | u in t.users ensures t.users[u].amountStaked as int == |StakedBy(t, u)| {
        if u == user {
          assert StakedBy(t, u) == StakedBy(s, u) + {asset.key};
        } else {
          assert StakedBy(t, u) == StakedBy(s, u);
        }
      }
    }
  }

  lemma UnstakeKeepsValid(cfg: StakeConfig, s: Store, user: Pubkey, asset: AccountInfo, collection: AccountInfo,
                          now: i64)
    requires Valid(cfg, s)
    ensures ApplyUnstake(cfg, s, user, asset, collection, now).Ok? ==>
      Valid(cfg, ApplyUnstake(cfg, s, user, asset, collection, now).value)
  {
    var r := ApplyUnstake(cfg, s, user, asset, collection, now);
    if r.Ok? {
      var t := r.value;
      forall u | u in t.users ensures t.users[u].amountStaked as int == |StakedBy(t, u)| {
        if u == user {
          assert StakedBy(t, u) == StakedBy(s, u) - {asset.key};
        } else {
          assert StakedBy(t, u) == StakedBy(s, u);
        }
      }
    }
  }

  lemma ClaimKeepsValid(cfg: StakeConfig, s: Store, user: Pubkey, decimals: u8)
    requires Valid(cfg, s)
    ensures ApplyClaim(s, user, decimals).Ok? ==> Valid(cfg, ApplyClaim(s, user, decimals).value.store)
  {
    var r := ApplyClaim(s, user, decimals);
    if r.Ok? {
      var t := r.value.store;
      forall u | u in t.users ensures t.users[u].amountStaked as int == |StakedBy(t, u)| {
        assert StakedBy(t, u) == StakedBy(s, u);
      }
    }
  }

  /**
   * A stake record the user owns is counted in their `amount_staked`, so the
   * decrement in unstake never underflows on a valid store.
   */
  lemma UnstakeNeverUnderflows(cfg: StakeConfig, s: Store, user: Pubkey, asset: Pubkey)
    requires Valid(cfg, s) && asset in s.stakes && s.stakes[asset].owner == user
    ensures user in s.users && s.users[user].amountStaked >= 1
  {
    assert asset in StakedBy(s, user);
  }

  /**
   * For the days a stake can last, `points_per_stake * days` fits in `i64`:
   * the `unwrap_or(i64::MAX)` fallback is never taken and the points earned
   * are the product's low 32 bits.
   */
  lemma PointsEarnedNeverFallsBack(pointsPerStake: u8, elapsed: int)
    requires 0 <= elapsed <= I64_MAX
    ensures PointsEarned(pointsPerStake, (elapsed / SECONDS_PER_DAY) as i64) as int
            == (pointsPerStake as int * (elapsed / SECONDS_PER_DAY)) % U32_LIMIT
  {
    var days := elapsed / SECONDS_PER_DAY;
    assert days <= 106751991167300;
    MulBound(pointsPerStake as int, 255, days, 106751991167300);
  }

  lemma MulBound(a: nat, amax: nat, b: nat, bmax: nat)
    requires a <= amax && b <= bmax
    ensures a * b <= amax * bmax
  {
    assert a * b <= amax * b;
  }

  /**
   * On a valid store, unstaking a record the user owns, with both assets in
   * order, succeeds exactly when the clock has not gone back more than
   * `i64` allows and the freeze period has passed.
   */
  lemma UnstakeSucceedsAfterFreeze(cfg: StakeConfig, s: Store, user: Pubkey, asset: AccountInfo,
                                   collection: AccountInfo, now: i64)
    requires Valid(cfg, s) && CheckAssets(asset, collection).None?
    requires user in s.users && asset.key in s.stakes && s.stakes[asset.key].owner == user
    ensures ApplyUnstake(cfg, s, user, asset, collection, now).Ok? <==>
      cfg.freezePeriod as int * SECONDS_PER_DAY <= now as int - s.stakes[asset.key].stakedAt as int <= I64_MAX
  {
    UnstakeNeverUnderflows(cfg, s, user, asset.key);
  }

  /**
   * Staking an asset and unstaking it once the freeze period has passed
   * leaves every record and count as before; the user keeps the points
   * earned for the whole days in between.
   */
  lemma StakeUnstakeRoundTrip(cfg: StakeConfig, s: Store, user: Pubkey, asset: AccountInfo, collection: AccountInfo,
                              stakedAt: i64, now: i64, bump: u8)
    requires Valid(cfg, s)
    requires ApplyStake(cfg, s, user, asset, collection, stakedAt, bump).Ok?
    requires cfg.freezePeriod as int * SECONDS_PER_DAY <= now as int - stakedAt as int <= I64_MAX
    ensures var t := ApplyStake(cfg, s, user, asset, collection, stakedAt, bump).value;
      var u := s.users[user];
      var days := (now as int - stakedAt as int) / SECONDS_PER_DAY;
      ApplyUnstake(cfg, t, user, asset, collection, now)
        == Ok(Store(s.users[user := u.(points := SaturatingAddU32(u.points, PointsEarned(cfg.pointsPerStake, days as i64)))],
                    s.stakes))
  {
    var t := ApplyStake(cfg, s, user, asset, collection, stakedAt, bump).value;
    StakeKeepsValid(cfg, s, user, asset, collection, stakedAt, bump);
    UnstakeSucceedsAfterFreeze(cfg, t, user, asset, collection, now);
    assert t.stakes[asset.key].stakedAt == stakedAt;
    var r := ApplyUnstake(cfg, t, user, asset, collection, now).value;
    assert r.stakes == s.stakes;
    assert r.users == s.users[user := r.users[user]];
  }

  /** Claiming twice in a row mints once: the second claim finds no points. */
  lemma ClaimTwiceMintsOnce(s: Store, user: Pubkey, decimals: u8)
    requires ApplyClaim(s, user, decimals).Ok?
    ensures var t := ApplyClaim(s, user, decimals).value.store;
      ApplyClaim(t, user, decimals) == Ok(Claimed(t, None))
  {
  }
}
