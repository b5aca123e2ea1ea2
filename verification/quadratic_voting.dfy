/**
 * The quadratic-voting program: polls with an inclusive voting window,
 * candidates counted per poll, and votes added to a candidate's tally.
 *
 * Accounts live at program-derived addresses: a poll at seeds
 * `["poll", poll_id]`, a candidate at `["candidate", poll_id, name]`. The
 * store of accounts is therefore two maps keyed by those seed tuples; an
 * `init` account whose key is already present fails, and a `seeds` account
 * whose key is absent fails.
 */
module QuadraticVoting {
  import opened Primitives

  /** The program's own error enum, in declaration order. */
  datatype VotingError = PollNotStarted | PollEnded | Overflow | ZeroVotes | InvalidPollDuration

  /** Anchor numbers a custom error 6000 plus its position in the enum. */
  function Code(e: VotingError): (c: nat)
    ensures 6000 <= c < 6005
  {
    match e
    case PollNotStarted => 6000
    case PollEnded => 6001
    case Overflow => 6002
    case ZeroVotes => 6003
    case InvalidPollDuration => 6004
  }

  /** Distinct errors carry distinct codes, so a client can tell them apart by number. */
  lemma CodeInjective(a: VotingError, b: VotingError)
    requires Code(a) == Code(b)
    ensures a == b
  {
  }

  datatype Error = Voting(e: VotingError) | Host(h: HostError)

  /** A candidate name, as the UTF-8 bytes that also serve as its PDA seed. */
  type Name = seq<u8>

  datatype Poll = Poll(pollId: u64, pollStart: u64, pollEnd: u64, candidates: u64, bump: u8)

  datatype Candidate = Candidate(candidateName: Name, candidateVotes: u64, bump: u8)

  /** The program's accounts, keyed by their PDA seeds. */
  datatype Store = Store(polls: map<u64, Poll>, candidates: map<(u64, Name), Candidate>)

  /** The names of the candidate accounts created under poll `id`. */
  ghost function NamesIn(s: Store, id: u64): set<Name>
  {
    set k | k in s.candidates.Keys && k.0 == id :: k.1
  }

  /**
   * What every reachable store satisfies: each poll sits at its own id and
   * has `poll_start < poll_end`; each candidate belongs to an existing poll,
   * is named by its seed and that name fits the account; and each poll's
   * `candidates` counter equals the number of its candidate accounts.
   */
  ghost predicate Valid(s: Store)
  {
    && (forall id :: id in s.polls ==> s.polls[id].pollId == id && s.polls[id].pollStart < s.polls[id].pollEnd)
    && (forall k :: k in s.candidates ==>
          k.0 in s.polls && |k.1| <= MAX_SEED_LEN && s.candidates[k].candidateName == k.1)
    && (forall id :: id in s.polls ==> s.polls[id].candidates as int == |NamesIn(s, id)|)
  }

  /** `InitialisePoll::initialise_poll`, with the `init` of the poll account before it. */
  function ApplyInitialisePoll(s: Store, pollId: u64, pollStart: u64, pollEnd: u64, bump: u8): (r: Result<Store, Error>)
    ensures r.Ok? <==> pollId !in s.polls && pollStart < pollEnd
    ensures pollId in s.polls ==> r == Err(Host(AccountAlreadyInUse))
    ensures pollId !in s.polls && pollStart >= pollEnd ==> r == Err(Voting(InvalidPollDuration))
    ensures r.Ok? ==> r.value.candidates == s.candidates
    ensures r.Ok? ==> r.value.polls.Keys == s.polls.Keys + {pollId}
    ensures r.Ok? ==> forall id :: id in s.polls ==> r.value.polls[id] == s.polls[id]
    ensures r.Ok? ==> var p := r.value.polls[pollId];
      p.pollId == pollId && p.pollStart == pollStart && p.pollEnd == pollEnd && p.candidates == 0
  {
    if pollId in s.polls then Err(Host(AccountAlreadyInUse))
    else if !(pollStart < pollEnd) then Err(Voting(InvalidPollDuration))
    else Ok(s.(polls := s.polls[pollId := Poll(pollId, pollStart, pollEnd, 0, bump)]))
  }

  /**
   * `InitialiseCandidate::initialise_candidate`, with its account checks:
   * the poll must exist, the name must be usable as a seed, the candidate
   * account must be new; then the counter is incremented with `checked_add`.
   */
  function ApplyInitialiseCandidate(s: Store, name: Name, pollId: u64, bump: u8): (r: Result<Store, Error>)
    ensures pollId !in s.polls ==> r == Err(Host(AccountNotInitialized))
    ensures pollId in s.polls && |name| > MAX_SEED_LEN ==> r == Err(Host(MaxSeedLengthExceeded))
    ensures pollId in s.polls && |name| <= MAX_SEED_LEN && (pollId, name) in s.candidates ==>
      r == Err(Host(AccountAlreadyInUse))
    ensures (pollId in s.polls && |name| <= MAX_SEED_LEN && (pollId, name) !in s.candidates
             && s.polls[pollId].candidates as int == U64_MAX) ==> r == Err(Host(ArithmeticOverflow))
    ensures r.Ok? <==> (pollId in s.polls && |name| <= MAX_SEED_LEN && (pollId, name) !in s.candidates
                        && s.polls[pollId].candidates as int < U64_MAX)
    ensures r.Ok? ==> (r.value.polls.Keys == s.polls.Keys
      && r.value.polls[pollId] == s.polls[pollId].(candidates := r.value.polls[pollId].candidates)
      && r.value.polls[pollId].candidates as int == s.polls[pollId].candidates as int + 1
      && forall id :: id in s.polls && id != pollId ==> r.value.polls[id] == s.polls[id])
    ensures r.Ok? ==> r.value.candidates == s.candidates[(pollId, name) := Candidate(name, 0, bump)]
  {
    if pollId !in s.polls then Err(Host(AccountNotInitialized))
    else if |name| > MAX_SEED_LEN then Err(Host(MaxSeedLengthExceeded))
    else if (pollId, name) in s.candidates then Err(Host(AccountAlreadyInUse))
    else
      var poll := s.polls[pollId];
      match CheckedAddU64(poll.candidates, 1)
      case None => Err(Host(ArithmeticOverflow))
      case Some(n) =>
        Ok(Store(s.polls[pollId := poll.(candidates := n)],
                 s.candidates[(pollId, name) := Candidate(name, 0, bump)]))
  }

  /**
   * Whether the clock reading `now` (an `i64`, read `as u64`) lies in the
   * poll's window, both ends included. A negative reading counts as
   * `now + 2^64`, so it lies in the window only when `poll_end` reaches it.
   */
  predicate InWindow(p: Poll, now: i64): (b: bool)
    ensures now >= 0 ==> (b <==> p.pollStart as int <= now as int <= p.pollEnd as int)
    ensures now < 0 ==> (b <==> p.pollStart as int <= now as int + U64_LIMIT <= p.pollEnd as int)
  {
    p.pollStart <= AsU64(now) <= p.pollEnd
  }

  /**
   * `Vote::vote`: zero votes are refused before the clock is read; the window
   * is checked at both ends; `num_votes^2` must fit in a `u64` although it is
   * only logged; the tally grows by `num_votes`, not by its square.
   */
  function ApplyVote(s: Store, name: Name, pollId: u64, numVotes: u64, now: i64): (r: Result<Store, Error>)
    ensures pollId !in s.polls || (pollId, name) !in s.candidates ==> r == Err(Host(AccountNotInitialized))
    ensures pollId in s.polls && (pollId, name) in s.candidates ==>
      var p, c := s.polls[pollId], s.candidates[(pollId, name)];
      && (numVotes == 0 ==> r == Err(Voting(ZeroVotes)))
      && (numVotes > 0 && AsU64(now) < p.pollStart ==> r == Err(Voting(PollNotStarted)))
      && (numVotes > 0 && p.pollStart <= AsU64(now) && AsU64(now) > p.pollEnd ==> r == Err(Voting(PollEnded)))
      && (numVotes > 0 && InWindow(p, now) && numVotes as int * numVotes as int >= U64_LIMIT ==>
            r == Err(Voting(Overflow)))
      && ((numVotes > 0 && InWindow(p, now) && numVotes as int * numVotes as int < U64_LIMIT
            && c.candidateVotes as int + numVotes as int >= U64_LIMIT) ==> r == Err(Voting(Overflow)))
      && (r.Ok? <==> numVotes > 0 && InWindow(p, now) && numVotes as int * numVotes as int < U64_LIMIT
                      && c.candidateVotes as int + numVotes as int < U64_LIMIT)
    ensures r.Ok? ==> r.value.polls == s.polls
    ensures r.Ok? ==> (r.value.candidates.Keys == s.candidates.Keys
      && r.value.candidates[(pollId, name)].candidateVotes as int
           == s.candidates[(pollId, name)].candidateVotes as int + numVotes as int
      && r.value.candidates[(pollId, name)].(candidateVotes := s.candidates[(pollId, name)].candidateVotes)
           == s.candidates[(pollId, name)]
      && forall k :: k in s.candidates && k != (pollId, name) ==> r.value.candidates[k] == s.candidates[k])
  {
    if pollId !in s.polls || (pollId, name) !in s.candidates then Err(Host(AccountNotInitialized))
    else if numVotes == 0 then Err(Voting(ZeroVotes))
    else
      var p, c := s.polls[pollId], s.candidates[(pollId, name)];
      var currentTime := AsU64(now);
      if currentTime < p.pollStart then Err(Voting(PollNotStarted))
      else if currentTime > p.pollEnd then Err(Voting(PollEnded))
      else match CheckedMulU64(numVotes, numVotes)
        case None => Err(Voting(Overflow))
        case Some(_) =>
          match CheckedAddU64(c.candidateVotes, numVotes)
          case None => Err(Voting(Overflow))
          case Some(v) => Ok(s.(candidates := s.candidates[(pollId, name) := c.(candidateVotes := v)]))
  }

  /** The program's account store, updated in place by the three instructions. */
  class VotingProgram {
    var polls: map<u64, Poll>
    var candidates: map<(u64, Name), Candidate>

    function State(): Store
      reads this
    {
      Store(polls, candidates)
    }

    constructor ()
      ensures State() == Store(map[], map[]) && Valid(State())
    {
      polls, candidates := map[], map[];
    }

    method InitialisePoll(pollId: u64, pollStart: u64, pollEnd: u64, bump: u8) returns (r: Result<(), Error>)
      requires Valid(State())
      modifies this
      ensures Valid(State())
      ensures r.Ok? ==> ApplyInitialisePoll(old(State()), pollId, pollStart, pollEnd, bump) == Ok(State())
      ensures r.Err? ==> ApplyInitialisePoll(old(State()), pollId, pollStart, pollEnd, bump) == Err(r.error)
      ensures r.Err? ==> State() == old(State())
    {
      if pollId in polls {
        return Err(Host(AccountAlreadyInUse));
      }
      if !(pollStart < pollEnd) {
        return Err(Voting(InvalidPollDuration));
      }
      polls := polls[pollId := Poll(pollId, pollStart, pollEnd, 0, bump)];
      InitialisePollKeepsValid(old(State()), pollId, pollStart, pollEnd, bump);
      return Ok(());
    }

    method InitialiseCandidate(name: Name, pollId: u64, bump: u8) returns (r: Result<(), Error>)
      requires Valid(State())
      modifies this
      ensures Valid(State())
      ensures r.Ok? ==> ApplyInitialiseCandidate(old(State()), name, pollId, bump) == Ok(State())
      ensures r.Err? ==> ApplyInitialiseCandidate(old(State()), name, pollId, bump) == Err(r.error)
      ensures r.Err? ==> State() == old(State())
    {
      if pollId !in polls {
        return Err(Host(AccountNotInitialized));
      }
      if |name| > MAX_SEED_LEN {
        return Err(Host(MaxSeedLengthExceeded));
      }
      if (pollId, name) in candidates {
        return Err(Host(AccountAlreadyInUse));
      }
      var poll := polls[pollId];
      var n := CheckedAddU64(poll.candidates, 1);
      if n.None? {
        return Err(Host(ArithmeticOverflow));
      }
      polls := polls[pollId := poll.(candidates := n.value)];
      candidates := candidates[(pollId, name) := Candidate(name, 0, bump)];
      InitialiseCandidateKeepsValid(old(State()), name, pollId, bump);
      return Ok(());
    }

    method Vote(name: Name, pollId: u64, numVotes: u64, now: i64) returns (r: Result<(), Error>)
      requires Valid(State())
      modifies this
      ensures Valid(State())
      ensures polls == old(polls)
      ensures r.Ok? ==> ApplyVote(old(State()), name, pollId, numVotes, now) == Ok(State())
      ensures r.Err? ==> ApplyVote(old(State()), name, pollId, numVotes, now) == Err(r.error)
      ensures r.Err? ==> State() == old(State())
    {
      if pollId !in polls || (pollId, name) !in candidates {
        return Err(Host(AccountNotInitialized));
      }
      if numVotes == 0 {
        return Err(Voting(ZeroVotes));
      }
      var currentTime := AsU64(now);
      var poll := polls[pollId];
      if currentTime < poll.pollStart {
        return Err(Voting(PollNotStarted));
      }
      if currentTime > poll.pollEnd {
        return Err(Voting(PollEnded));
      }
      var cost := CheckedMulU64(numVotes, numVotes);
      if cost.None? {
        return Err(Voting(Overflow));
      }
      var candidate := candidates[(pollId, name)];
      var votes := CheckedAddU64(candidate.candidateVotes, numVotes);
      if votes.None? {
        return Err(Voting(Overflow));
      }
      candidates := candidates[(pollId, name) := candidate.(candidateVotes := votes.value)];
      VoteKeepsValid(old(State()), name, pollId, numVotes, now);
      return Ok(());
    }
  }

  /** Creating a poll keeps the store valid; the new poll has no candidates yet. */
  lemma InitialisePollKeepsValid(s: Store, pollId: u64, pollStart: u64, pollEnd: u64, bump: u8)
    requires Valid(s)
    ensures ApplyInitialisePoll(s, pollId, pollStart, pollEnd, bump).Ok? ==>
      Valid(ApplyInitialisePoll(s, pollId, pollStart, pollEnd, bump).value)
  {
    var r := ApplyInitialisePoll(s, pollId, pollStart, pollEnd, bump);
    if r.Ok? {
      var t := r.value;
      forall id | id in t.polls
        ensures t.polls[id].candidates as int == |NamesIn(t, id)|
      {
        assert NamesIn(t, id) == NamesIn(s, id);
        if id == pollId {
          forall k | k in s.candidates.Keys ensures k.0 != id {
          }
          assert NamesIn(s, id) == {};
        }
      }
    }
  }

  /**
   * Adding a candidate keeps the store valid: the poll's counter and the set
   * of its candidate accounts both grow by exactly one.
   */
  lemma InitialiseCandidateKeepsValid(s: Store, name: Name, pollId: u64, bump: u8)
    requires Valid(s)
    ensures ApplyInitialiseCandidate(s, name, pollId, bump).Ok? ==> Valid(ApplyInitialiseCandidate(s, name, pollId, bump).value)
  {
    var r := ApplyInitialiseCandidate(s, name, pollId, bump);
    if r.Ok? {
      var t := r.value;
      forall id | id in t.polls
        ensures t.polls[id].candidates as int == |NamesIn(t, id)|
      {
        if id == pollId {
          assert NamesIn(t, id) == NamesIn(s, id) + {name};
          assert name !in NamesIn(s, id);
        } else {
          assert NamesIn(t, id) == NamesIn(s, id);
        }
      }
    }
  }

  /** Voting keeps the store valid: it changes one tally and no key. */
  lemma VoteKeepsValid(s: Store, name: Name, pollId: u64, numVotes: u64, now: i64)
    requires Valid(s)
    ensures ApplyVote(s, name, pollId, numVotes, now).Ok? ==> Valid(ApplyVote(s, name, pollId, numVotes, now).value)
  {
    var r := ApplyVote(s, name, pollId, numVotes, now);
    if r.Ok? {
      var t := r.value;
      forall id | id in t.polls
        ensures t.polls[id].candidates as int == |NamesIn(t, id)|
      {
        assert NamesIn(t, id) == NamesIn(s, id);
      }
    }
  }

  /** Creates candidates `names` in order, stopping at the first failure. */
  function InitialiseCandidates(s: Store, pollId: u64, names: seq<Name>, bump: u8): Result<Store, Error>
    decreases |names|
  {
    if names == [] then Ok(s)
    else match ApplyInitialiseCandidate(s, names[0], pollId, bump)
      case Err(e) => Err(e)
      case Ok(t) => InitialiseCandidates(t, pollId, names[1..], bump)
  }

  /** After `n` successful candidate initialisations the poll's counter has grown by `n`. */
  lemma {:induction false} CandidatesCountInits(s: Store, pollId: u64, names: seq<Name>, bump: u8)
    requires pollId in s.polls
    requires InitialiseCandidates(s, pollId, names, bump).Ok?
    ensures pollId in InitialiseCandidates(s, pollId, names, bump).value.polls
    ensures InitialiseCandidates(s, pollId, names, bump).value.polls[pollId].candidates as int
      == s.polls[pollId].candidates as int + |names|
    decreases |names|
  {
    if names != [] {
      var t := ApplyInitialiseCandidate(s, names[0], pollId, bump).value;
      CandidatesCountInits(t, pollId, names[1..], bump);
    }
  }

  /** Two polls initialised under one id: the second always fails. */
  lemma SecondPollInitFails(s: Store, pollId: u64, start1: u64, end1: u64, start2: u64, end2: u64, bump: u8)
    requires ApplyInitialisePoll(s, pollId, start1, end1, bump).Ok?
    ensures ApplyInitialisePoll(ApplyInitialisePoll(s, pollId, start1, end1, bump).value, pollId, start2, end2, bump)
      == Err(Host(AccountAlreadyInUse))
  {
  }

  /** A candidate name used twice under one poll: the second initialisation fails. */
  lemma DuplicateCandidateFails(s: Store, name: Name, pollId: u64, bump: u8)
    requires ApplyInitialiseCandidate(s, name, pollId, bump).Ok?
    ensures ApplyInitialiseCandidate(ApplyInitialiseCandidate(s, name, pollId, bump).value, name, pollId, bump)
      == Err(Host(AccountAlreadyInUse))
  {
  }

  /**
   * The quadratic cost `num_votes * num_votes` overflows a `u64` exactly when
   * `num_votes >= 2^32`: that check alone bounds the votes one call may cast.
   */
  lemma {:induction false} CostOverflowsIff(numVotes: u64)
    ensures numVotes as int * numVotes as int >= U64_LIMIT <==> numVotes as int >= U32_LIMIT
  {
    var n := numVotes as int;
    if n >= U32_LIMIT {
      calc {
        n * n;
      >= { MulMono(n, U32_LIMIT, n); }
        U32_LIMIT * n;
      >= { MulMono(n, U32_LIMIT, U32_LIMIT); }
        U32_LIMIT * U32_LIMIT;
      }
    } else {
      calc {
        n * n;
      <= { MulMono(U32_LIMIT - 1, n, n); }
        (U32_LIMIT - 1) * n;
      <= { MulMono(U32_LIMIT - 1, U32_LIMIT - 1, n); }
        (U32_LIMIT - 1) * (U32_LIMIT - 1);
      }
    }
  }

  lemma MulMono(a: int, b: int, c: int)
    requires 0 <= b && c <= a
    ensures c * b <= a * b
  {
  }

  /** The voting window includes both of its ends. */
  lemma WindowInclusive(p: Poll, now: i64)
    requires now >= 0 && (now as int == p.pollStart as int || now as int == p.pollEnd as int)
    requires p.pollStart <= p.pollEnd
    ensures InWindow(p, now)
  {
  }

  /** A vote of zero is refused as such whatever the time, since it is checked before the clock. */
  lemma ZeroVotesCheckedFirst(s: Store, name: Name, pollId: u64, now: i64)
    requires pollId in s.polls && (pollId, name) in s.candidates
    ensures ApplyVote(s, name, pollId, 0, now) == Err(Voting(ZeroVotes))
  {
  }

  /** Two successful votes add up: the tally is linear in the votes cast. */
  lemma VotesAccumulate(s: Store, name: Name, pollId: u64, n1: u64, n2: u64, now1: i64, now2: i64)
    requires ApplyVote(s, name, pollId, n1, now1).Ok?
    requires ApplyVote(ApplyVote(s, name, pollId, n1, now1).value, name, pollId, n2, now2).Ok?
    ensures ApplyVote(ApplyVote(s, name, pollId, n1, now1).value, name, pollId, n2, now2).value.candidates[(pollId, name)].candidateVotes as int
      == s.candidates[(pollId, name)].candidateVotes as int + n1 as int + n2 as int
  {
  }
}
