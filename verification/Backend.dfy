/**
 * The stores and the clock as the use cases see them. Every awaited call first lets any number of other
 * requests run and then performs one statement; `trace` records all of it as a run of the protocol.
 */
module Backend {
  import opened Common
  import opened UserEntity
  import opened UserRepository
  import opened RefreshTokens
  import opened AccessTokens
  import opened Session
  import opened SessionEffects
  import opened SessionInvariant
  import opened FamilyInvariant
  import opened SessionTheorems
  import opened Interleaving

  /** Every identifier in use is below `supply`: what `randomUUID` and the CSPRNG are taken to provide. */
  ghost predicate Unused(s: State, supply: nat) {
    && (forall k :: k in s.minted ==> k < supply)
    && (forall k :: k in s.families ==> k < supply)
    && (forall k :: k in s.issued ==> k < supply)
  }

  ghost predicate Tracks(origin: State, trace: seq<Event>, s: State) {
    Run(origin, trace) == Some(s) && Inv(s)
  }

  lemma Tracked(origin: State, trace: seq<Event>, s: State, e: Event, r: ReqId)
    requires Tracks(origin, trace, s) && Enabled(s, e) && Actor(e) == Some(r)
    ensures Tracks(origin, trace + [e], Next(s, e))
    ensures Own(trace + [e], r) == Own(trace, r) + [e]
  {
    hide Inv, Run, Enabled, Next, Ahead;
    RunFurther(origin, trace, s, e);
    StepKeepsInv(s, e);
    OwnAdds(trace, e, r);
  }

  lemma Waited(origin: State, trace: seq<Event>, s: State, trace': seq<Event>, s': State, r: ReqId)
    requires Tracks(origin, trace, s) && Tracks(origin, trace', s')
    requires trace <= trace' && Own(trace'[|trace|..], r) == []
    ensures Waits(s, s', r) && Own(trace', r) == Own(trace, r)
  {
    hide Inv, Run, Waits, Own;
    var es := trace'[|trace|..];
    assert trace' == trace + es;
    RunThen(origin, trace, s, es);
    OthersRun(s, es, s', r);
    OwnSplits(trace, es, r);
  }

  lemma TracksParts(origin: State, trace: seq<Event>, s: State)
    requires Tracks(origin, trace, s)
    ensures AccessInv(s) && RowsOK(s) && Serial(s.users)
    ensures forall k :: k in s.tokens ==> k in s.minted
  {
    forall k | k in s.tokens ensures k in s.minted { assert RowOK(s, k, s.tokens[k]); }
  }

  /** Between two moments of a run everything only moves forward. */
  lemma Since(origin: State, trace: seq<Event>, s: State, trace': seq<Event>, s': State)
    requires Tracks(origin, trace, s) && Tracks(origin, trace', s') && trace <= trace'
    ensures Inv(s') && Ahead(s, s')
  {
    hide Inv, Ahead, Run;
    var es := trace'[|trace|..];
    assert trace' == trace + es;
    RunThen(origin, trace, s, es);
    RunKeepsInv(s, es, s');
  }

  class Backend {
    const users: PrismaUserRepository
    const refreshTokens: PrismaRefreshTokenRepository
    const denylist: TokenDenylistService
    const config: Config
    var now: int
    var supply: nat
    ghost const origin: State
    ghost var model: State
    ghost var trace: seq<Event>

    ghost predicate Valid()
      reads this, users, refreshTokens, denylist
    {
      && users.accounts == model.users
      && refreshTokens.rows == model.tokens
      && denylist.entries == model.denylist
      && now == model.now && config == model.config
      && Unused(model, supply)
      && Tracks(origin, trace, model)
    }

    ghost function History(r: ReqId): seq<Event>
      reads this
    {
      Own(trace, r)
    }

    constructor (config: Config, now: int)
      ensures Valid() && trace == [] && model == Start(config, now)
      ensures fresh(users) && fresh(refreshTokens) && fresh(denylist)
    {
      users := new PrismaUserRepository();
      refreshTokens := new PrismaRefreshTokenRepository();
      denylist := new TokenDenylistService();
      this.config, this.now, supply := config, now, 0;
      origin, model, trace := Start(config, now), Start(config, now), [];
      new;
      StartInv(config, now);
    }

    /** The rest of the system runs: any events that are not this request's. Doing nothing is one case of it. */
    method Yield(ghost r: ReqId)
      requires Valid()
      modifies this, users, refreshTokens, denylist
      ensures Valid() && old(trace) <= trace && Own(trace[|old(trace)|..], r) == []
    {
      assert trace[|trace|..] == [];
    }

    method Await(ghost r: ReqId)
      requires Valid()
      modifies this, users, refreshTokens, denylist
      ensures Valid() && Waits(old(model), model, r) && History(r) == old(History(r)) && old(trace) <= trace
    {
      hide Tracks, Unused, Waits, Own;
      ghost var s, es := model, trace;
      Yield(r);
      Waited(origin, es, s, trace, model, r);
    }

    /** Records the statement request `r` is about to perform. */
    ghost method Commit(e: Event, r: ReqId)
      requires Tracks(origin, trace, model) && Enabled(model, e) && Actor(e) == Some(r)
      modifies this`model, this`trace
      ensures Tracks(origin, trace, model) && model == Next(old(model), e) && History(r) == old(History(r)) + [e]
      ensures trace == old(trace) + [e]
    {
      hide Tracks, Own, Enabled, Next;
      Tracked(origin, trace, model, e, r);
      model, trace := Next(model, e), trace + [e];
    }

    method GenerateId() returns (id: nat)
      requires Valid()
      modifies this`supply
      ensures Valid() && id !in model.minted && id !in model.families && id !in model.issued
      ensures old(supply) <= id < supply
    {
      hide Tracks;
      id := supply;
      supply := supply + 1;
    }
  }
}
