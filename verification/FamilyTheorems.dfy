/** What holds of refresh tokens over whole runs: single use, linear chains, and when a session ends. */
module FamilyTheorems {
  import opened Common
  import opened UserEntity
  import opened UserRepository
  import opened RefreshTokens
  import opened AccessTokens
  import opened Session
  import opened SessionEffects
  import opened SessionInvariant
  import opened FamilyInvariant
  import opened SessionTheorems

  // ----- One session per family, one use per token -----

  ghost function LiveRows(s: State, f: FamilyId): set<TokenId> {
    set id | id in s.tokens && s.tokens[id].familyId == f && !IsRevoked(s.tokens[id])
  }

  ghost function Winners(s: State, f: FamilyId): set<ReqId> {
    set r | r in s.reqs && Holds(s.reqs[r], f)
  }

  lemma WinnersClaim(s: State, r: ReqId, f: FamilyId)
    ensures r in Winners(s, f) <==> ClaimedBy(s, r, f)
  {
  }

  lemma AtMostOne<T>(xs: set<T>)
    requires forall x, y :: x in xs && y in xs ==> x == y
    ensures |xs| <= 1
  {
    if xs != {} {
      var x :| x in xs;
      assert xs == {x};
    }
  }

  lemma LiveRowLeavesNoWinner(s: State, f: FamilyId, id: TokenId)
    requires Inv(s) && id in LiveRows(s, f)
    ensures Winners(s, f) == {} && id == Last(s.families[f].chain)
  {
    assert RowOK(s, id, s.tokens[id]);
    Unclaimed(s, f);
    forall r ensures r !in Winners(s, f) { WinnersClaim(s, r, f); }
  }

  /**
   * A family is one session: its live rows and the refreshes that have consumed a token but not yet
   * created the successor number at most one together, however many requests present its tokens.
   */
  lemma OneSessionPerFamily(s: State, f: FamilyId)
    requires Inv(s)
    ensures |LiveRows(s, f)| + |Winners(s, f)| <= 1
  {
    forall r, r' | r in Winners(s, f) && r' in Winners(s, f) ensures r == r' {
      WinnersClaim(s, r, f);
      WinnersClaim(s, r', f);
    }
    forall a, b | a in LiveRows(s, f) && b in LiveRows(s, f) ensures a == b {
      LiveRowLeavesNoWinner(s, f, a);
      LiveRowLeavesNoWinner(s, f, b);
    }
    AtMostOne(LiveRows(s, f));
    AtMostOne(Winners(s, f));
    if a :| a in LiveRows(s, f) { LiveRowLeavesNoWinner(s, f, a); }
  }

  /**
   * Chain conservation: rows ever created in a family are one for the login, plus one for every rotation
   * won, less those still in flight and those that were abandoned; and the i-th rotation spent exactly the
   * i-th token, so predecessor and successor form a single line without repeats.
   */
  lemma ChainConservation(s: State, f: FamilyId)
    requires Inv(s) && f in s.families
    ensures var F := s.families[f];
            && |F.chain| == 1 + |F.spent| - |Winners(s, f)| - F.dropped
            && F.spent <= F.chain
            && (forall i, j :: 0 <= i < j < |F.chain| ==> F.chain[i] != F.chain[j])
            && (forall id :: id in s.tokens && s.tokens[id].familyId == f ==> id in F.chain)
  {
    var F := s.families[f];
    assert FamilyOK(s.minted, f, F);
    WinnersFillTheGap(s, f);
    forall id | id in s.tokens && s.tokens[id].familyId == f ensures id in F.chain {
      assert RowOK(s, id, s.tokens[id]);
    }
    hide Inv, Winners, RowOK;
  }

  /** A rotation is missing its successor exactly while a request holds it or after it was dropped. */
  lemma WinnersFillTheGap(s: State, f: FamilyId)
    requires Inv(s) && f in s.families
    ensures |Winners(s, f)| == if Gap(s.families[f]) == 1 && s.families[f].dropped == 0 then 1 else 0
  {
    var F := s.families[f];
    OneSessionPerFamily(s, f);
    if Gap(F) == 1 && F.dropped == 0 {
      assert Held(s, f);
      var r :| ClaimedBy(s, r, f);
      WinnersClaim(s, r, f);
      assert Winners(s, f) == {r} + (Winners(s, f) - {r});
      hide Inv, Winners, LiveRows;
    } else {
      Unclaimed(s, f);
      forall r ensures r !in Winners(s, f) { WinnersClaim(s, r, f); }
      assert Winners(s, f) == {};
    }
  }

  /** Each token yields at most one rotation, in its own family and in all families together. */
  lemma TokenRotatesOnce(s: State, f: FamilyId, g: FamilyId, i: nat, j: nat)
    requires Inv(s) && f in s.families && g in s.families
    requires i < |s.families[f].spent| && j < |s.families[g].spent|
    requires s.families[f].spent[i] == s.families[g].spent[j]
    ensures f == g && i == j
  {
    assert FamilyOK(s.minted, f, s.families[f]) && FamilyOK(s.minted, g, s.families[g]);
    assert s.families[f].chain[i] == s.families[g].chain[j];
  }

  // ----- Revocation of rows -----

  /** `s'` keeps every revocation of `s`, with its first reason, and brings back no row that was deleted. */
  ghost predicate KeepsRevocations(s: State, s': State) {
    && (forall id :: id in s.minted ==> id in s'.minted)
    && (forall id :: id in s.tokens ==> id in s.minted)
    && (forall id :: id in s'.tokens && id in s.minted ==>
          id in s.tokens && (IsRevoked(s.tokens[id]) ==> s'.tokens[id] == s.tokens[id]))
  }

  ghost predicate MintedRows(s: State) {
    forall id :: id in s.tokens ==> id in s.minted
  }

  lemma RowsAreMinted(s: State)
    requires FamilyInv(s)
    ensures MintedRows(s)
  {
    forall id | id in s.tokens ensures id in s.minted { assert RowOK(s, id, s.tokens[id]); }
  }

  lemma EffectKeepsRevocations(s: State, x: Effect)
    requires MintedRows(s) && Possible(s, x)
    ensures KeepsRevocations(s, After(s, x))
  {
    AfterTables(s, x);
    hide After, Findable, Claim, ClaimOf, Found;
    if x.Storing? || x.Opening? {
      assert x.token !in s.minted;
      hide Possible;
    } else {
      hide Possible;
    }
  }

  lemma StepKeepsRevocations(s: State, e: Event)
    requires MintedRows(s) && Serial(s.users) && Enabled(s, e)
    ensures KeepsRevocations(s, Next(s, e))
  {
    hide Serial, Enabled, Next, Possible, After, MintedRows;
    var x := StepDoes(s, e);
    EffectKeepsRevocations(s, x);
  }

  /** The row is revoked, or was deleted: there is nothing left of it that could be used. */
  predicate Spent(s: State, id: TokenId) {
    id in s.minted && (id in s.tokens ==> IsRevoked(s.tokens[id]))
  }

  lemma StepKeepsSpent(s: State, e: Event, id: TokenId)
    requires Inv(s) && Enabled(s, e) && Spent(s, id)
    ensures var s' := Next(s, e);
            Spent(s', id) && (id in s'.tokens ==> id in s.tokens && s'.tokens[id] == s.tokens[id])
  {
    hide Enabled, Next, AccessInv, FamilyInv, OwnersOK;
    InvParts(s);
    RowsAreMinted(s);
    StepKeepsRevocations(s, e);
  }

  /** First revocation wins, for good: a revoked row is never usable again and never changes its reason. */
  lemma {:induction false} RevokedStaysRevoked(s: State, es: seq<Event>, t: State, id: TokenId)
    requires Inv(s) && Run(s, es) == Some(t) && Spent(s, id)
    ensures Spent(t, id) && (id in t.tokens ==> id in s.tokens && t.tokens[id] == s.tokens[id])
    decreases |es|
  {
    if es != [] {
      hide Inv, Enabled, Next, Ahead, Spent, IsRevoked;
      assert Run(Next(s, es[0]), es[1..]) == Some(t);
      hide Run;
      StepKeepsInv(s, es[0]);
      StepKeepsSpent(s, es[0], id);
      RevokedStaysRevoked(Next(s, es[0]), es[1..], t, id);
    }
  }

  /** The token this request has in hand and is about to consume. */
  predicate Presents(s: State, r: ReqId, id: TokenId) {
    r in s.reqs && s.reqs[r].RefreshFound? && s.reqs[r].row.id == id && IsUsable(s.reqs[r].row, s.reqs[r].startedAt)
  }

  lemma WinSpends(s: State, r: ReqId, id: TokenId)
    requires RowsOK(s) && Presents(s, r, id) && id in s.tokens && !IsRevoked(s.tokens[id])
    ensures Enabled(s, Refresh(r, Consume)) && Spent(Next(s, Refresh(r, Consume)), id)
  {
    assert RowOK(s, id, s.tokens[id]);
    hide RowsOK, RowOK;
    var row, at := s.reqs[r].row, s.reqs[r].startedAt;
    assert Next(s, Refresh(r, Consume)) == ConsumeNext(s, r, row, at);
    assert IsRevoked(RevokedWhere(s.tokens, ById(id), Rotated, at)[id]);
    hide RevokedWhere, IsRevoked;
  }

  lemma SpentIsLost(t: State, r: ReqId, id: TokenId)
    requires Presents(t, r, id) && Spent(t, id)
    ensures Enabled(t, Refresh(r, Consume))
    ensures Next(t, Refresh(r, Consume)) == Goto(t, r, RefreshLost(t.reqs[r].row.familyId, t.reqs[r].startedAt))
  {
  }

  /**
   * A token works exactly once: after one request has won it, every other request that presents it, however
   * long ago it read the row and however much later it gets to consume it, loses and goes on to report reuse.
   */
  lemma SecondPresenterLoses(s: State, winner: ReqId, id: TokenId, es: seq<Event>, t: State, other: ReqId)
    requires Inv(s) && Presents(s, winner, id) && id in s.tokens && !IsRevoked(s.tokens[id])
    requires Enabled(s, Refresh(winner, Consume)) && Run(Next(s, Refresh(winner, Consume)), es) == Some(t)
    requires Presents(t, other, id)
    ensures Enabled(t, Refresh(other, Consume))
    ensures Next(t, Refresh(other, Consume)) ==
              Goto(t, other, RefreshLost(t.reqs[other].row.familyId, t.reqs[other].startedAt))
  {
    InvParts(s);
    hide Inv, AccessInv, ChainsOK, MintedOK, ClaimsOK, FoundsOK, OwnersOK, RowsOK, LoginsKnown, Serial, Run,
        Enabled, Next, Spent, Ahead;
    WinSpends(s, winner, id);
    StepKeepsInv(s, Refresh(winner, Consume));
    RevokedStaysRevoked(Next(s, Refresh(winner, Consume)), es, t, id);
    SpentIsLost(t, other, id);
  }
}
