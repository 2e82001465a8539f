/** Refresh families: every step keeps each of them a single linear chain with one live end at most. */
module FamilyInvariant {
  import opened Common
  import opened UserEntity
  import opened UserRepository
  import opened RefreshTokens
  import opened AccessTokens
  import opened Session
  import opened SessionEffects

  function Last<T>(s: seq<T>): T
    requires s != []
  {
    s[|s| - 1]
  }

  /** Rotations of the family that have not produced their successor: in flight, or lost for good. */
  function Gap(F: Family): int {
    |F.spent| + 1 - |F.chain|
  }

  ghost predicate FamilyOK(minted: map<TokenId, FamilyId>, f: FamilyId, F: Family) {
    && F.chain != []
    && F.spent <= F.chain
    && 0 <= F.dropped <= Gap(F) <= 1
    && (forall i, j :: 0 <= i < j < |F.chain| ==> F.chain[i] != F.chain[j])
    && (forall i :: 0 <= i < |F.chain| ==> F.chain[i] in minted && minted[F.chain[i]] == f)
  }

  /** A row belongs to the family its token was minted in; a live row is that family's unspent end. */
  ghost predicate RowOK(s: State, id: TokenId, row: TokenRow) {
    && row.id == id && id in s.minted && s.minted[id] == row.familyId
    && row.familyId in s.families && s.families[row.familyId].owner == row.userId
    && s.families[row.familyId].chain != []
    && (!IsRevoked(row) ==>
          id == Last(s.families[row.familyId].chain) && Gap(s.families[row.familyId]) == 0)
  }

  ghost predicate ClaimOK(s: State, c: (FamilyId, UserId)) {
    && c.0 in s.families && s.families[c.0].owner == c.1
    && Gap(s.families[c.0]) == 1 && s.families[c.0].dropped == 0
  }

  /** A row a refresh read earlier still names the family and the owner of its token. */
  ghost predicate FoundOK(s: State, row: TokenRow) {
    && row.id in s.minted && s.minted[row.id] == row.familyId
    && row.familyId in s.families && s.families[row.familyId].owner == row.userId
  }

  ghost predicate ChainsOK(s: State) {
    forall f :: f in s.families ==> FamilyOK(s.minted, f, s.families[f])
  }

  ghost predicate RowsOK(s: State) {
    forall id :: id in s.tokens ==> RowOK(s, id, s.tokens[id])
  }

  ghost predicate MintedOK(s: State) {
    forall id :: id in s.minted ==> s.minted[id] in s.families && id in s.families[s.minted[id]].chain
  }

  ghost predicate ClaimedBy(s: State, r: ReqId, f: FamilyId) {
    Claim(s.reqs, r).Some? && Claim(s.reqs, r).value.0 == f
  }

  ghost predicate Held(s: State, f: FamilyId) {
    exists r :: ClaimedBy(s, r, f)
  }

  /** A family is claimed by one request at most, and exactly while a rotation of it is in flight. */
  ghost predicate ClaimsOK(s: State) {
    && (forall r, f :: ClaimedBy(s, r, f) ==> ClaimOK(s, Claim(s.reqs, r).value))
    && (forall r, r', f :: ClaimedBy(s, r, f) && ClaimedBy(s, r', f) ==> r == r')
    && (forall f :: f in s.families && Gap(s.families[f]) == 1 && s.families[f].dropped == 0 ==> Held(s, f))
  }

  ghost predicate FoundsOK(s: State) {
    forall r :: r in s.reqs && s.reqs[r].RefreshFound? ==> FoundOK(s, s.reqs[r].row)
  }

  ghost predicate FamilyInv(s: State) {
    ChainsOK(s) && RowsOK(s) && MintedOK(s) && ClaimsOK(s) && FoundsOK(s)
  }

  ghost predicate SameFamilies(s: State, s': State) {
    s'.minted == s.minted && s'.families == s.families
  }

  lemma SameClaims(s: State, s': State)
    requires ClaimsOK(s) && s'.families == s.families && forall r :: Claim(s'.reqs, r) == Claim(s.reqs, r)
    ensures ClaimsOK(s')
  {
    forall f | f in s'.families && Gap(s'.families[f]) == 1 && s'.families[f].dropped == 0 ensures Held(s', f) {
      assert Held(s, f);
      var r :| ClaimedBy(s, r, f);
      assert ClaimedBy(s', r, f);
    }
    forall r, f | ClaimedBy(s', r, f) ensures ClaimOK(s', Claim(s'.reqs, r).value) {
      assert ClaimedBy(s, r, f);
    }
    forall r, r', f | ClaimedBy(s', r, f) && ClaimedBy(s', r', f) ensures r == r' {
      assert ClaimedBy(s, r, f) && ClaimedBy(s, r', f);
    }
  }

  /** Rows may be revoked or deleted, and requests may move, as long as no claim changes hands. */
  lemma QuietKeepsFamilies(s: State, s': State)
    requires FamilyInv(s) && SameFamilies(s, s')
    requires forall id :: id in s'.tokens ==>
               id in s.tokens && (s'.tokens[id] == s.tokens[id]
                 || (exists reason, at :: s'.tokens[id] == Revoked(s.tokens[id], reason, at)))
    requires forall r :: Claim(s'.reqs, r) == Claim(s.reqs, r)
    requires forall r :: r in s'.reqs && s'.reqs[r].RefreshFound? ==> FoundOK(s, s'.reqs[r].row)
    ensures FamilyInv(s')
  {
    hide FamilyOK, ClaimsOK;
    SameClaims(s, s');
    forall id | id in s'.tokens ensures RowOK(s', id, s'.tokens[id]) {
      assert RowOK(s, id, s.tokens[id]);
    }
  }

  /** A step by request `r` that changes family `f` and nothing else about any family. */
  ghost predicate Local(s: State, s': State, f: FamilyId, r: ReqId) {
    && f in s'.families
    && (forall g :: g in s.families && g != f ==> g in s'.families && s'.families[g] == s.families[g])
    && (forall g :: g in s'.families && g != f ==> g in s.families)
    && (f in s.families ==> s'.families[f].owner == s.families[f].owner && s.families[f].chain <= s'.families[f].chain)
    && (forall id :: id in s.minted ==> id in s'.minted && s'.minted[id] == s.minted[id])
    && (forall id :: id in s'.minted && id !in s.minted ==> s'.minted[id] == f && id in s'.families[f].chain)
    && (forall id :: id in s'.tokens && s'.tokens[id].familyId != f ==> id in s.tokens && s'.tokens[id] == s.tokens[id])
    && (forall k :: k in s'.reqs && s'.reqs[k].RefreshFound? ==> k in s.reqs && s.reqs[k] == s'.reqs[k])
  }

  /** How `r`'s claim follows its family: held exactly while the rotation is in flight. */
  ghost predicate LocalClaim(s: State, s': State, f: FamilyId, r: ReqId) {
    && f in s'.families
    && (forall k :: k != r ==> Claim(s'.reqs, k) == Claim(s.reqs, k) && !ClaimedBy(s, k, f))
    && (Claim(s.reqs, r).Some? ==> ClaimedBy(s, r, f))
    && Claim(s'.reqs, r) == (if Gap(s'.families[f]) == 1 && s'.families[f].dropped == 0
                             then Some((f, s'.families[f].owner)) else None)
  }

  lemma LocalKeepsClaims(s: State, s': State, f: FamilyId, r: ReqId)
    requires ClaimsOK(s) && Local(s, s', f, r) && LocalClaim(s, s', f, r)
    ensures ClaimsOK(s')
  {
    forall g | g in s'.families && Gap(s'.families[g]) == 1 && s'.families[g].dropped == 0 ensures Held(s', g) {
      if g == f {
        assert ClaimedBy(s', r, f);
      } else {
        assert Held(s, g);
        var k :| ClaimedBy(s, k, g);
        assert ClaimedBy(s', k, g);
      }
    }
    forall k, g | ClaimedBy(s', k, g) ensures ClaimOK(s', Claim(s'.reqs, k).value) {
      if k != r { assert ClaimedBy(s, k, g); }
    }
    forall k, k', g | ClaimedBy(s', k, g) && ClaimedBy(s', k', g) ensures k == k' {
      if k != r { assert ClaimedBy(s, k, g); }
      if k' != r { assert ClaimedBy(s, k', g); }
    }
  }

  lemma LocalKeepsChains(s: State, s': State, f: FamilyId, r: ReqId)
    requires ChainsOK(s) && Local(s, s', f, r) && FamilyOK(s'.minted, f, s'.families[f])
    ensures ChainsOK(s')
  {
    forall g | g in s'.families ensures FamilyOK(s'.minted, g, s'.families[g]) {
      if g != f { assert FamilyOK(s.minted, g, s.families[g]); }
    }
  }

  lemma LocalKeepsRows(s: State, s': State, f: FamilyId, r: ReqId)
    requires RowsOK(s) && Local(s, s', f, r)
    requires forall id :: id in s'.tokens && s'.tokens[id].familyId == f ==> RowOK(s', id, s'.tokens[id])
    ensures RowsOK(s')
  {
    forall id | id in s'.tokens ensures RowOK(s', id, s'.tokens[id]) {
      if s'.tokens[id].familyId != f { assert RowOK(s, id, s.tokens[id]); }
    }
  }

  lemma LocalKeepsMinted(s: State, s': State, f: FamilyId, r: ReqId)
    requires MintedOK(s) && Local(s, s', f, r)
    ensures MintedOK(s') && (FoundsOK(s) ==> FoundsOK(s'))
  {
  }

  lemma LocalKeepsFamilies(s: State, s': State, f: FamilyId, r: ReqId)
    requires FamilyInv(s) && Local(s, s', f, r) && LocalClaim(s, s', f, r)
    requires FamilyOK(s'.minted, f, s'.families[f])
    requires forall id :: id in s'.tokens && s'.tokens[id].familyId == f ==> RowOK(s', id, s'.tokens[id])
    ensures FamilyInv(s')
  {
    hide ChainsOK, RowsOK, MintedOK, ClaimsOK, FoundsOK, LocalClaim, FamilyOK, RowOK;
    LocalKeepsChains(s, s', f, r);
    LocalKeepsRows(s, s', f, r);
    LocalKeepsMinted(s, s', f, r);
    LocalKeepsClaims(s, s', f, r);
  }

  // What the three things that can happen to a family do to it.

  lemma DroppedOK(minted: map<TokenId, FamilyId>, f: FamilyId, F: Family)
    requires FamilyOK(minted, f, F) && Gap(F) == 1 && F.dropped == 0
    ensures FamilyOK(minted, f, F.(dropped := F.dropped + 1))
  {
  }

  lemma SpentOK(minted: map<TokenId, FamilyId>, f: FamilyId, F: Family)
    requires FamilyOK(minted, f, F) && Gap(F) == 0
    ensures FamilyOK(minted, f, F.(spent := F.spent + [Last(F.chain)]))
  {
    assert F.spent + [Last(F.chain)] == F.chain;
  }

  lemma ExtendedOK(minted: map<TokenId, FamilyId>, f: FamilyId, F: Family, token: TokenId)
    requires FamilyOK(minted, f, F) && Gap(F) == 1 && F.dropped == 0 && token !in minted
    ensures FamilyOK(minted[token := f], f, F.(chain := F.chain + [token]))
  {
  }

  lemma Unclaimed(s: State, f: FamilyId)
    requires ClaimsOK(s)
    requires f in s.families ==> Gap(s.families[f]) != 1 || s.families[f].dropped != 0
    ensures forall k :: !ClaimedBy(s, k, f)
  {
  }

  /** A winner leaving without a successor: its rotation is counted as dropped. */
  lemma DropKeepsFamilies(s: State, r: ReqId)
    requires FamilyInv(s) && r in s.reqs
    ensures FamilyInv(Dropped(s, r))
  {
    if Claim(s.reqs, r).None? {
      DropNothing(s, r);
    } else {
      var f := Claim(s.reqs, r).value.0;
      assert ClaimedBy(s, r, f) && ClaimOK(s, Claim(s.reqs, r).value);
      hide ChainsOK, RowsOK, MintedOK, FoundsOK, ClaimsOK, ClaimOK, Local, LocalClaim, FamilyOK, RowOK;
      DropIsLocal(s, r, f);
      DropClaims(s, r, f);
      DropRows(s, r, f);
      LocalKeepsFamilies(s, Dropped(s, r), f, r);
    }
  }

  lemma DropNothing(s: State, r: ReqId)
    requires FamilyInv(s) && Claim(s.reqs, r).None?
    ensures FamilyInv(Done(s, r))
  {
    forall k ensures Claim(Done(s, r).reqs, k) == Claim(s.reqs, k) {}
    QuietKeepsFamilies(s, Done(s, r));
  }

  lemma DropIsLocal(s: State, r: ReqId, f: FamilyId)
    requires ChainsOK(s) && ClaimedBy(s, r, f) && ClaimOK(s, Claim(s.reqs, r).value)
    ensures f in Dropped(s, r).families && Local(s, Dropped(s, r), f, r)
    ensures FamilyOK(s.minted, f, Dropped(s, r).families[f])
  {
    assert FamilyOK(s.minted, f, s.families[f]);
    DroppedOK(s.minted, f, s.families[f]);
    hide ChainsOK, FamilyOK;
    var F := s.families[f];
    assert Dropped(s, r) == Done(s.(families := s.families[f := F.(dropped := F.dropped + 1)]), r);
    hide Dropped, Claim, Gap, ClaimOK;
  }

  lemma DropClaims(s: State, r: ReqId, f: FamilyId)
    requires ClaimsOK(s) && ClaimedBy(s, r, f)
    ensures LocalClaim(s, Dropped(s, r), f, r)
  {
    assert ClaimOK(s, Claim(s.reqs, r).value);
    var s' := Dropped(s, r);
    forall k ensures Claim(s'.reqs, k) == if k == r then None else Claim(s.reqs, k) {}
  }

  lemma DropRows(s: State, r: ReqId, f: FamilyId)
    requires RowsOK(s) && ClaimsOK(s) && ClaimedBy(s, r, f)
    ensures var s' := Dropped(s, r);
            forall id :: id in s'.tokens && s'.tokens[id].familyId == f ==> RowOK(s', id, s'.tokens[id])
  {
    assert ClaimOK(s, Claim(s.reqs, r).value);
    hide ClaimsOK;
    var s' := Dropped(s, r);
    forall id | id in s'.tokens && s'.tokens[id].familyId == f ensures RowOK(s', id, s'.tokens[id]) {
      assert RowOK(s, id, s.tokens[id]);
    }
  }

  /** Winning the compare-and-swap spends the family's last token and claims the family. */
  lemma WinKeepsFamilies(s: State, r: ReqId, row: TokenRow, at: int)
    requires FamilyInv(s) && Claim(s.reqs, r).None? && FoundOK(s, row)
    requires row.id in s.tokens && !IsRevoked(s.tokens[row.id])
    ensures FamilyInv(ConsumeNext(s, r, row, at))
  {
    hide MintedOK, FoundsOK, ChainsOK, ClaimsOK, Local, LocalClaim, FamilyOK, RevokedWhere;
    assert RowOK(s, row.id, s.tokens[row.id]);
    hide RowsOK, RowOK;
    WinIsLocal(s, r, row, at);
    WinClaims(s, r, row, at);
    WinRows(s, r, row, at);
    LocalKeepsFamilies(s, ConsumeNext(s, r, row, at), row.familyId, r);
  }

  ghost predicate CanWin(s: State, row: TokenRow) {
    FoundOK(s, row) && row.id in s.tokens && !IsRevoked(s.tokens[row.id])
  }

  lemma WinSpendsLast(s: State, r: ReqId, row: TokenRow, at: int)
    requires ChainsOK(s) && RowsOK(s) && CanWin(s, row)
    ensures var s', F := ConsumeNext(s, r, row, at), s.families[row.familyId];
            && s'.families == s.families[row.familyId := F.(spent := F.spent + [row.id])]
            && s'.minted == s.minted && FamilyOK(s'.minted, row.familyId, s'.families[row.familyId])
  {
    var f := row.familyId;
    assert RowOK(s, row.id, s.tokens[row.id]);
    assert FamilyOK(s.minted, f, s.families[f]);
    SpentOK(s.minted, f, s.families[f]);
    hide ChainsOK, FamilyOK, RowsOK, RevokedWhere;
  }

  lemma WinIsLocal(s: State, r: ReqId, row: TokenRow, at: int)
    requires ChainsOK(s) && RowsOK(s) && CanWin(s, row)
    ensures var s' := ConsumeNext(s, r, row, at);
            && row.familyId in s'.families && Local(s, s', row.familyId, r)
            && FamilyOK(s'.minted, row.familyId, s'.families[row.familyId])
  {
    hide ChainsOK, FamilyOK, RowsOK, RevokedWhere, ConsumeNext;
    WinSpendsLast(s, r, row, at);
    WinKeepsOtherRows(s, row, at);
    WinningTables(s, r, row, at);
  }

  lemma WinKeepsOtherRows(s: State, row: TokenRow, at: int)
    requires RowsOK(s) && CanWin(s, row)
    ensures var rows := RevokedWhere(s.tokens, ById(row.id), Rotated, at);
            forall id :: id in rows && rows[id].familyId != row.familyId ==> id in s.tokens && rows[id] == s.tokens[id]
  {
    assert RowOK(s, row.id, s.tokens[row.id]);
    forall id | id in s.tokens ensures s.tokens[id].id == id { assert RowOK(s, id, s.tokens[id]); }
    hide RowsOK, RowOK;
  }

  lemma WinClaims(s: State, r: ReqId, row: TokenRow, at: int)
    requires ChainsOK(s) && ClaimsOK(s) && Claim(s.reqs, r).None? && CanWin(s, row)
    requires RowOK(s, row.id, s.tokens[row.id])
    ensures LocalClaim(s, ConsumeNext(s, r, row, at), row.familyId, r)
  {
    hide RevokedWhere;
    var s', f := ConsumeNext(s, r, row, at), row.familyId;
    assert FamilyOK(s.minted, f, s.families[f]);
    hide ChainsOK;
    Unclaimed(s, f);
    hide ClaimsOK;
    forall k ensures Claim(s'.reqs, k) == if k == r then Some((f, row.userId)) else Claim(s.reqs, k) {}
  }

  lemma WinRows(s: State, r: ReqId, row: TokenRow, at: int)
    requires RowsOK(s) && CanWin(s, row)
    ensures var s' := ConsumeNext(s, r, row, at);
            forall id :: id in s'.tokens && s'.tokens[id].familyId == row.familyId ==> RowOK(s', id, s'.tokens[id])
  {
    var s' := ConsumeNext(s, r, row, at);
    assert RowOK(s, row.id, s.tokens[row.id]);
    forall id | id in s'.tokens && s'.tokens[id].familyId == row.familyId ensures RowOK(s', id, s'.tokens[id]) {
      assert RowOK(s, id, s.tokens[id]);
    }
  }

  /** Storing the successor extends the chain by the new live end and gives the claim back. */
  lemma StoreKeepsFamilies(s: State, r: ReqId, owner: UserId, f: FamilyId, at: int, token: TokenId)
    requires FamilyInv(s) && Claim(s.reqs, r) == Some((f, owner)) && token !in s.minted
    ensures FamilyInv(StoreNext(s, r, owner, f, at, token))
  {
    assert ClaimedBy(s, r, f) && ClaimOK(s, (f, owner));
    hide ChainsOK, RowsOK, MintedOK, FoundsOK, ClaimsOK, Local, LocalClaim, FamilyOK, RowOK;
    StoreIsLocal(s, r, owner, f, at, token);
    StoreClaims(s, r, owner, f, at, token);
    StoreRows(s, r, owner, f, at, token);
    LocalKeepsFamilies(s, StoreNext(s, r, owner, f, at, token), f, r);
  }

  lemma StoreIsLocal(s: State, r: ReqId, owner: UserId, f: FamilyId, at: int, token: TokenId)
    requires ChainsOK(s) && MintedOK(s) && ClaimOK(s, (f, owner)) && token !in s.minted
    ensures var s' := StoreNext(s, r, owner, f, at, token);
            f in s'.families && Local(s, s', f, r) && FamilyOK(s'.minted, f, s'.families[f])
  {
    var s' := StoreNext(s, r, owner, f, at, token);
    assert FamilyOK(s.minted, f, s.families[f]);
    ExtendedOK(s.minted, f, s.families[f], token);
    assert s'.families[f].chain[|s.families[f].chain|] == token;
    hide ChainsOK, MintedOK, FamilyOK;
  }

  lemma StoreClaims(s: State, r: ReqId, owner: UserId, f: FamilyId, at: int, token: TokenId)
    requires ClaimsOK(s) && ClaimedBy(s, r, f) && ClaimOK(s, (f, owner))
    ensures LocalClaim(s, StoreNext(s, r, owner, f, at, token), f, r)
  {
    var s' := StoreNext(s, r, owner, f, at, token);
    forall k ensures Claim(s'.reqs, k) == if k == r then None else Claim(s.reqs, k) {}
  }

  lemma StoreRows(s: State, r: ReqId, owner: UserId, f: FamilyId, at: int, token: TokenId)
    requires RowsOK(s) && ClaimOK(s, (f, owner)) && token !in s.minted
    ensures var s' := StoreNext(s, r, owner, f, at, token);
            forall id :: id in s'.tokens && s'.tokens[id].familyId == f ==> RowOK(s', id, s'.tokens[id])
  {
    var s' := StoreNext(s, r, owner, f, at, token);
    forall id | id in s'.tokens && s'.tokens[id].familyId == f ensures RowOK(s', id, s'.tokens[id]) {
      if id in s.tokens { assert RowOK(s, id, s.tokens[id]); }
    }
  }

  lemma OpenKeepsFamilies(s: State, r: ReqId, owner: UserId, token: TokenId, family: FamilyId, at: int)
    requires FamilyInv(s) && Claim(s.reqs, r).None? && token !in s.minted && family !in s.families
    ensures FamilyInv(OpenNext(s, r, owner, token, family, at))
  {
    hide ChainsOK, RowsOK, MintedOK, FoundsOK, ClaimsOK, Local, LocalClaim, FamilyOK, RowOK;
    OpenIsLocal(s, r, owner, token, family, at);
    OpenClaims(s, r, owner, token, family, at);
    OpenRows(s, r, owner, token, family, at);
    LocalKeepsFamilies(s, OpenNext(s, r, owner, token, family, at), family, r);
  }

  lemma OpenIsLocal(s: State, r: ReqId, owner: UserId, token: TokenId, family: FamilyId, at: int)
    requires token !in s.minted && family !in s.families
    ensures var s' := OpenNext(s, r, owner, token, family, at);
            Local(s, s', family, r) && FamilyOK(s'.minted, family, s'.families[family])
  {
    assert OpenNext(s, r, owner, token, family, at).families[family].chain[0] == token;
  }

  lemma OpenClaims(s: State, r: ReqId, owner: UserId, token: TokenId, family: FamilyId, at: int)
    requires ClaimsOK(s) && Claim(s.reqs, r).None? && family !in s.families
    ensures LocalClaim(s, OpenNext(s, r, owner, token, family, at), family, r)
  {
    var s' := OpenNext(s, r, owner, token, family, at);
    Unclaimed(s, family);
    hide ClaimsOK;
    forall k ensures Claim(s'.reqs, k) == Claim(s.reqs, k) {}
  }

  lemma OpenRows(s: State, r: ReqId, owner: UserId, token: TokenId, family: FamilyId, at: int)
    requires RowsOK(s) && token !in s.minted && family !in s.families
    ensures var s' := OpenNext(s, r, owner, token, family, at);
            forall id :: id in s'.tokens && s'.tokens[id].familyId == family ==> RowOK(s', id, s'.tokens[id])
  {
    forall id | id in s.tokens ensures s.tokens[id].familyId != family {
      assert RowOK(s, id, s.tokens[id]);
    }
  }

  // ----- The eight effects -----

  lemma FoundIsOK(s: State, to: Option<Request>)
    requires RowsOK(s) && Found(s, to)
    ensures to.Some? && to.value.RefreshFound? ==> FoundOK(s, to.value.row)
  {
    if to.Some? && to.value.RefreshFound? {
      var k :| k in s.tokens && s.tokens[k] == to.value.row;
      assert RowOK(s, k, s.tokens[k]);
    }
  }

  lemma MovingKeepsFamilies(s: State, r: ReqId, to: Option<Request>)
    requires FamilyInv(s) && Possible(s, Moving(r, to))
    ensures FamilyInv(MovedTo(s, r, to))
  {
    FoundIsOK(s, to);
    ClaimsMove(s, r, to);
    hide Findable, Found, Claim, ClaimOf, ChainsOK, RowsOK, MintedOK, ClaimsOK;
    QuietKeepsFamilies(s, MovedTo(s, r, to));
  }

  lemma ClaimsMove(s: State, r: ReqId, to: Option<Request>)
    requires ClaimAt(to) == Claim(s.reqs, r)
    ensures forall k :: Claim(MovedTo(s, r, to).reqs, k) == Claim(s.reqs, k)
  {
    hide ClaimOf;
  }

  lemma RevokingKeepsFamilies(s: State, x: Effect)
    requires FamilyInv(s) && x.Revoking? && Possible(s, x)
    ensures FamilyInv(After(s, x))
  {
    var s0 := RevokedIn(s, Within(x.scope), x.reason, x.at);
    QuietKeepsFamilies(s, s0);
    hide FamilyInv, RevokedWhere, Findable;
    MovingKeepsFamilies(s0, x.r, x.to);
  }

  lemma EffectKeepsFamilies(s: State, x: Effect)
    requires FamilyInv(s) && Possible(s, x)
    ensures FamilyInv(After(s, x))
  {
    if x.Sweeping? {
      QuietKeepsFamilies(s, After(s, x));
    } else if x.Winning? {
      assert FoundOK(s, s.reqs[x.r].row);
      hide FamilyInv;
      WinKeepsFamilies(s, x.r, x.row, x.at);
    } else {
      hide FamilyInv, ConsumeNext, StoreNext, OpenNext, Dropped;
      match x
      case Moving(r, to) => MovingKeepsFamilies(s, r, to);
      case Revoking(_, _, _, _, _) => RevokingKeepsFamilies(s, x);
      case Storing(r, owner, f, at, token) => StoreKeepsFamilies(s, r, owner, f, at, token);
      case Opening(r, owner, token, f, at) => OpenKeepsFamilies(s, r, owner, token, f, at);
      case Dropping(r) => DropKeepsFamilies(s, r);
      case Nothing =>
    }
  }

  lemma SameSessionsSameFamilies(s: State, s': State)
    requires FamilyInv(s) && SameSessions(s, s')
    ensures FamilyInv(s')
  {
    QuietKeepsFamilies(s, s');
  }

  lemma NextKeepsFamilies(s: State, e: Event)
    requires FamilyInv(s) && Serial(s.users) && Enabled(s, e)
    ensures FamilyInv(Next(s, e))
  {
    hide FamilyInv, Serial, Enabled, Next, Possible, After;
    var x := StepDoes(s, e);
    EffectKeepsFamilies(s, x);
    SameSessionsSameFamilies(After(s, x), Next(s, e));
  }

  // ----- Every family belongs to an account -----

  ghost predicate OwnersOK(s: State) {
    forall f :: f in s.families ==> s.families[f].owner in s.users
  }

  ghost predicate LoginsKnown(s: State) {
    forall r :: r in s.reqs && s.reqs[r].LoginSigned? ==> s.reqs[r].owner in s.users
  }

  ghost predicate KeepsOwners(s: State, s': State) {
    && (forall f :: f in s.families ==> f in s'.families)
    && (forall f :: f in s'.families ==>
          (f in s.families && s'.families[f].owner == s.families[f].owner) || s'.families[f].owner in s.users)
  }

  lemma WinKeepsOwners(s: State, r: ReqId, row: TokenRow, at: int)
    ensures KeepsOwners(s, ConsumeNext(s, r, row, at))
  {
    hide RevokedWhere;
  }

  lemma StoreKeepsOwners(s: State, r: ReqId, owner: UserId, f: FamilyId, at: int, token: TokenId)
    ensures KeepsOwners(s, StoreNext(s, r, owner, f, at, token))
  {
  }

  lemma DropKeepsOwners(s: State, r: ReqId)
    requires r in s.reqs
    ensures KeepsOwners(s, Dropped(s, r))
  {
  }

  lemma EffectKeepsOwners(s: State, x: Effect)
    requires LoginsKnown(s) && Possible(s, x)
    ensures KeepsOwners(s, After(s, x))
  {
    if x.Opening? {
      assert x.owner in s.users;
      hide Possible, LoginsKnown;
    } else {
      hide Possible, LoginsKnown, Within, RevokedWhere, ConsumeNext, StoreNext, Dropped, OpenNext;
      if x.Winning? {
        WinKeepsOwners(s, x.r, x.row, x.at);
      } else if x.Storing? {
        StoreKeepsOwners(s, x.r, x.owner, x.family, x.at, x.token);
      } else if x.Dropping? {
        if x.r in s.reqs { DropKeepsOwners(s, x.r); }
      } else {
        assert After(s, x).families == s.families;
        hide After;
      }
    }
  }

  lemma NextKeepsOwners(s: State, e: Event)
    requires OwnersOK(s) && LoginsKnown(s) && Serial(s.users) && Enabled(s, e) && s.users.Keys <= Next(s, e).users.Keys
    ensures OwnersOK(Next(s, e)) && s.families.Keys <= Next(s, e).families.Keys
  {
    hide Serial, Enabled, Next, LoginsKnown, Possible, After;
    var x := StepDoes(s, e);
    EffectKeepsOwners(s, x);
  }
}
