/**
 * What a request can count on while it awaits: the events of other requests never touch its own local
 * variables, and everything else only moves forward.
 */
module Interleaving {
  import opened Common
  import opened UserEntity
  import opened UserRepository
  import opened RefreshTokens
  import opened AccessTokens
  import opened Session
  import opened SessionEffects
  import opened SessionInvariant
  import opened FamilyInvariant
  import opened SessionTheorems

  /** The steps one request took, in order. */
  function Own(es: seq<Event>, r: ReqId): seq<Event>
    decreases |es|
  {
    if es == [] then []
    else Own(es[..|es| - 1], r) + (if Actor(es[|es| - 1]) == Some(r) then [es[|es| - 1]] else [])
  }

  lemma OwnAdds(es: seq<Event>, e: Event, r: ReqId)
    ensures Own(es + [e], r) == Own(es, r) + (if Actor(e) == Some(r) then [e] else [])
  {
    assert (es + [e])[..|es|] == es;
  }

  lemma {:induction false} OwnSplits(es: seq<Event>, more: seq<Event>, r: ReqId)
    ensures Own(es + more, r) == Own(es, r) + Own(more, r)
    decreases |more|
  {
    if more == [] {
      assert es + more == es;
    } else {
      var front, e := more[..|more| - 1], more[|more| - 1];
      OwnSplits(es, front, r);
      OwnAdds(es + front, e, r);
      OwnAdds(front, e, r);
      assert es + more == es + front + [e] && more == front + [e];
    }
  }

  lemma EffectLeavesOthers(s: State, x: Effect, r: ReqId)
    requires Possible(s, x) && (x.Nothing? || x.Sweeping? || x.r != r)
    ensures (r in After(s, x).reqs <==> r in s.reqs) && (r in s.reqs ==> After(s, x).reqs[r] == s.reqs[r])
  {
    AfterTables(s, x);
    hide Possible, After;
  }

  lemma StepLeavesOthers(s: State, e: Event, r: ReqId)
    requires Serial(s.users) && Enabled(s, e) && Actor(e) != Some(r)
    ensures (r in Next(s, e).reqs <==> r in s.reqs) && (r in s.reqs ==> Next(s, e).reqs[r] == s.reqs[r])
  {
    hide Serial, Enabled, Next, Possible, After;
    var x := StepDoes(s, e);
    EffectLeavesOthers(s, x, r);
  }

  /** What an await leaves a request with. */
  ghost predicate Waits(s: State, t: State, r: ReqId) {
    Ahead(s, t) && (r in t.reqs <==> r in s.reqs) && (r in s.reqs ==> t.reqs[r] == s.reqs[r])
  }

  lemma {:induction false} OthersRun(s: State, es: seq<Event>, t: State, r: ReqId)
    requires Inv(s) && Run(s, es) == Some(t) && Own(es, r) == []
    ensures Inv(t) && Waits(s, t, r)
    decreases |es|
  {
    RunKeepsInv(s, es, t);
    if es != [] {
      hide Inv, Ahead, Enabled, Next;
      OwnSplits([es[0]], es[1..], r);
      assert [es[0]] + es[1..] == es;
      OwnAdds([], es[0], r);
      assert [] + [es[0]] == [es[0]];
      assert Serial(s.users) by { InvParts(s); }
      StepLeavesOthers(s, es[0], r);
      StepKeepsInv(s, es[0]);
      OthersRun(Next(s, es[0]), es[1..], t, r);
    }
  }
}
