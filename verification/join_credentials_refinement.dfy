/**
 The save of join_save.dfy is one of the workers of join_credentials_protocol.dfy: whatever the world
 shows it, its tables and its remote actions are those of a sequence of protocol events. So everything
 proved of every run of the protocol holds of the save as it is written.
 */
module JoinCredentialsRefinement {
  import opened Common
  import opened JoinCredentials
  import P = JoinCredentialsProtocol
  import H = JoinSave

  /** These events led here: the worker is at `k`, with these tables and calls, and nobody else has moved. */
  ghost predicate Ran(s: P.State, events: seq<P.Event>, w: nat, k: P.Worker, t: Table, calls: seq<P.Call>) {
    P.Run(s, events) == P.State(t, s.workers[w := k], calls)
  }

  function TicketOf(w: nat, k: P.Worker): Ticket { Ticket(w, k.epoch) }

  /** The terms of a claim. */
  datatype Terms = Terms(duration: int, limit: int, repair: bool, confirmed: bool, authority: bool)

  predicate Admitted(t: Table, c: Terms) { MayClaim(t, c.duration, c.repair, c.confirmed, c.authority) }

  function ClaimedTx(t: Table, w: nat, c: Terms): Table { ClaimTx(t, w, c.duration, c.limit, c.repair, c.confirmed, c.authority) }

  // ----- one event at a time

  /** One more event behind a sequence that led here. */
  lemma Do(s: P.State, events: seq<P.Event>, w: nat, k: P.Worker, t: Table, calls: seq<P.Call>, e: P.Event) returns (more: seq<P.Event>)
    requires Ran(s, events, w, k, t, calls)
    ensures more == events + [e] && P.Run(s, more) == P.Next(P.State(t, s.workers[w := k], calls), e)
  {
    more := events + [e];
    assert more[..|more| - 1] == events;
  }

  lemma Wait(s: P.State, events: seq<P.Event>, w: nat, k: P.Worker, t: Table, calls: seq<P.Call>, d: nat) returns (more: seq<P.Event>)
    requires Ran(s, events, w, k, t, calls)
    ensures Ran(s, more, w, k, H.Later(t, d), calls)
  {
    more := Do(s, events, w, k, t, calls, P.Tick(d));
  }

  lemma Claim(s: P.State, w: nat, c: Terms) returns (all: seq<P.Event>)
    requires w !in s.workers
    ensures Ran(s, all, w, if Admitted(s.table, c) then P.Worker(P.Claimed, s.table.epoch + 1) else P.Worker(P.Waiting, 0),
                ClaimedTx(s.table, w, c), s.calls)
  {
    var spawned := [P.Spawn(w)];
    assert spawned[..0] == [];
    assert Ran(s, spawned, w, P.Worker(P.Waiting, 0), s.table, s.calls);
    all := Do(s, spawned, w, P.Worker(P.Waiting, 0), s.table, s.calls,
              P.By(w, P.Claim(c.duration, c.limit, c.repair, c.confirmed, c.authority)));
  }

  lemma Check(s: P.State, events: seq<P.Event>, w: nat, k: P.Worker, t: Table, calls: seq<P.Call>) returns (more: seq<P.Event>)
    requires Ran(s, events, w, k, t, calls) && k.pc.Claimed? && t.generations == []
    ensures Ran(s, more, w, k.(pc := P.At(Web)), t, calls)
  {
    more := Do(s, events, w, k, t, calls, P.By(w, P.CheckPublished));
  }

  /** A valid checkpoint is passed by. */
  lemma Reuse(s: P.State, events: seq<P.Event>, w: nat, k: P.Worker, t: Table, calls: seq<P.Call>, kind: Kind) returns (more: seq<P.Event>)
    requires Ran(s, events, w, k, t, calls) && k.pc == P.At(kind) && Stored(t.components, kind).Some?
    ensures Ran(s, more, w, k.(pc := P.After(kind)), t, calls)
  {
    more := Do(s, events, w, k, t, calls, P.By(w, P.Look(true)));
  }

  lemma Clear(s: P.State, events: seq<P.Event>, w: nat, k: P.Worker, t: Table, calls: seq<P.Call>, kind: Kind) returns (more: seq<P.Event>)
    requires Ran(s, events, w, k, t, calls) && k.pc == P.At(kind) && H.Startable(t, kind)
    ensures Ran(s, more, w, k.(pc := P.Cleared(kind)), t, calls)
  {
    more := Do(s, events, w, k, t, calls, P.By(w, P.Look(false)));
  }

  lemma Start(s: P.State, events: seq<P.Event>, w: nat, k: P.Worker, t: Table, calls: seq<P.Call>, kind: Kind, authority: bool)
    returns (more: seq<P.Event>)
    requires Ran(s, events, w, k, t, calls) && k.pc == P.Cleared(kind)
    ensures Ran(s, more, w, if Current(t, TicketOf(w, k), authority) then k.(pc := P.Begun(kind)) else k,
                StartTx(t, TicketOf(w, k), kind, authority), calls)
  {
    more := Do(s, events, w, k, t, calls, P.By(w, P.Start(authority)));
  }

  /** Where a remote action leaves the worker. */
  function Answered(k: P.Worker, kind: Kind, pass: H.Pass): P.Worker {
    k.(pc := if pass.answer.Some? then P.Acted(kind, pass.answer.value.0, pass.answer.value.1) else P.Finished)
  }

  function Called(w: nat, t: Table, kind: Kind): P.Call { P.Call.Call(kind, w, Stored(t.components, Web).Some?) }

  lemma Call(s: P.State, events: seq<P.Event>, w: nat, k: P.Worker, t: Table, calls: seq<P.Call>, kind: Kind, pass: H.Pass)
    returns (more: seq<P.Event>)
    requires Ran(s, events, w, k, t, calls) && k.pc == P.Begun(kind)
    ensures Ran(s, more, w, Answered(k, kind, pass), t, calls + [Called(w, t, kind)])
  {
    var step := if pass.answer.Some? then P.Step.Call(true, pass.answer.value.0, pass.answer.value.1) else P.Step.Call(false, 0, 0);
    more := Do(s, events, w, k, t, calls, P.By(w, step));
  }

  lemma Store(s: P.State, events: seq<P.Event>, w: nat, k: P.Worker, t: Table, calls: seq<P.Call>, authority: bool) returns (more: seq<P.Event>)
    requires Ran(s, events, w, k, t, calls) && k.pc.Acted?
    ensures Ran(s, more, w, if Current(t, TicketOf(w, k), authority) then k.(pc := P.After(k.pc.kind)) else k,
                StoreTx(t, TicketOf(w, k), k.pc.kind, k.pc.digest, k.pc.expires, authority), calls)
  {
    more := Do(s, events, w, k, t, calls, P.By(w, P.Store(authority)));
  }

  lemma Review(s: P.State, events: seq<P.Event>, w: nat, k: P.Worker, t: Table, calls: seq<P.Call>, kind: Kind, authority: bool)
    returns (more: seq<P.Event>)
    requires Ran(s, events, w, k, t, calls) && !k.pc.Waiting?
    ensures Ran(s, more, w, k.(pc := P.Finished), ReviewTx(t, TicketOf(w, k), kind, authority), calls)
  {
    more := Do(s, events, w, k, t, calls, P.By(w, P.Review(kind, authority)));
  }

  /** A refused publication changes nothing. */
  lemma Publish(s: P.State, events: seq<P.Event>, w: nat, k: P.Worker, t: Table, calls: seq<P.Call>, f: H.Frame)
    returns (more: seq<P.Event>, k': P.Worker)
    requires Ran(s, events, w, k, t, calls) && k.pc.Complete?
    ensures Ran(s, more, w, k', PublishTx(t, TicketOf(w, k), f.valid, f.authority), calls) && k'.epoch == k.epoch
  {
    k' := if MayPublish(t, TicketOf(w, k), f.valid, f.authority) then k.(pc := P.Finished) else k;
    more := Do(s, events, w, k, t, calls, P.By(w, P.Publish(f.valid, f.authority)));
  }

  lemma Quit(s: P.State, events: seq<P.Event>, w: nat, k: P.Worker, t: Table, calls: seq<P.Call>) returns (more: seq<P.Event>)
    requires Ran(s, events, w, k, t, calls)
    ensures Ran(s, more, w, k.(pc := P.Finished), ReleaseTx(t, TicketOf(w, k)), calls)
  {
    more := Do(s, events, w, k, t, calls, P.By(w, P.Quit));
  }

  // ----- the parts of a run

  /** Behind the remote action: its answer is stored, or asks for review. */
  lemma Answers(s: P.State, events: seq<P.Event>, w: nat, k: P.Worker, t: Table, calls: seq<P.Call>, kind: Kind, pass: H.Pass)
    returns (all: seq<P.Event>, k': P.Worker)
    requires Ran(s, events, w, Answered(k, kind, pass), t, calls)
    ensures Ran(s, all, w, k', H.AnsweredTx(t, TicketOf(w, k), kind, pass), calls) && k'.epoch == k.epoch
    ensures pass.answer.Some? && pass.route && Current(t, TicketOf(w, k), pass.storeAuthority) ==> k'.pc == P.After(kind)
  {
    var acted := Answered(k, kind, pass);
    if pass.answer.None? {
      k' := acted;
      all := Review(s, events, w, acted, t, calls, kind, pass.reviewAuthority);
    } else if !pass.route {
      k', all := acted, events;
    } else {
      k' := if Current(t, TicketOf(w, k), pass.storeAuthority) then k.(pc := P.After(kind)) else acted;
      all := Store(s, events, w, acted, t, calls, pass.storeAuthority);
    }
  }

  lemma Obtains(s: P.State, events: seq<P.Event>, w: nat, k: P.Worker, t: Table, calls: seq<P.Call>, kind: Kind, pass: H.Pass)
    returns (all: seq<P.Event>, k': P.Worker)
    requires Ran(s, events, w, k, t, calls) && k.pc == P.At(kind) && H.Startable(t, kind)
    ensures Ran(s, all, w, k', H.ObtainedTx(t, TicketOf(w, k), kind, pass),
                calls + if H.Callable(t, TicketOf(w, k), kind, pass) then [Called(w, t, kind)] else [])
    ensures k'.epoch == k.epoch && (H.Stores(t, TicketOf(w, k), kind, pass) ==> k'.pc == P.After(kind))
  {
    assert calls + [] == calls;
    var x, proven := TicketOf(w, k), H.Later(t, pass.proving);
    all := Clear(s, events, w, k, t, calls, kind);
    k' := k.(pc := P.Cleared(kind));
    all := Wait(s, all, w, k', t, calls, pass.proving);
    if pass.proof.Proven? {
      all := Start(s, all, w, k', proven, calls, kind, pass.startAuthority);
      if Current(proven, x, pass.startAuthority) {
        k' := k.(pc := P.Begun(kind));
        if pass.mayAct {
          var started, more := StartTx(proven, x, kind, pass.startAuthority), calls + [Called(w, t, kind)];
          all := Call(s, all, w, k', started, calls, kind, pass);
          all := Wait(s, all, w, Answered(k', kind, pass), started, more, pass.delay);
          all, k' := Answers(s, all, w, k', H.Later(started, pass.delay), more, kind, pass);
        }
      }
    }
  }

  /** The pass over one component: `k'` is where it leaves the worker. */
  lemma Passes(s: P.State, events: seq<P.Event>, w: nat, k: P.Worker, t: Table, calls: seq<P.Call>, kind: Kind, pass: H.Pass)
    returns (all: seq<P.Event>, k': P.Worker)
    requires Ran(s, events, w, k, t, calls) && k.pc == P.At(kind)
    ensures Ran(s, all, w, k', H.ComponentTx(t, TicketOf(w, k), kind, pass),
                calls + if H.Callable(t, TicketOf(w, k), kind, pass) then [Called(w, t, kind)] else [])
    ensures k'.epoch == k.epoch && (H.Stores(t, TicketOf(w, k), kind, pass) ==> k'.pc == P.After(kind))
  {
    assert calls + [] == calls;
    if H.Unresolved(t, kind, pass) {
      k' := k.(pc := P.Finished);
      all := Review(s, events, w, k, t, calls, kind, pass.reviewAuthority);
    } else if Stored(t.components, kind).Some? {
      k' := k.(pc := P.After(kind));
      all := Reuse(s, events, w, k, t, calls, kind);
    } else {
      all, k' := Obtains(s, events, w, k, t, calls, kind, pass);
    }
  }

  /** The remote actions of a run as the protocol records them. */
  function Calls(t: Table, w: nat, x: Ticket, passes: map<Kind, H.Pass>): seq<P.Call>
    requires Web in passes && OAuth in passes
  {
    (if H.Callable(t, x, Web, passes[Web]) then [P.Call.Call(Web, w, false)] else [])
    + (if H.ReachesOAuth(t, x, passes) && H.Callable(H.WebBehind(t, x, passes), x, OAuth, passes[OAuth])
       then [P.Call.Call(OAuth, w, true)] else [])
  }

  lemma Pairs(s: P.State, events: seq<P.Event>, w: nat, k: P.Worker, t: Table, passes: map<Kind, H.Pass>)
    returns (all: seq<P.Event>, k': P.Worker)
    requires Web in passes && OAuth in passes
    requires Ran(s, events, w, k, t, s.calls) && k.pc == P.At(Web)
    ensures Ran(s, all, w, k', H.PairTx(t, TicketOf(w, k), passes), s.calls + Calls(t, w, TicketOf(w, k), passes))
    ensures k'.epoch == k.epoch && (H.StoresBoth(t, TicketOf(w, k), passes) ==> k'.pc.Complete?)
  {
    var x := TicketOf(w, k);
    all, k' := Passes(s, events, w, k, t, s.calls, Web, passes[Web]);
    H.ComponentTells(t, x, Web, passes[Web]);
    var calls := s.calls + if H.Callable(t, x, Web, passes[Web]) then [Called(w, t, Web)] else [];
    if H.ReachesOAuth(t, x, passes) {
      all, k' := Passes(s, all, w, k', H.WebBehind(t, x, passes), calls, OAuth, passes[OAuth]);
    }
    assert s.calls + Calls(t, w, x, passes) == calls
        + if H.ReachesOAuth(t, x, passes) && H.Callable(H.WebBehind(t, x, passes), x, OAuth, passes[OAuth])
          then [Called(w, H.WebBehind(t, x, passes), OAuth)] else [];
  }

  lemma Publishes(s: P.State, events: seq<P.Event>, w: nat, k: P.Worker, t: Table, calls: seq<P.Call>, f: H.Frame)
    returns (all: seq<P.Event>, k': P.Worker)
    requires Ran(s, events, w, k, t, calls) && k.pc.Complete?
    ensures Ran(s, all, w, k', H.FinishedTx(t, TicketOf(w, k), f), calls) && k'.epoch == k.epoch
  {
    k' := k;
    all := Wait(s, events, w, k, t, calls, f.publishing);
    if f.publishProof.Proven? { all, k' := Publish(s, all, w, k, H.Later(t, f.publishing), calls, f); }
  }

  lemma Saves(s: P.State, events: seq<P.Event>, w: nat, k: P.Worker, t: Table, passes: map<Kind, H.Pass>, f: H.Frame)
    returns (all: seq<P.Event>)
    requires Web in passes && OAuth in passes
    requires Ran(s, events, w, k, t, s.calls) && k.pc.Claimed?
    ensures var x := TicketOf(w, k);
            Ran(s, all, w, k.(pc := P.Finished), ReleaseTx(H.SavedTx(t, x, passes, f), x),
                s.calls + if H.Begins(t, f) then Calls(t, w, x, passes) else [])
  {
    var x := TicketOf(w, k);
    assert s.calls + [] == s.calls;
    all := events;
    var k', calls := k, s.calls;
    if H.Begins(t, f) {
      calls := s.calls + Calls(t, w, x, passes);
      all := Check(s, all, w, k, t, s.calls);
      all, k' := Pairs(s, all, w, k.(pc := P.At(Web)), t, passes);
      if H.StoresBoth(t, x, passes) { all, k' := Publishes(s, all, w, k', H.PairTx(t, x, passes), calls, f); }
    }
    all := Quit(s, all, w, k', H.SavedTx(t, x, passes, f), calls);
  }

  function Held(t: Table, w: nat): Ticket { Ticket(w, t.epoch + 1) }

  /** The tables behind the methods `Claim` and, where it succeeds, `Save`. */
  function WorkedTx(t: Table, w: nat, c: Terms, passes: map<Kind, H.Pass>, f: H.Frame): Table
    requires Web in passes && OAuth in passes
  {
    if Admitted(t, c) then ReleaseTx(H.SavedTx(ClaimedTx(t, w, c), Held(t, w), passes, f), Held(t, w)) else t
  }

  /** The remote actions of such a worker as the protocol records them. */
  function WorkedCalls(t: Table, w: nat, c: Terms, passes: map<Kind, H.Pass>, f: H.Frame): seq<P.Call>
    requires Web in passes && OAuth in passes
  {
    if Admitted(t, c) && H.Begins(t, f) then Calls(ClaimedTx(t, w, c), w, Held(t, w), passes) else []
  }

  /**
   Every run of a save or repair, from its claim on, is a sequence of protocol events: the protocol
   ends with the very tables the run leaves, and its remote actions are those of the run.
   */
  lemma RunIsProtocolRun(s: P.State, w: nat, c: Terms, passes: map<Kind, H.Pass>, f: H.Frame) returns (all: seq<P.Event>, k': P.Worker)
    requires w !in s.workers && Web in passes && OAuth in passes
    ensures Ran(s, all, w, k', WorkedTx(s.table, w, c, passes, f), s.calls + WorkedCalls(s.table, w, c, passes, f))
  {
    assert s.calls + [] == s.calls;
    all := Claim(s, w, c);
    k' := P.Worker(P.Waiting, 0);
    if Admitted(s.table, c) {
      var k := P.Worker(P.Claimed, s.table.epoch + 1);
      all := Saves(s, all, w, k, ClaimedTx(s.table, w, c), passes, f);
      k' := k.(pc := P.Finished);
    }
  }

  // ----- behind every run of the protocol

  lemma CallsGrow(s: P.State, e: P.Event)
    ensures s.calls <= P.Next(s, e).calls
  {
  }

  lemma {:induction false} RunContinues(s0: P.State, events: seq<P.Event>, more: seq<P.Event>)
    ensures P.Run(s0, events + more) == P.Run(P.Run(s0, events), more)
    ensures P.Run(s0, events).calls <= P.Run(s0, events + more).calls
  {
    if more == [] {
      assert events + more == events;
    } else {
      InitOfConcat(events, more);
      RunContinues(s0, events, more[..|more| - 1]);
      CallsGrow(P.Run(s0, events + more[..|more| - 1]), more[|more| - 1]);
    }
  }

  /** What a worker publishes is the only generation there will ever be. */
  lemma PublicationStays(s0: P.State, events: seq<P.Event>, later: seq<P.Event>)
    requires P.Initial(s0) && P.Run(s0, events).table.generations != []
    ensures P.Run(s0, events + later).table.generations == P.Run(s0, events).table.generations
  {
    P.PublishedPairIsStoredPair(s0, events + later);
    P.HistoryIsKept(s0, events, later);
  }

  /**
   Whatever saves, repairs and crashes came before, the worker goes on as one more part of that run of
   the protocol: a remote action it calls was never called before and is never called again.
   */
  lemma WorkerJoinsAnyRun(s0: P.State, events: seq<P.Event>, w: nat, c: Terms, passes: map<Kind, H.Pass>, f: H.Frame, later: seq<P.Event>)
    returns (all: seq<P.Event>)
    requires P.Initial(s0) && w !in P.Run(s0, events).workers && Web in passes && OAuth in passes
    ensures var s, end := P.Run(s0, events), P.Run(s0, all + later).calls;
            && events <= all && P.Run(s0, all).table == WorkedTx(s.table, w, c, passes, f)
            && P.Run(s0, all).calls == s.calls + WorkedCalls(s.table, w, c, passes, f) <= end
            && forall i, j :: |s.calls| <= i < |P.Run(s0, all).calls| && 0 <= j < |end| && i != j ==> end[i].kind != end[j].kind
    ensures P.Run(s0, all).table.generations != [] ==> P.Run(s0, all + later).table.generations == P.Run(s0, all).table.generations
  {
    var more, k' := RunIsProtocolRun(P.Run(s0, events), w, c, passes, f);
    all := events + more;
    RunContinues(s0, events, more);
    RunContinues(s0, all, later);
    P.EachActionAtMostOnce(s0, all + later);
    if P.Run(s0, all).table.generations != [] { PublicationStays(s0, all, later); }
  }
}
