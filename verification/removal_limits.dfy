/**
 The exceptions in RemovalSafety are real: from which states the fence has a gap, runs that reach
 them, and a run in which a stop does not advance a lease epoch.
 */
module RemovalLimits {
  import opened Common
  import opened RemovalTables
  import opened RemovalProtocol

  /** One pending slot of one authorization that expires at time 50. */
  function Fresh(): State {
    State(Rows(0, map[0 := FREE], map[0 := Preview(0, 50, false, false, false)], []),
          map[], map[], map[], [], {})
  }

  /** Extends a run by one event, to the state spelled out. */
  lemma Then(events: seq<Event>, s: State, e: Event, s': State) returns (longer: seq<Event>, reached: State)
    requires Run(Fresh(), events) == s && Next(s, e) == s'
    ensures longer == events + [e] && Run(Fresh(), longer) == s' == reached
  {
    longer, reached := events + [e], s';
    assert longer[..|longer| - 1] == events;
  }

  function At(slot: Slot, gate: map<nat, nat>, workers: map<nat, Worker>, halters: map<nat, Halter> := map[],
              now: int := 0): State
  {
    State(Rows(now, map[0 := slot], map[0 := Preview(0, 50, false, false, false)], []), gate, workers, halters, [], {})
  }

  function Runner(pc: Pc, epoch: nat := 1): Worker { Worker(0, false, false, pc, true, epoch, false) }

  function Stopper(h: nat, pc: HaltPc): map<nat, Halter> { map[h := Halter(0, false, pc, true)] }

  /** Handler 1 is finished, handler 2 verifies. */
  function WithObserver(pc: Pc, reconcile: bool, epoch: nat, requested: bool): map<nat, Worker> {
    map[1 := Runner(Finished), 2 := Worker(0, true, reconcile, pc, true, epoch, requested)]
  }

  const FREE := Slot(0, Pending, None, false, 0, None, 0)
  const HELD := Slot(0, LeaseAcquired, None, false, 1, Some(Lease(1, 60)), 1)
  const REQUESTED := Slot(0, RemoveRequested, Some(1), true, 1, Some(Lease(1, 60)), 1)
  const OBSERVED := Slot(0, Stopped, Some(1), true, 2, Some(Lease(2, 130)), 2)

  /** Handler 1 takes the workspace lock and screens itself. */
  lemma Claiming() returns (events: seq<Event>, s: State)
    ensures Run(Fresh(), events) == s == At(FREE, map[0 := 1], map[1 := Runner(Screened, 0)])
  {
    events, s := [], Fresh();
    events, s := Then(events, s, Spawn(1, 0, false), At(FREE, map[], map[1 := Runner(Waiting, 0)]));
    events, s := Then(events, s, Act(1, Lock), At(FREE, map[0 := 1], map[1 := Runner(Gated, 0)]));
    events, s := Then(events, s, Act(1, Screen), At(FREE, map[0 := 1], map[1 := Runner(Screened, 0)]));
  }

  lemma FreshClaim(r: Rows)
    requires r == At(FREE, map[], map[]).rows
    ensures MayClaim(r, 0, false, false, true) && ClaimTx(r, 1, 0, false, false, 60, true) == At(HELD, map[], map[]).rows
  {
    assert r.slots[0] == FREE && ClaimedRow(FREE, 1, 60, false) == HELD;
    assert r.slots[0 := HELD] == map[0 := HELD];
  }

  lemma ClaimStep(s: State, s': State)
    requires s == At(FREE, map[0 := 1], map[1 := Runner(Screened, 0)]) && s' == At(HELD, map[0 := 1], map[1 := Runner(Claimed)])
    ensures Next(s, Act(1, Claim(60, true))) == s'
  {
    FreshClaim(s.rows);
    var t := Transact(s, 1, Action.Claim(60, true));
    assert t.rows == s'.rows;
    assert t.workers == s'.workers;
  }

  lemma HeldReserve(r: Rows)
    requires r == At(HELD, map[], map[]).rows
    ensures MayReserve(r, Ticket(1, 0, 1, false), true)
    ensures ReserveTx(r, Ticket(1, 0, 1, false), true) == At(REQUESTED, map[], map[]).rows
  {
    assert r.slots[0] == HELD;
    assert r.slots[0 := REQUESTED] == map[0 := REQUESTED];
  }

  /** It claims slot 0. */
  lemma Holding() returns (events: seq<Event>, s: State)
    ensures Run(Fresh(), events) == s == At(HELD, map[0 := 1], map[1 := Runner(Claimed)])
  {
    events, s := Claiming();
    var held := At(HELD, map[0 := 1], map[1 := Runner(Claimed)]);
    ClaimStep(s, held);
    events, s := Then(events, s, Act(1, Claim(60, true)), held);
  }

  /** It releases the lock and checks the roster. */
  lemma Preflight() returns (events: seq<Event>, s: State)
    ensures Run(Fresh(), events) == s == At(HELD, map[], map[1 := Runner(Ready)])
  {
    events, s := Holding();
    events, s := Then(events, s, Act(1, Unlock), At(HELD, map[], map[1 := Runner(Reading)]));
    events, s := Then(events, s, Act(1, Snapshot(false)), At(HELD, map[], map[1 := Runner(Ready)]));
  }

  /** It retakes the lock. */
  lemma Rearmed() returns (events: seq<Event>, s: State)
    ensures Run(Fresh(), events) == s == At(HELD, map[0 := 1], map[1 := Runner(Armed)])
  {
    events, s := Preflight();
    events, s := Then(events, s, Act(1, Lock), At(HELD, map[0 := 1], map[1 := Runner(Armed)]));
  }

  /** It commits its request identity. */
  lemma Committed() returns (events: seq<Event>, s: State)
    ensures Run(Fresh(), events) == s == At(REQUESTED, map[0 := 1], map[1 := Runner(Reserved)])
  {
    events, s := Rearmed();
    HeldReserve(s.rows);
    events, s := Then(events, s, Act(1, Reserve(true)), At(REQUESTED, map[0 := 1], map[1 := Runner(Reserved)]));
  }

  /** It probes its session. */
  lemma Poised() returns (events: seq<Event>, s: State)
    ensures Run(Fresh(), events) == s == At(REQUESTED, map[0 := 1], map[1 := Runner(Probed)])
  {
    events, s := Committed();
    events, s := Then(events, s, Act(1, Probe), At(REQUESTED, map[0 := 1], map[1 := Runner(Probed)]));
  }

  // ----- the fence opens with a lost session, from every state

  /** The session of a probed handler dies, and a stop takes the lock it held and commits. */
  function HaltThrough(s: State, w: nat, h: nat, p: nat): (s': State)
    requires s.rows.Scoped()
    ensures s'.rows.Scoped()
  {
    Next(Next(Next(Next(s, SessionLost(w)), SpawnHalt(h, p, false)), HaltLock(h)), HaltCommit(h))
  }

  lemma HaltGetsThrough(s: State, w: nat, h: nat)
    requires s.rows.Scoped() && WorkerInv(s, w) && s.workers[w].pc.Probed? && s.workers[w].alive
    requires h !in s.workers && h !in s.halters && !s.rows.previews[s.rows.slots[s.workers[w].slot].preview].Halted()
    ensures var p := s.rows.slots[s.workers[w].slot].preview; var s' := HaltThrough(s, w, h, p);
            && w in s'.workers && s'.workers[w] == s.workers[w].(alive := false)
            && s'.workers[w].slot in s'.rows.slots && s'.rows.slots[s'.workers[w].slot].preview == p
            && s'.rows.previews[p].stopped && s'.sends == s.sends && s'.lapsed == s.lapsed
  {
    var p := s.rows.slots[s.workers[w].slot].preview;
    var s1 := Next(s, SessionLost(w));
    assert s1.rows == s.rows && s1.rows.previews[p].workspace !in s1.gate;
    var s3 := Next(Next(s1, SpawnHalt(h, p, false)), HaltLock(h));
    assert s3.halters[h] == Halter(p, false, HaltGated, true) && s3.workers == s1.workers && s3.rows == s.rows;
  }

  lemma SendsLate(s: State, w: nat)
    requires s.rows.Scoped() && w in s.workers && s.workers[w].pc == Probed && s.workers[w].slot in s.rows.slots
    requires s.rows.previews[s.rows.slots[s.workers[w].slot].preview].stopped
    ensures var s' := Next(s, Act(w, Dispatch(true))); var d := s.workers[w];
            s'.sends == s.sends + [Send(d.slot, w, s.rows.slots[d.slot].request, true, d.alive)] && s'.lapsed == s.lapsed
  {
  }

  /** The gap is open in every state that has a handler between its probe and its send. */
  lemma GapIsAlwaysOpen(s: State, w: nat, h: nat)
    requires s.rows.Scoped() && WorkerInv(s, w) && s.workers[w].pc.Probed? && s.workers[w].alive
    requires h !in s.workers && h !in s.halters && !s.rows.previews[s.rows.slots[s.workers[w].slot].preview].Halted()
    ensures var p := s.rows.slots[s.workers[w].slot].preview;
            var sent := Next(HaltThrough(s, w, h, p), Act(w, Dispatch(true)));
            && |sent.sends| == |s.sends| + 1 && sent.sends[|s.sends|].worker == w && sent.sends[|s.sends|].afterHalt
            && sent.lapsed == s.lapsed
  {
    HaltGetsThrough(s, w, h);
    SendsLate(HaltThrough(s, w, h, s.rows.slots[s.workers[w].slot].preview), w);
  }

  /** A handler behind its preflight and a stop or revoke behind its lock, for one authorization. */
  ghost predicate Racing(s: State, w: nat, h: nat)
    requires s.rows.Scoped()
  {
    && WorkerInv(s, w) && HalterInv(s, h) && s.workers[w].pc == Ready && s.workers[w].alive
    && s.halters[h].pc == HaltGated && s.halters[h].alive
    && s.halters[h].preview == s.rows.slots[s.workers[w].slot].preview && MayReserve(s.rows, TicketOf(s, w), true)
  }

  /** The session of the halt dies, and the handler takes the lock it held, reserves and probes. */
  function ReserveThrough(s: State, w: nat, h: nat): (s': State)
    requires s.rows.Scoped()
    ensures s'.rows.Scoped()
  {
    Next(Next(Next(Next(s, SessionLost(h)), Act(w, Lock)), Act(w, Reserve(true))), Act(w, Probe))
  }

  lemma LockGetsThrough(s: State, w: nat, h: nat)
    requires s.rows.Scoped() && Racing(s, w, h)
    ensures var s' := Next(Next(s, SessionLost(h)), Act(w, Lock));
            && s'.rows == s.rows && s'.sends == s.sends && w in s'.workers && s'.workers[w] == s.workers[w].(pc := Armed)
            && h in s'.halters && s'.halters[h] == s.halters[h].(alive := false)
  {
    var s1 := Next(s, SessionLost(h));
    assert s1.rows == s.rows && s1.workers == s.workers && s.rows.Workspace(s.workers[w].slot) !in s1.gate;
  }

  lemma ReserveGetsThrough(s: State, w: nat, h: nat)
    requires s.rows.Scoped() && w in s.workers && s.workers[w].pc == Armed && s.workers[w].alive && s.workers[w].slot in s.rows.slots
    requires h in s.halters && MayReserve(s.rows, TicketOf(s, w), true)
    ensures var s' := Next(Next(s, Act(w, Reserve(true))), Act(w, Probe));
            && s'.rows == ReserveTx(s.rows, TicketOf(s, w), true) && s'.sends == s.sends && s'.halters == s.halters
            && w in s'.workers && s'.workers[w] == s.workers[w].(pc := Probed)
  {
  }

  lemma CommitGetsThrough(s: State, w: nat, h: nat)
    requires s.rows.Scoped() && w in s.workers && s.workers[w].slot in s.rows.slots && h in s.halters
    requires s.halters[h].pc == HaltGated && s.halters[h].preview == s.rows.slots[s.workers[w].slot].preview
    requires !s.rows.previews[s.halters[h].preview].Halted()
    ensures var s' := Next(s, HaltCommit(h)); var p := s.halters[h].preview;
            && s'.workers == s.workers && s'.sends == s.sends && s'.workers[w].slot in s'.rows.slots
            && s'.rows.slots[s.workers[w].slot].preview == p && s'.rows.previews[p].stopped
  {
  }

  /**
   The other half of the gap is open in every state that has a halt behind its lock and a handler
   of the same authorization ready to reserve: the DELETE leaves late over a session that lives.
   */
  lemma HaltGapIsAlwaysOpen(s: State, w: nat, h: nat)
    requires s.rows.Scoped() && Racing(s, w, h)
    ensures var sent := Next(Next(ReserveThrough(s, w, h), HaltCommit(h)), Act(w, Dispatch(true)));
            && |sent.sends| == |s.sends| + 1 && sent.sends[|s.sends|].worker == w
            && sent.sends[|s.sends|].afterHalt && sent.sends[|s.sends|].alive
  {
    LockGetsThrough(s, w, h);
    ReserveGetsThrough(Next(Next(s, SessionLost(h)), Act(w, Lock)), w, h);
    CommitGetsThrough(ReserveThrough(s, w, h), w, h);
    SendsLate(Next(ReserveThrough(s, w, h), HaltCommit(h)), w);
  }

  // ----- and there are such states

  /** Extends a run by one event. */
  lemma On(events: seq<Event>, s: State, e: Event) returns (longer: seq<Event>, reached: State)
    requires Run(Fresh(), events) == s
    ensures longer == events + [e] && Run(Fresh(), longer) == reached == Next(s, e)
  {
    longer, reached := events + [e], Next(s, e);
    assert longer[..|longer| - 1] == events;
  }

  lemma PoisedIsOpen(s: State)
    requires s == At(REQUESTED, map[0 := 1], map[1 := Runner(Probed)])
    ensures WorkerInv(s, 1)
  {
  }

  /**
   A handler whose session dies between its probe and its send dispatches after the stop that
   slipped in, though no stop ever lost its session.
   */
  lemma HandlerGap() returns (events: seq<Event>, s: State)
    ensures Initial(Fresh()) && Run(Fresh(), events) == s && |s.sends| == 1 && s.sends[0].afterHalt && s.lapsed == {}
  {
    var start;
    events, start := Poised();
    PoisedIsOpen(start);
    GapIsAlwaysOpen(start, 1, 2);
    events, s := On(events, start, SessionLost(1));
    events, s := On(events, s, SpawnHalt(2, 0, false));
    events, s := On(events, s, HaltLock(2));
    events, s := On(events, s, HaltCommit(2));
    events, s := On(events, s, Act(1, Dispatch(true)));
  }

  /** A stop takes the lock while handler 1 reads. */
  lemma StopArrives() returns (events: seq<Event>, s: State)
    ensures Run(Fresh(), events) == s == At(HELD, map[0 := 2], map[1 := Runner(Ready)], halters := Stopper(2, HaltGated))
  {
    events, s := Preflight();
    events, s := Then(events, s, SpawnHalt(2, 0, false),
      At(HELD, map[], map[1 := Runner(Ready)], halters := Stopper(2, HaltWaiting)));
    events, s := Then(events, s, HaltLock(2),
      At(HELD, map[0 := 2], map[1 := Runner(Ready)], halters := Stopper(2, HaltGated)));
  }

  lemma StopRaces(s: State)
    requires s == At(HELD, map[0 := 2], map[1 := Runner(Ready)], halters := Stopper(2, HaltGated))
    ensures Racing(s, 1, 2)
  {
    HeldReserve(s.rows);
  }

  /** A stop whose own session dies between its lock and its commit no longer excludes a live handler's dispatch. */
  lemma HaltGap() returns (events: seq<Event>, s: State)
    ensures Initial(Fresh()) && Run(Fresh(), events) == s && |s.sends| == 1 && s.sends[0].afterHalt && s.sends[0].alive
  {
    var start;
    events, start := StopArrives();
    StopRaces(start);
    HaltGapIsAlwaysOpen(start, 1, 2);
    events, s := On(events, start, SessionLost(2));
    events, s := On(events, s, Act(1, Lock));
    events, s := On(events, s, Act(1, Reserve(true)));
    events, s := On(events, s, Act(1, Probe));
    events, s := On(events, s, HaltCommit(2));
    events, s := On(events, s, Act(1, Dispatch(true)));
  }

  // ----- a stop leaves an observer its lease

  /** Handler 1 crashes with its request committed; its lease and the authorization run out. */
  lemma Crashed() returns (events: seq<Event>, s: State)
    ensures Run(Fresh(), events) == s == At(REQUESTED, map[], WithObserver(Waiting, false, 0, false), now := 70)
  {
    events, s := Poised();
    events, s := Then(events, s, Act(1, Quit), At(REQUESTED, map[], map[1 := Runner(Finished)]));
    events, s := Then(events, s, Tick(70), At(REQUESTED, map[], map[1 := Runner(Finished)], now := 70));
    events, s := Then(events, s, Spawn(2, 0, true),
      At(REQUESTED, map[], WithObserver(Waiting, false, 0, false), now := 70));
  }

  /** A verification finds itself observation-only. */
  lemma Screening() returns (events: seq<Event>, s: State)
    ensures Run(Fresh(), events) == s == At(REQUESTED, map[0 := 2], WithObserver(Screened, true, 0, false), now := 70)
  {
    events, s := Crashed();
    events, s := Then(events, s, Act(2, Lock),
      At(REQUESTED, map[0 := 2], WithObserver(Gated, false, 0, false), now := 70));
    events, s := Then(events, s, Act(2, Screen),
      At(REQUESTED, map[0 := 2], WithObserver(Screened, true, 0, false), now := 70));
  }

  /** It claims the slot. */
  lemma Observing() returns (events: seq<Event>, s: State)
    ensures Run(Fresh(), events) == s == At(OBSERVED, map[0 := 2], WithObserver(Claimed, true, 2, true), now := 70)
  {
    events, s := Screening();
    assert MayClaim(s.rows, 0, true, true, true);
    events, s := Then(events, s, Act(2, Claim(200, true)),
      At(OBSERVED, map[0 := 2], WithObserver(Claimed, true, 2, true), now := 70));
  }

  /** A stop takes the lock while the observer reads. */
  lemma ObserverAndStop() returns (events: seq<Event>, s: State)
    ensures Run(Fresh(), events) == s ==
              At(OBSERVED, map[0 := 3], WithObserver(Reading, true, 2, true),
                 halters := Stopper(3, HaltGated), now := 70)
  {
    events, s := Observing();
    events, s := Then(events, s, Act(2, Unlock),
      At(OBSERVED, map[], WithObserver(Reading, true, 2, true), now := 70));
    events, s := Then(events, s, SpawnHalt(3, 0, false),
      At(OBSERVED, map[], WithObserver(Reading, true, 2, true), halters := Stopper(3, HaltWaiting), now := 70));
    events, s := Then(events, s, HaltLock(3),
      At(OBSERVED, map[0 := 3], WithObserver(Reading, true, 2, true), halters := Stopper(3, HaltGated), now := 70));
  }

  /** A stop or revoke skips a slot that is stopped already, lease and epoch included. */
  lemma HaltSkipsStopped(s: State, h: nat, id: nat)
    requires s.rows.Scoped() && HalterInv(s, h) && s.halters[h].pc == HaltGated && id in s.rows.slots
    requires s.rows.slots[id].preview == s.halters[h].preview && s.rows.slots[id].state == Stopped
    requires HaltApplies(s.rows, s.halters[h].preview, s.halters[h].revoke)
    ensures var s' := Next(s, HaltCommit(h));
            && id in s'.rows.slots && s'.rows.slots[id] == s.rows.slots[id] && s'.rows.now == s.rows.now
            && s'.rows.previews[s.halters[h].preview].stopped && (s.halters[h].alive ==> s'.lapsed == s.lapsed)
  {
  }

  /** That stop commits with its session alive, and leaves the row's epoch and live lease exactly as they were. */
  lemma StopKeepsObserverLease() returns (events: seq<Event>, before: State, after: State)
    ensures Initial(Fresh()) && Run(Fresh(), events) == before && after == Next(before, HaltCommit(3))
    ensures 0 in before.rows.previews && 0 in after.rows.previews && 0 in before.rows.slots && 0 in after.rows.slots
    ensures !before.rows.previews[0].stopped && after.rows.previews[0].stopped && after.lapsed == {}
    ensures after.rows.slots[0] == before.rows.slots[0] && Live(after.rows.slots[0], after.rows.now)
  {
    events, before := ObserverAndStop();
    HaltSkipsStopped(before, 3, 0);
    after := Next(before, HaltCommit(3));
  }
}
