/**
 The handler of removal_run.dfy is one of the handlers of removal_protocol.dfy: whatever the world
 shows it, its rows and its sends are those of a sequence of protocol events. So everything proved of
 every run of the protocol (removal_safety.dfy) holds of the handler as it is written.
 */
module RemovalRefinement {
  import opened Common
  import opened RemovalTables
  import P = RemovalProtocol
  import H = RemovalRun
  import S = RemovalSafety

  /** A new handler of a known slot, behind a lock that is free or not granted. */
  ghost predicate Enters(s: P.State, worker: nat, id: nat, w: H.World) {
    && s.rows.Scoped() && id in s.rows.slots && worker !in s.workers && worker !in s.halters
    && (w.granted ==> s.rows.Workspace(id) !in s.gate) && (forall ws :: ws in s.gate ==> s.gate[ws] != worker)
  }

  /** The protocol's state in the middle of the run: only the rows, the handler, its lock and the sends have moved. */
  ghost function At(s: P.State, worker: nat, k: P.Worker, r: Rows, held: bool, sends: seq<P.Send>): P.State
    requires s.rows.Scoped() && k.slot in s.rows.slots
  {
    s.(rows := r, workers := s.workers[worker := k], gate := if held then s.gate[s.rows.Workspace(k.slot) := worker] else s.gate, sends := sends)
  }

  ghost predicate Inside(s: P.State, k: P.Worker, r: Rows) {
    && s.rows.Scoped() && k.slot in s.rows.slots && s.rows.Workspace(k.slot) !in s.gate
    && r.Scoped() && k.slot in r.slots && r.previews == s.rows.previews && r.slots[k.slot].preview == s.rows.slots[k.slot].preview
  }

  /** These events led here: the handler is at `k`, with these rows and sends. */
  ghost predicate Ran(s: P.State, events: seq<P.Event>, worker: nat, k: P.Worker, r: Rows, held: bool, sends: seq<P.Send>) {
    Inside(s, k, r) && worker !in s.workers && worker !in s.halters && P.Run(s, events) == At(s, worker, k, r, held, sends)
  }

  /** The protocol has run to these rows and sends, and the handler is gone: nothing else has moved. */
  ghost predicate Left(s: P.State, worker: nat, id: nat, r: Rows, sends: seq<P.Send>, events: seq<P.Event>)
    requires s.rows.Scoped()
  {
    var s' := P.Run(s, events);
    && s'.rows == r && s'.sends == sends && s'.gate == s.gate && s'.halters == s.halters && s'.lapsed == s.lapsed
    && s'.workers.Keys == s.workers.Keys + {worker} && (forall o :: o in s.workers ==> s'.workers[o] == s.workers[o])
    && s'.workers[worker].slot == id && s'.workers[worker].pc == P.Finished
  }

  // ----- one event at a time

  /** One more event behind a sequence that led here. */
  lemma Do(s: P.State, events: seq<P.Event>, m: P.State, e: P.Event) returns (more: seq<P.Event>)
    requires s.rows.Scoped() && P.Run(s, events) == m && m.rows.Scoped()
    ensures more == events + [e] && P.Run(s, more) == P.Next(m, e)
  {
    more := events + [e];
    assert more[..|more| - 1] == events;
  }

  lemma Lock(s: P.State, events: seq<P.Event>, worker: nat, k: P.Worker, r: Rows, sends: seq<P.Send>) returns (more: seq<P.Event>)
    requires Ran(s, events, worker, k, r, false, sends) && k.alive && P.AfterLock(k.pc).Some?
    ensures Ran(s, more, worker, k.(pc := P.AfterLock(k.pc).value), r, true, sends)
  {
    more := Do(s, events, At(s, worker, k, r, false, sends), P.Act(worker, P.Lock));
  }

  lemma Unlock(s: P.State, events: seq<P.Event>, worker: nat, k: P.Worker, r: Rows, sends: seq<P.Send>) returns (more: seq<P.Event>)
    requires Ran(s, events, worker, k, r, true, sends) && k.alive && P.AfterUnlock(k.pc).Some?
    ensures Ran(s, more, worker, k.(pc := P.AfterUnlock(k.pc).value), r, false, sends)
  {
    more := Do(s, events, At(s, worker, k, r, true, sends), P.Act(worker, P.Unlock));
    assert s.gate[s.rows.Workspace(k.slot) := worker] - {s.rows.Workspace(k.slot)} == s.gate;
  }

  lemma Lose(s: P.State, events: seq<P.Event>, worker: nat, k: P.Worker, r: Rows, sends: seq<P.Send>) returns (more: seq<P.Event>)
    requires Ran(s, events, worker, k, r, true, sends)
    ensures Ran(s, more, worker, k.(alive := false), r, false, sends)
  {
    more := Do(s, events, At(s, worker, k, r, true, sends), P.SessionLost(worker));
    assert s.gate[s.rows.Workspace(k.slot) := worker] - {s.rows.Workspace(k.slot)} == s.gate;
  }

  lemma Wait(s: P.State, events: seq<P.Event>, worker: nat, k: P.Worker, r: Rows, held: bool, sends: seq<P.Send>, d: nat)
    returns (more: seq<P.Event>)
    requires Ran(s, events, worker, k, r, held, sends)
    ensures Ran(s, more, worker, k, H.Later(r, d), held, sends)
  {
    more := Do(s, events, At(s, worker, k, r, held, sends), P.Tick(d));
  }

  lemma See(s: P.State, events: seq<P.Event>, worker: nat, k: P.Worker, r: Rows, sends: seq<P.Send>, absent: bool)
    returns (more: seq<P.Event>)
    requires Ran(s, events, worker, k, r, false, sends) && P.AfterSnapshot(k, absent).Some?
    ensures Ran(s, more, worker, k.(pc := P.AfterSnapshot(k, absent).value), r, false, sends)
  {
    more := Do(s, events, At(s, worker, k, r, false, sends), P.Act(worker, P.Snapshot(absent)));
  }

  lemma Spawn(s: P.State, worker: nat, id: nat, verify: bool) returns (more: seq<P.Event>)
    requires s.rows.Scoped() && id in s.rows.slots && worker !in s.workers && worker !in s.halters && s.rows.Workspace(id) !in s.gate
    ensures Ran(s, more, worker, P.Worker(id, verify, false, P.Waiting, true, 0, false), s.rows, false, s.sends)
  {
    more := Do(s, [], s, P.Spawn(worker, id, verify));
  }

  /** The route is decided under the lock. */
  lemma Screen(s: P.State, events: seq<P.Event>, worker: nat, k: P.Worker) returns (more: seq<P.Event>)
    requires Ran(s, events, worker, k, s.rows, true, s.sends) && k.pc.Gated?
    ensures Ran(s, more, worker, k.(pc := P.Screened, reconcile := H.Observing(s.rows, k.slot, k.verify)), s.rows, true, s.sends)
  {
    more := Do(s, events, At(s, worker, k, s.rows, true, s.sends), P.Act(worker, P.Screen));
  }

  /** The transactions keep a run inside. */
  lemma StaysInside(s: P.State, k: P.Worker, r: Rows, t: Ticket, limit: int, facts: bool, accepted: bool)
    requires Inside(s, k, r)
    ensures Inside(s, k, ClaimTx(r, t.worker, k.slot, k.verify, k.reconcile, limit, facts)) && Inside(s, k, ReceiptTx(r, t, accepted, facts))
  {
  }

  lemma ClaimStep(m: P.State, worker: nat, k: P.Worker, limit: int, facts: bool)
    requires m.rows.Scoped() && worker in m.workers && m.workers[worker] == k && k.pc.Screened?
    requires MayClaim(m.rows, k.slot, k.verify, k.reconcile, facts)
    ensures var k' := k.(pc := P.Claimed, epoch := m.rows.slots[k.slot].epoch + 1, requested := m.rows.slots[k.slot].request.Some?);
            P.Next(m, P.Act(worker, P.Claim(limit, facts))) ==
            m.(rows := ClaimTx(m.rows, worker, k.slot, k.verify, k.reconcile, limit, facts), workers := m.workers[worker := k'])
  {
  }

  lemma ClaimAt(s: P.State, worker: nat, k: P.Worker, limit: int, facts: bool)
    requires Inside(s, k, s.rows) && k.pc.Screened? && MayClaim(s.rows, k.slot, k.verify, k.reconcile, facts)
    ensures var x := s.rows.slots[k.slot];
            P.Next(At(s, worker, k, s.rows, true, s.sends), P.Act(worker, P.Claim(limit, facts))) ==
            At(s, worker, k.(pc := P.Claimed, epoch := x.epoch + 1, requested := x.request.Some?),
               ClaimTx(s.rows, worker, k.slot, k.verify, k.reconcile, limit, facts), true, s.sends)
  {
    ClaimStep(At(s, worker, k, s.rows, true, s.sends), worker, k, limit, facts);
  }

  lemma Claim(s: P.State, events: seq<P.Event>, worker: nat, k: P.Worker, limit: int, facts: bool) returns (more: seq<P.Event>)
    requires Ran(s, events, worker, k, s.rows, true, s.sends) && k.pc.Screened?
    requires MayClaim(s.rows, k.slot, k.verify, k.reconcile, facts)
    ensures var x := s.rows.slots[k.slot];
            Ran(s, more, worker, k.(pc := P.Claimed, epoch := x.epoch + 1, requested := x.request.Some?),
                ClaimTx(s.rows, worker, k.slot, k.verify, k.reconcile, limit, facts), true, s.sends)
  {
    more := Do(s, events, At(s, worker, k, s.rows, true, s.sends), P.Act(worker, P.Claim(limit, facts)));
    ClaimAt(s, worker, k, limit, facts);
    StaysInside(s, k, s.rows, TicketOf(worker, k), limit, facts, true);
  }

  function TicketOf(worker: nat, k: P.Worker): Ticket { Ticket(worker, k.slot, k.epoch, k.reconcile) }

  lemma Reserve(s: P.State, events: seq<P.Event>, worker: nat, k: P.Worker, r: Rows, sends: seq<P.Send>, facts: bool)
    returns (more: seq<P.Event>)
    requires Ran(s, events, worker, k, r, true, sends) && k.pc.Armed? && MayReserve(r, TicketOf(worker, k), facts)
    ensures Ran(s, more, worker, k.(pc := P.Reserved), ReserveTx(r, TicketOf(worker, k), facts), true, sends)
  {
    more := Do(s, events, At(s, worker, k, r, true, sends), P.Act(worker, P.Reserve(facts)));
  }

  lemma Probe(s: P.State, events: seq<P.Event>, worker: nat, k: P.Worker, r: Rows, sends: seq<P.Send>) returns (more: seq<P.Event>)
    requires Ran(s, events, worker, k, r, true, sends) && k.pc.Reserved? && k.alive
    ensures Ran(s, more, worker, k.(pc := P.Probed), r, true, sends)
  {
    more := Do(s, events, At(s, worker, k, r, true, sends), P.Act(worker, P.Probe));
  }

  /** The DELETE as the protocol records it. */
  function Sent(s: P.State, worker: nat, id: nat): P.Send
    requires s.rows.Scoped() && id in s.rows.slots
  {
    P.Send(id, worker, Some(worker), s.rows.previews[s.rows.slots[id].preview].Halted(), true)
  }

  lemma Dispatch(s: P.State, events: seq<P.Event>, worker: nat, k: P.Worker, r: Rows, sends: seq<P.Send>, accepted: bool)
    returns (more: seq<P.Event>)
    requires Ran(s, events, worker, k, r, true, sends) && k.pc.Probed? && k.alive && r.slots[k.slot].request == Some(worker)
    ensures Ran(s, more, worker, k.(pc := P.Sent(accepted)), r, true, sends + [Sent(s, worker, k.slot)])
  {
    more := Do(s, events, At(s, worker, k, r, true, sends), P.Act(worker, P.Dispatch(accepted)));
  }

  lemma ReceiptStep(m: P.State, worker: nat, facts: bool)
    requires m.rows.Scoped() && worker in m.workers && m.workers[worker].pc.Sent? && m.workers[worker].slot in m.rows.slots
    ensures var k := m.workers[worker];
            var m' := m.(rows := ReceiptTx(m.rows, TicketOf(worker, k), k.pc.accepted, facts),
                         workers := m.workers[worker := k.(pc := if k.pc.accepted then P.Receipted else P.Failing)]);
            P.Next(m, P.Act(worker, P.Receipt(facts))) == if LeaseTx(m.rows, TicketOf(worker, k), facts) then m' else m
  {
  }

  /** A receipt that the fence refuses changes nothing. */
  lemma Receive(s: P.State, events: seq<P.Event>, worker: nat, k: P.Worker, r: Rows, sends: seq<P.Send>, facts: bool)
    returns (more: seq<P.Event>)
    requires Ran(s, events, worker, k, r, true, sends) && k.pc.Sent?
    ensures if LeaseTx(r, TicketOf(worker, k), facts)
            then Ran(s, more, worker, k.(pc := if k.pc.accepted then P.Receipted else P.Failing),
                     ReceiptTx(r, TicketOf(worker, k), k.pc.accepted, facts), true, sends)
            else Ran(s, more, worker, k, r, true, sends)
  {
    var m := At(s, worker, k, r, true, sends);
    more := Do(s, events, m, P.Act(worker, P.Receipt(facts)));
    ReceiptStep(m, worker, facts);
    StaysInside(s, k, r, TicketOf(worker, k), 0, facts, k.pc.accepted);
  }

  lemma Quit(s: P.State, events: seq<P.Event>, worker: nat, k: P.Worker, r: Rows, held: bool, sends: seq<P.Send>)
    returns (more: seq<P.Event>)
    requires Ran(s, events, worker, k, r, held, sends)
    ensures Left(s, worker, k.slot, r, sends, more)
  {
    more := Do(s, events, At(s, worker, k, r, held, sends), P.Act(worker, P.Quit));
    assert s.gate[s.rows.Workspace(k.slot) := worker] - {s.rows.Workspace(k.slot)} == s.gate;
  }

  /** A failure note behind a lost lease changes nothing. */
  lemma Fail(s: P.State, events: seq<P.Event>, worker: nat, k: P.Worker, r: Rows, held: bool, sends: seq<P.Send>)
    returns (more: seq<P.Event>)
    requires Ran(s, events, worker, k, r, held, sends) && P.MayFail(k.pc)
    ensures Left(s, worker, k.slot, FailTx(r, TicketOf(worker, k)), sends, more)
  {
    if LeaseCurrent(r, TicketOf(worker, k)) {
      more := Do(s, events, At(s, worker, k, r, held, sends), P.Act(worker, P.Fail));
      assert s.gate[s.rows.Workspace(k.slot) := worker] - {s.rows.Workspace(k.slot)} == s.gate;
    } else {
      more := Quit(s, events, worker, k, r, held, sends);
    }
  }

  lemma CommitLocked(s: P.State, events: seq<P.Event>, worker: nat, k: P.Worker, r: Rows, sends: seq<P.Send>, facts: bool)
    returns (more: seq<P.Event>)
    requires Ran(s, events, worker, k, r, true, sends) && k.pc.Committing?
    ensures Left(s, worker, k.slot, CommitTx(r, TicketOf(worker, k), k.pc.absent, facts), sends, more)
  {
    if LeaseTx(r, TicketOf(worker, k), facts) {
      more := Do(s, events, At(s, worker, k, r, true, sends), P.Act(worker, P.Commit(facts)));
      assert s.gate[s.rows.Workspace(k.slot) := worker] - {s.rows.Workspace(k.slot)} == s.gate;
    } else {
      more := Quit(s, events, worker, k, r, true, sends);
    }
  }

  // ----- the parts of a run

  lemma Commits(s: P.State, events: seq<P.Event>, worker: nat, k: P.Worker, r: Rows, sends: seq<P.Send>, granted: bool, facts: bool)
    returns (all: seq<P.Event>)
    requires Ran(s, events, worker, k, r, false, sends) && k.pc.Seen? && k.alive
    ensures Left(s, worker, k.slot, H.Observed(r, TicketOf(worker, k), granted, k.pc.absent, facts), sends, all)
  {
    if granted {
      all := Lock(s, events, worker, k, r, sends);
      all := CommitLocked(s, all, worker, k.(pc := P.Committing(k.pc.absent)), r, sends, facts);
    } else {
      all := Quit(s, events, worker, k, r, false, sends);
    }
  }

  lemma Verifies(s: P.State, events: seq<P.Event>, worker: nat, k: P.Worker, r: Rows, sends: seq<P.Send>, w: H.World)
    returns (all: seq<P.Event>)
    requires Ran(s, events, worker, k, r, true, sends) && k.pc.Receipted? && k.alive
    ensures Left(s, worker, k.slot, H.Verified(r, TicketOf(worker, k), w), sends, all)
  {
    all := Unlock(s, events, worker, k, r, sends);
    all := Wait(s, all, worker, k.(pc := P.Verifying), r, false, sends, w.checking);
    if !w.roleStillOk || w.after.None? {
      all := Fail(s, all, worker, k.(pc := P.Verifying), H.Later(r, w.checking), false, sends);
    } else {
      all := Rereads(s, all, worker, k.(pc := P.Verifying), H.Later(r, w.checking), sends, w.after.value, w);
    }
  }

  lemma Rereads(s: P.State, events: seq<P.Event>, worker: nat, k: P.Worker, r: Rows, sends: seq<P.Send>, absent: bool, w: H.World)
    returns (all: seq<P.Event>)
    requires Ran(s, events, worker, k, r, false, sends) && (k.pc.Verifying? || (k.pc.Reading? && k.requested)) && k.alive
    ensures Left(s, worker, k.slot, H.Observed(r, TicketOf(worker, k), w.finalGrant, absent, w.commitFacts), sends, all)
  {
    all := See(s, events, worker, k, r, sends, absent);
    all := Commits(s, all, worker, k.(pc := P.Seen(absent)), r, sends, w.finalGrant, w.commitFacts);
  }

  lemma Receives(s: P.State, events: seq<P.Event>, worker: nat, k: P.Worker, r: Rows, sends: seq<P.Send>, w: H.World)
    returns (all: seq<P.Event>)
    requires Ran(s, events, worker, k, r, true, sends) && k.pc == P.Sent(w.accepted) && k.alive
    ensures Left(s, worker, k.slot, H.Received(r, TicketOf(worker, k), w), sends, all)
  {
    var t := TicketOf(worker, k);
    all := Receive(s, events, worker, k, r, sends, w.receiptFacts);
    if !LeaseTx(r, t, w.receiptFacts) {
      all := Quit(s, all, worker, k, r, true, sends);
    } else if w.accepted {
      all := Verifies(s, all, worker, k.(pc := P.Receipted), ReceiptTx(r, t, true, w.receiptFacts), sends, w);
    } else {
      all := Fail(s, all, worker, k.(pc := P.Failing), ReceiptTx(r, t, false, w.receiptFacts), true, sends);
    }
  }

  /** Behind a reservation the DELETE leaves over the session that was probed. */
  lemma Sends(s: P.State, events: seq<P.Event>, worker: nat, k: P.Worker, r: Rows, w: H.World) returns (all: seq<P.Event>)
    requires Ran(s, events, worker, k, r, true, s.sends) && k.pc.Reserved? && k.alive && r.slots[k.slot].request == Some(worker)
    ensures Left(s, worker, k.slot, H.Received(H.Later(r, w.delay), TicketOf(worker, k), w), s.sends + [Sent(s, worker, k.slot)], all)
  {
    all := Probe(s, events, worker, k, r, s.sends);
    all := Dispatch(s, all, worker, k.(pc := P.Probed), r, s.sends, w.accepted);
    var sends := s.sends + [Sent(s, worker, k.slot)];
    all := Wait(s, all, worker, k.(pc := P.Sent(w.accepted)), r, true, sends, w.delay);
    all := Receives(s, all, worker, k.(pc := P.Sent(w.accepted)), H.Later(r, w.delay), sends, w);
  }

  lemma Deletes(s: P.State, events: seq<P.Event>, worker: nat, k: P.Worker, r: Rows, w: H.World) returns (all: seq<P.Event>)
    requires Ran(s, events, worker, k, r, false, s.sends) && k.pc.Reading? && !k.requested && k.alive
    requires MayReserve(r, TicketOf(worker, k), w.reserveFacts)
    ensures var t := TicketOf(worker, k); var reserved := ReserveTx(r, t, w.reserveFacts);
            if w.sessionLost then Left(s, worker, k.slot, FailTx(reserved, t), s.sends, all)
            else Left(s, worker, k.slot, H.Received(H.Later(reserved, w.delay), t, w), s.sends + [Sent(s, worker, k.slot)], all)
  {
    all := See(s, events, worker, k, r, s.sends, false);
    all := Lock(s, all, worker, k.(pc := P.Ready), r, s.sends);
    all := Reserve(s, all, worker, k.(pc := P.Armed), r, s.sends, w.reserveFacts);
    var k', reserved := k.(pc := P.Reserved), ReserveTx(r, TicketOf(worker, k), w.reserveFacts);
    if w.sessionLost {
      all := Lose(s, all, worker, k', reserved, s.sends);
      all := Fail(s, all, worker, k'.(alive := false), reserved, false, s.sends);
    } else {
      all := Sends(s, all, worker, k', reserved, w);
    }
  }

  /** The handler behind its claim. */
  function Claimed(s: P.State, id: nat, verify: bool): P.Worker
    requires s.rows.Scoped() && id in s.rows.slots
  {
    P.Worker(id, verify, H.Observing(s.rows, id, verify), P.Claimed, true, s.rows.slots[id].epoch + 1, s.rows.slots[id].request.Some?)
  }

  lemma Screens(s: P.State, worker: nat, id: nat, verify: bool, w: H.World) returns (all: seq<P.Event>)
    requires Enters(s, worker, id, w) && w.granted
    ensures Ran(s, all, worker, P.Worker(id, verify, H.Observing(s.rows, id, verify), P.Screened, true, 0, false), s.rows, true, s.sends)
  {
    var k := P.Worker(id, verify, false, P.Waiting, true, 0, false);
    all := Spawn(s, worker, id, verify);
    all := Lock(s, all, worker, k, s.rows, s.sends);
    all := Screen(s, all, worker, k.(pc := P.Gated));
  }

  lemma Claims(s: P.State, worker: nat, id: nat, verify: bool, w: H.World) returns (all: seq<P.Event>)
    requires Enters(s, worker, id, w) && H.Claims(s.rows, false, true, id, verify, w)
    ensures Ran(s, all, worker, Claimed(s, id, verify), H.ClaimedTx(s.rows, worker, id, verify, w), true, s.sends)
  {
    all := Screens(s, worker, id, verify, w);
    all := Claim(s, all, worker, P.Worker(id, verify, H.Observing(s.rows, id, verify), P.Screened, true, 0, false), w.limit, w.claimFacts);
  }

  lemma Runs(s: P.State, events: seq<P.Event>, worker: nat, k: P.Worker, c: Rows, deadline: int, w: H.World) returns (all: seq<P.Event>)
    requires Ran(s, events, worker, k, c, true, s.sends) && k.pc.Claimed? && k.alive && k.requested == c.slots[k.slot].request.Some?
    ensures var t := TicketOf(worker, k);
            Left(s, worker, k.slot, H.RunTx(c, true, t, deadline, w),
                 s.sends + if H.ReadsAgree(k.requested, w) && !k.requested && H.Reserves(H.Later(c, w.reading), t, deadline, w) && !w.sessionLost
                           then [Sent(s, worker, k.slot)] else [], all)
  {
    assert s.sends + [] == s.sends;
    all := Unlock(s, events, worker, k, c, s.sends);
    var k', later := k.(pc := P.Reading), H.Later(c, w.reading);
    all := Wait(s, all, worker, k', c, false, s.sends, w.reading);
    if !H.ReadsAgree(k.requested, w) {
      all := Fail(s, all, worker, k', later, false, s.sends);
    } else if k.requested {
      all := Rereads(s, all, worker, k', later, s.sends, w.before.value, w);
    } else if H.Reserves(later, TicketOf(worker, k), deadline, w) {
      all := Deletes(s, all, worker, k', later, w);
    } else {
      all := Quit(s, all, worker, k', later, false, s.sends);
    }
  }

  /**
   Every run of the handler is a sequence of protocol events: the protocol ends with the very rows the
   run leaves, has sent exactly what the run sent, and has the handler finished and its lock free.
   */
  lemma RunIsProtocolRun(s: P.State, worker: nat, id: nat, verify: bool, w: H.World) returns (all: seq<P.Event>)
    requires Enters(s, worker, id, w)
    ensures Left(s, worker, id, H.Outcome(s.rows, false, true, worker, id, verify, w),
                 s.sends + if H.WillSend(s.rows, false, true, id, verify, w) then [Sent(s, worker, id)] else [], all)
  {
    if H.Claims(s.rows, false, true, id, verify, w) {
      all := Claims(s, worker, id, verify, w);
      all := RunsToTheEnd(s, all, worker, id, verify, w);
    } else {
      all := Gives(s, worker, id, verify);
      assert s.sends + [] == s.sends;
    }
  }

  lemma ClaimGoesOn(r: Rows, worker: nat, id: nat, verify: bool, w: H.World)
    requires r.Scoped() && H.Claims(r, false, true, id, verify, w)
    ensures var c, t, deadline := H.ClaimedTx(r, worker, id, verify, w), H.TicketFor(r, worker, id, verify), Min(r.now + 60, w.limit) - 1;
            && id in c.slots && c.slots[id].request == r.slots[id].request
            && H.Outcome(r, false, true, worker, id, verify, w) == H.RunTx(c, true, t, deadline, w)
            && (H.WillSend(r, false, true, id, verify, w) <==>
                  && H.ReadsAgree(r.slots[id].request.Some?, w) && r.slots[id].request.None?
                  && H.Reserves(H.Later(c, w.reading), t, deadline, w) && !w.sessionLost)
  {
    H.SendsAsTold(r, false, true, worker, id, verify, w);
  }

  lemma RunsToTheEnd(s: P.State, events: seq<P.Event>, worker: nat, id: nat, verify: bool, w: H.World) returns (all: seq<P.Event>)
    requires s.rows.Scoped() && id in s.rows.slots && H.Claims(s.rows, false, true, id, verify, w)
    requires Ran(s, events, worker, Claimed(s, id, verify), H.ClaimedTx(s.rows, worker, id, verify, w), true, s.sends)
    ensures Left(s, worker, id, H.Outcome(s.rows, false, true, worker, id, verify, w),
                 s.sends + if H.WillSend(s.rows, false, true, id, verify, w) then [Sent(s, worker, id)] else [], all)
  {
    ClaimGoesOn(s.rows, worker, id, verify, w);
    all := Runs(s, events, worker, Claimed(s, id, verify), H.ClaimedTx(s.rows, worker, id, verify, w), Min(s.rows.now + 60, w.limit) - 1, w);
  }

  /** A handler that does not get to its claim. */
  lemma Gives(s: P.State, worker: nat, id: nat, verify: bool) returns (all: seq<P.Event>)
    requires s.rows.Scoped() && id in s.rows.slots && worker !in s.workers && worker !in s.halters
    requires forall ws :: ws in s.gate ==> s.gate[ws] != worker
    ensures Left(s, worker, id, s.rows, s.sends, all)
  {
    all := Do(s, [], s, P.Spawn(worker, id, verify));
    all := Do(s, all, P.Next(s, P.Spawn(worker, id, verify)), P.Act(worker, P.Quit));
  }

  // ----- behind every run of the protocol

  lemma {:induction false} RunContinues(s0: P.State, events: seq<P.Event>, more: seq<P.Event>)
    requires s0.rows.Scoped()
    ensures P.Run(s0, events + more) == P.Run(P.Run(s0, events), more)
  {
    if more == [] {
      assert events + more == events;
    } else {
      InitOfConcat(events, more);
      RunContinues(s0, events, more[..|more| - 1]);
    }
  }

  /** A DELETE of a run stays where it is, and alone for its slot, in every continuation. */
  lemma DeleteStaysAlone(s0: P.State, all: seq<P.Event>, later: seq<P.Event>, n: nat)
    requires P.Initial(s0) && n < |P.Run(s0, all).sends|
    ensures var sends, end := P.Run(s0, all).sends, P.Run(s0, all + later).sends;
            sends <= end && forall i :: 0 <= i < |end| && i != n ==> end[i].slot != sends[n].slot
  {
    S.HistoryIsKept(s0, all, later);
    S.AtMostOneDelete(s0, all + later);
  }

  lemma HandlerContinues(s0: P.State, events: seq<P.Event>, worker: nat, id: nat, verify: bool, w: H.World)
    returns (all: seq<P.Event>)
    requires P.Initial(s0) && Enters(P.Run(s0, events), worker, id, w)
    ensures events <= all && P.Run(s0, all).rows == H.Outcome(P.Run(s0, events).rows, false, true, worker, id, verify, w)
    ensures var s := P.Run(s0, events);
            P.Run(s0, all).sends == s.sends + if H.WillSend(s.rows, false, true, id, verify, w) then [Sent(s, worker, id)] else []
  {
    var more := RunIsProtocolRun(P.Run(s0, events), worker, id, verify, w);
    RunContinues(s0, events, more);
    all := events + more;
  }

  /** Only the delete route under a standing authorization sends. */
  lemma SendsUnderAuthority(s: P.State, worker: nat, id: nat, verify: bool, w: H.World)
    requires s.rows.Scoped() && H.WillSend(s.rows, false, true, id, verify, w)
    ensures id in s.rows.slots && Sent(s, worker, id) == P.Send(id, worker, Some(worker), false, true)
  {
  }

  /**
   Whatever other handlers, stops and revokes came before, the handler goes on as one more part of
   that run of the protocol. If it sends, nothing was ever sent for its slot, the authorization is
   neither stopped nor revoked, and nothing will ever be sent for the slot again.
   */
  lemma HandlerJoinsAnyRun(s0: P.State, events: seq<P.Event>, worker: nat, id: nat, verify: bool, w: H.World, later: seq<P.Event>)
    returns (all: seq<P.Event>)
    requires P.Initial(s0) && Enters(P.Run(s0, events), worker, id, w)
    ensures events <= all && P.Run(s0, all).rows == H.Outcome(P.Run(s0, events).rows, false, true, worker, id, verify, w)
    ensures !H.WillSend(P.Run(s0, events).rows, false, true, id, verify, w) ==> P.Run(s0, all).sends == P.Run(s0, events).sends
    ensures H.WillSend(P.Run(s0, events).rows, false, true, id, verify, w) ==>
              var sends, end := P.Run(s0, events).sends, P.Run(s0, all + later).sends;
              && P.Run(s0, all).sends == sends + [P.Send(id, worker, Some(worker), false, true)]
              && P.Run(s0, all).sends <= end && forall i :: 0 <= i < |end| && i != |sends| ==> end[i].slot != id
  {
    all := HandlerContinues(s0, events, worker, id, verify, w);
    var s := P.Run(s0, events);
    if H.WillSend(s.rows, false, true, id, verify, w) {
      SendsUnderAuthority(s, worker, id, verify, w);
      DeleteStaysAlone(s0, all, later, |s.sends|);
    } else {
      assert s.sends + [] == s.sends;
    }
  }
}
