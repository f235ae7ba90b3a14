/**
 One run of runRotationRemovalSlot (internal/runtime/rotation_removal.go) over the durable rows and
 the advisory-lock session: claim, read, reserve, probe, DELETE, receipt, read again, commit.
 removal_protocol.dfy interleaves the same transactions with other handlers, stops and revokes.
 */
module RemovalRun {
  import opened Common
  import opened RemovalTables

  /** The session behind `removalGate`: `locked` is the handler's belief, `held` the database's record. */
  class Gate {
    var alive: bool
    var locked: bool
    var held: bool

    predicate Valid()
      reads this
    {
      (held ==> alive && locked) && (locked && alive ==> held)
    }

    constructor ()
      ensures Valid() && !held && alive
    {
      alive, locked, held := true, false, false;
    }

    /** Blocks for the lock; `granted` is false when the deadline passes first. */
    method Lock(granted: bool) returns (ok: bool)
      requires Valid()
      modifies this
      ensures Valid() && alive == old(alive) && (ok <==> old(locked) || (granted && alive))
      ensures ok ==> locked && (alive ==> held)
    {
      if locked { return true; }
      if !alive || !granted { return false; }
      locked, held := true, true;
      return true;
    }

    method Unlock() returns (ok: bool)
      requires Valid()
      modifies this
      ensures Valid() && alive == old(alive) && (ok <==> !old(locked) || alive) && (ok ==> !held && !locked)
    {
      if !locked { return true; }
      if !alive { return false; }
      locked, held := false, false;
      return true;
    }

    /** The probe: any statement fails on a lost session. */
    method Probe() returns (ok: bool)
      requires Valid()
      ensures ok <==> alive
    {
      return alive;
    }

    /** The database drops the locks of a session it lost. */
    method Lose(lost: bool)
      requires Valid()
      modifies this
      ensures Valid() && alive == (old(alive) && !lost) && locked == old(locked)
    {
      if lost { alive, held := false, false; }
    }

    method Close()
      modifies this
      ensures !held
    {
      held := false;
    }
  }

  /**
   What the world shows one run, in order; a roster check yields whether the target is absent, or
   nothing. `reading` passes while the handler reads without the gate and waits to retake it,
   `delay` until the reply to the DELETE is there, `checking` while the roster is read again.
   */
  datatype World = World(
    granted: bool, limit: int, claimFacts: bool, reading: nat, roleOk: bool, before: Option<bool>, regranted: bool,
    reserveFacts: bool, sessionLost: bool, accepted: bool, delay: nat, receiptFacts: bool, checking: nat, roleStillOk: bool,
    after: Option<bool>, finalGrant: bool, commitFacts: bool)

  /** A DELETE on the wire, with the request it carries and whether its session held the gate. */
  datatype Send = Send(slot: nat, request: Option<nat>, gateHeld: bool)

  // ----- the rows behind each part of a run

  function Later(r: Rows, elapsed: nat): Rows { r.(now := r.now + elapsed) }

  /** The verify route turns into observation when the authorization no longer stands. */
  predicate Observing(r: Rows, id: nat, verify: bool)
    requires r.Scoped() && id in r.slots
  {
    verify && ObservationOnly(r, r.slots[id].preview)
  }

  predicate Claims(r: Rows, locked: bool, alive: bool, id: nat, verify: bool, w: World)
    requires r.Scoped()
  {
    (locked || (w.granted && alive)) && id in r.slots && MayClaim(r, id, verify, Observing(r, id, verify), w.claimFacts)
  }

  function TicketFor(r: Rows, worker: nat, id: nat, verify: bool): Ticket
    requires r.Scoped() && id in r.slots
  {
    Ticket(worker, id, r.slots[id].epoch + 1, Observing(r, id, verify))
  }

  function ClaimedTx(r: Rows, worker: nat, id: nat, verify: bool, w: World): (c: Rows)
    requires r.Scoped() && id in r.slots
    ensures c.Scoped()
  {
    ClaimTx(r, worker, id, verify, Observing(r, id, verify), w.limit, w.claimFacts)
  }

  /** The reads before it is decided whether to send: without a request the target must still be there. */
  predicate ReadsAgree(requested: bool, w: World) { w.roleOk && w.before.Some? && (w.before.value ==> requested) }

  function Observed(q: Rows, t: Ticket, granted: bool, absent: bool, facts: bool): (q': Rows)
    requires q.Scoped()
    ensures q'.Scoped()
  {
    if granted then CommitTx(q, t, absent, facts) else q
  }

  /** Behind an accepted receipt: the roster is read again and its verdict committed. */
  function Verified(q: Rows, t: Ticket, w: World): (q': Rows)
    requires q.Scoped()
    ensures q'.Scoped()
  {
    if !w.roleStillOk || w.after.None? then FailTx(Later(q, w.checking), t)
    else Observed(Later(q, w.checking), t, w.finalGrant, w.after.value, w.commitFacts)
  }

  /** Behind the reply to the DELETE. */
  function Received(q: Rows, t: Ticket, w: World): (q': Rows)
    requires q.Scoped()
    ensures q'.Scoped()
  {
    if !LeaseTx(q, t, w.receiptFacts) then q
    else if w.accepted then Verified(ReceiptTx(q, t, true, w.receiptFacts), t, w)
    else FailTx(ReceiptTx(q, t, false, w.receiptFacts), t)
  }

  predicate Reserves(q: Rows, t: Ticket, deadline: int, w: World) {
    q.now < deadline && w.regranted && MayReserve(q, t, w.reserveFacts)
  }

  function Deleted(q: Rows, t: Ticket, deadline: int, w: World): (q': Rows)
    requires q.Scoped()
    ensures q'.Scoped()
  {
    if !Reserves(q, t, deadline, w) then q
    else
      var reserved := ReserveTx(q, t, w.reserveFacts);
      if w.sessionLost then FailTx(reserved, t) else Received(Later(reserved, w.delay), t, w)
  }

  /** Everything behind the claim. */
  function RunTx(c: Rows, alive: bool, t: Ticket, deadline: int, w: World): (q: Rows)
    requires c.Scoped() && t.slot in c.slots
    ensures q.Scoped()
  {
    if !alive then c
    else if !ReadsAgree(c.slots[t.slot].request.Some?, w) then FailTx(Later(c, w.reading), t)
    else if c.slots[t.slot].request.Some? then Observed(Later(c, w.reading), t, w.finalGrant, w.before.value, w.commitFacts)
    else Deleted(Later(c, w.reading), t, deadline, w)
  }

  /** The deadline is a second before the lease ends. */
  function Outcome(r: Rows, locked: bool, alive: bool, worker: nat, id: nat, verify: bool, w: World): (q: Rows)
    requires r.Scoped()
    ensures q.Scoped()
  {
    if Claims(r, locked, alive, id, verify, w)
    then RunTx(ClaimedTx(r, worker, id, verify, w), alive, TicketFor(r, worker, id, verify), Min(r.now + 60, w.limit) - 1, w)
    else r
  }

  // ----- the same, told from the rows as they were and from the world

  /** The lease outlasts this much of the run. */
  predicate InLease(r: Rows, w: World, elapsed: nat) { r.now + elapsed < r.now + 60 && r.now + elapsed < w.limit }

  /** A write this far into the run finds its facts and, unless it only observes, an authorization that stands. */
  predicate StillAuthorized(r: Rows, id: nat, verify: bool, elapsed: nat, facts: bool)
    requires r.Scoped() && id in r.slots
  {
    facts && (Observing(r, id, verify) || r.previews[r.slots[id].preview].expires > r.now + elapsed)
  }

  predicate WillReserve(r: Rows, locked: bool, alive: bool, id: nat, verify: bool, w: World)
    requires r.Scoped()
  {
    && !verify && alive && Claims(r, locked, alive, id, verify, w) && r.slots[id].request.None?
    && w.roleOk && w.before == Some(false) && w.regranted
    && InLease(r, w, w.reading + 1) && StillAuthorized(r, id, verify, w.reading, w.reserveFacts)
  }

  /**
   Exactly when a run sends: it may claim an unrequested slot, every read agrees, lease and
   authorization outlast the reads, and the session survives.
   */
  predicate WillSend(r: Rows, locked: bool, alive: bool, id: nat, verify: bool, w: World)
    requires r.Scoped()
  {
    WillReserve(r, locked, alive, id, verify, w) && !w.sessionLost
  }

  predicate ReceiptCounts(r: Rows, locked: bool, alive: bool, id: nat, verify: bool, w: World)
    requires r.Scoped()
  {
    && WillSend(r, locked, alive, id, verify, w)
    && InLease(r, w, w.reading + w.delay) && StillAuthorized(r, id, verify, w.reading + w.delay, w.receiptFacts)
  }

  /** The send route records what the roster showed after the DELETE. */
  predicate RecordsAfter(r: Rows, locked: bool, alive: bool, id: nat, verify: bool, w: World)
    requires r.Scoped()
  {
    var elapsed := w.reading + w.delay + w.checking;
    && ReceiptCounts(r, locked, alive, id, verify, w) && w.accepted && w.roleStillOk && w.after.Some? && w.finalGrant
    && InLease(r, w, elapsed) && StillAuthorized(r, id, verify, elapsed, w.commitFacts)
  }

  /** A slot that has a request already records what the first roster showed. */
  predicate RecordsBefore(r: Rows, locked: bool, alive: bool, id: nat, verify: bool, w: World)
    requires r.Scoped()
  {
    && alive && Claims(r, locked, alive, id, verify, w) && r.slots[id].request.Some?
    && w.roleOk && w.before.Some? && w.finalGrant
    && InLease(r, w, w.reading) && StillAuthorized(r, id, verify, w.reading, w.commitFacts)
  }

  predicate Disagrees(r: Rows, locked: bool, alive: bool, id: nat, verify: bool, w: World)
    requires r.Scoped()
  {
    && alive && Claims(r, locked, alive, id, verify, w) && InLease(r, w, w.reading)
    && (!w.roleOk || w.before.None? || (w.before.value && r.slots[id].request.None?))
  }

  /** A failure behind the reservation: the session is lost, the request refused, or the second read fails. */
  predicate FailsBehind(r: Rows, locked: bool, alive: bool, id: nat, verify: bool, w: World)
    requires r.Scoped()
  {
    || (WillReserve(r, locked, alive, id, verify, w) && w.sessionLost)
    || (ReceiptCounts(r, locked, alive, id, verify, w) && !w.accepted)
    || (ReceiptCounts(r, locked, alive, id, verify, w) && w.accepted && (!w.roleStillOk || w.after.None?)
        && InLease(r, w, w.reading + w.delay + w.checking))
  }

  /** The evidence a run adds: what the roster showed it, and nothing else. */
  function Recorded(r: Rows, locked: bool, alive: bool, id: nat, verify: bool, w: World): seq<Evidence>
    requires r.Scoped()
  {
    if RecordsAfter(r, locked, alive, id, verify, w) then [Evidence(id, r.slots[id].epoch + 1, w.after.value)]
    else if RecordsBefore(r, locked, alive, id, verify, w) then [Evidence(id, r.slots[id].epoch + 1, w.before.value)]
    else []
  }

  /** How a claimed run leaves its row, state by state. */
  ghost predicate Ends(r: Rows, locked: bool, alive: bool, worker: nat, id: nat, verify: bool, w: World, y: Slot)
    requires r.Scoped() && id in r.slots
  {
    var after, before := RecordsAfter(r, locked, alive, id, verify, w), RecordsBefore(r, locked, alive, id, verify, w);
    var fails, disagrees := FailsBehind(r, locked, alive, id, verify, w), Disagrees(r, locked, alive, id, verify, w);
    var observing, x := Observing(r, id, verify), r.slots[id];
    && (y.state == Stopped <==> observing)
    && (y.state == AbsentVerified <==> (after && w.after == Some(true)) || (before && w.before == Some(true) && !observing))
    && (y.state == ResultUncertain <==>
          && !observing
          && ((after && w.after == Some(false)) || (before && w.before == Some(false)) || fails || (disagrees && x.request.Some?)))
    && (y.state == Blocked <==> disagrees && x.request.None?)
    && (y.lease.None? <==> after || before || fails || disagrees)
    && y.request == (if x.request.Some? then x.request
                     else if WillReserve(r, locked, alive, id, verify, w) then Some(worker) else None)
    && (y.uncertain <==> y.request.Some? && y.state != AbsentVerified)
    && y.epoch == x.epoch + 1 && y.attempts == x.attempts + 1 && y.preview == x.preview
  }

  /** Only the handler's own row changes, and the evidence grows by what was read. */
  ghost predicate Tells(r: Rows, locked: bool, alive: bool, worker: nat, id: nat, verify: bool, w: World, q: Rows)
    requires r.Scoped()
  {
    && q.previews == r.previews && q.slots.Keys == r.slots.Keys
    && (forall o :: o in r.slots && o != id ==> q.slots[o] == r.slots[o])
    && q.evidence == r.evidence + Recorded(r, locked, alive, id, verify, w)
    && (if Claims(r, locked, alive, id, verify, w) then Ends(r, locked, alive, worker, id, verify, w, q.slots[id]) else q == r)
  }

  // ----- why both tell the same

  /** Rows in the middle of a run: the claim's lease is in the row, everything else is as it was. */
  ghost predicate Holding(r: Rows, worker: nat, id: nat, verify: bool, w: World, elapsed: nat, q: Rows) {
    && r.Scoped() && id in r.slots && q.Scoped() && q.previews == r.previews && q.evidence == r.evidence && q.now == r.now + elapsed
    && q.slots.Keys == r.slots.Keys && (forall o :: o in r.slots && o != id ==> q.slots[o] == r.slots[o])
    && var x, y, p := r.slots[id], q.slots[id], r.previews[r.slots[id].preview];
    && y.preview == x.preview && y.epoch == x.epoch + 1 && y.attempts == x.attempts + 1
    && y.lease == Some(Lease(worker, Min(r.now + 60, w.limit))) && y.state != AbsentVerified
    && (y.state == Stopped <==> Observing(r, id, verify)) && (y.uncertain <==> y.request.Some?)
    && (Observing(r, id, verify) || (!p.stopped && !p.revoked && !p.drifted))
  }

  lemma ClaimHolds(r: Rows, locked: bool, alive: bool, worker: nat, id: nat, verify: bool, w: World)
    requires r.Scoped() && Claims(r, locked, alive, id, verify, w)
    ensures Holding(r, worker, id, verify, w, 0, ClaimedTx(r, worker, id, verify, w))
    ensures var y := ClaimedTx(r, worker, id, verify, w).slots[id];
            y.request == r.slots[id].request && y.state in {Stopped, LeaseAcquired, AbsencePending} && (verify ==> y.request.Some?)
  {
  }

  /** What the fence of every later write comes down to. */
  lemma FenceMeans(r: Rows, worker: nat, id: nat, verify: bool, w: World, elapsed: nat, q: Rows, facts: bool)
    requires Holding(r, worker, id, verify, w, elapsed, q)
    ensures LeaseCurrent(q, TicketFor(r, worker, id, verify)) <==> InLease(r, w, elapsed)
    ensures LeaseTx(q, TicketFor(r, worker, id, verify), facts) <==>
              InLease(r, w, elapsed) && StillAuthorized(r, id, verify, elapsed, facts)
  {
  }

  /** Nothing but the row of the run, and the evidence, is touched. */
  ghost predicate Writes(q: Rows, q': Rows, id: nat, y: Slot, added: seq<Evidence>) {
    q'.previews == q.previews && id in q.slots && q'.slots == q.slots[id := y] && q'.evidence == q.evidence + added
  }

  lemma FailWrites(r: Rows, worker: nat, id: nat, verify: bool, w: World, elapsed: nat, q: Rows)
    requires Holding(r, worker, id, verify, w, elapsed, q)
    ensures var y := q.slots[id];
            var failed := y.(state := if Observing(r, id, verify) then Stopped else if y.request.None? then Blocked else ResultUncertain,
                             lease := None);
            Writes(q, FailTx(q, TicketFor(r, worker, id, verify)), id, if InLease(r, w, elapsed) then failed else y, [])
  {
    FenceMeans(r, worker, id, verify, w, elapsed, q, true);
    if !InLease(r, w, elapsed) { assert q.slots == q.slots[id := q.slots[id]]; }
  }

  lemma ObservedWrites(r: Rows, worker: nat, id: nat, verify: bool, w: World, elapsed: nat, q: Rows, absent: bool)
    requires Holding(r, worker, id, verify, w, elapsed, q)
    ensures var y, observing := q.slots[id], Observing(r, id, verify);
            var seen := y.(state := if observing then Stopped else if absent then AbsentVerified else ResultUncertain,
                           uncertain := observing || !absent, lease := None);
            var commits := w.finalGrant && InLease(r, w, elapsed) && StillAuthorized(r, id, verify, elapsed, w.commitFacts);
            Writes(q, Observed(q, TicketFor(r, worker, id, verify), w.finalGrant, absent, w.commitFacts), id,
                   if commits then seen else y, if commits then [Evidence(id, r.slots[id].epoch + 1, absent)] else [])
  {
    FenceMeans(r, worker, id, verify, w, elapsed, q, w.commitFacts);
    assert q.slots == q.slots[id := q.slots[id]];
  }

  /** What a run may leave in the row of a slot whose request it has just sent. */
  ghost predicate SentEnds(r: Rows, id: nat, w: World, y0: Slot, y: Slot, recorded: bool, failed: bool) {
    && y == y0.(state := y.state, uncertain := y.uncertain, lease := y.lease)
    && (y.state == AbsentVerified <==> recorded && w.after == Some(true))
    && (y.state == ResultUncertain <==> failed || (recorded && w.after == Some(false)))
    && y.state in {RemoveRequested, AbsencePending, AbsentVerified, ResultUncertain}
    && (y.uncertain <==> y.state != AbsentVerified) && (y.lease.None? <==> recorded || failed)
  }

  lemma VerifiedWrites(r: Rows, worker: nat, id: nat, w: World, elapsed: nat, q: Rows)
    requires Holding(r, worker, id, false, w, elapsed, q) && q.slots[id].request.Some? && q.slots[id].state == AbsencePending
    ensures var late := elapsed + w.checking;
            var recorded := w.roleStillOk && w.after.Some? && w.finalGrant && InLease(r, w, late) && StillAuthorized(r, id, false, late, w.commitFacts);
            var failed := (!w.roleStillOk || w.after.None?) && InLease(r, w, late);
            exists y :: SentEnds(r, id, w, q.slots[id], y, recorded, failed)
                        && Writes(q, Verified(q, TicketFor(r, worker, id, false), w), id, y,
                                  if recorded then [Evidence(id, r.slots[id].epoch + 1, w.after.value)] else [])
  {
    var t, later := TicketFor(r, worker, id, false), Later(q, w.checking);
    assert Holding(r, worker, id, false, w, elapsed + w.checking, later);
    if !w.roleStillOk || w.after.None? {
      FailWrites(r, worker, id, false, w, elapsed + w.checking, later);
    } else {
      ObservedWrites(r, worker, id, false, w, elapsed + w.checking, later, w.after.value);
    }
    assert SentEnds(r, id, w, q.slots[id], Verified(q, t, w).slots[id],
                    w.roleStillOk && w.after.Some? && w.finalGrant && InLease(r, w, elapsed + w.checking)
                    && StillAuthorized(r, id, false, elapsed + w.checking, w.commitFacts),
                    (!w.roleStillOk || w.after.None?) && InLease(r, w, elapsed + w.checking));
  }

  lemma ReceivedWrites(r: Rows, worker: nat, id: nat, w: World, elapsed: nat, q: Rows)
    requires Holding(r, worker, id, false, w, elapsed, q) && q.slots[id].request.Some? && q.slots[id].state == RemoveRequested
    ensures var late := elapsed + w.checking;
            var counts := InLease(r, w, elapsed) && StillAuthorized(r, id, false, elapsed, w.receiptFacts);
            var recorded := counts && w.accepted && w.roleStillOk && w.after.Some? && w.finalGrant
                            && InLease(r, w, late) && StillAuthorized(r, id, false, late, w.commitFacts);
            var failed := (counts && !w.accepted)
                          || (counts && w.accepted && (!w.roleStillOk || w.after.None?) && InLease(r, w, late));
            exists y :: SentEnds(r, id, w, q.slots[id], y, recorded, failed)
                        && Writes(q, Received(q, TicketFor(r, worker, id, false), w), id, y,
                                  if recorded then [Evidence(id, r.slots[id].epoch + 1, w.after.value)] else [])
  {
    var t := TicketFor(r, worker, id, false);
    FenceMeans(r, worker, id, false, w, elapsed, q, w.receiptFacts);
    if !LeaseTx(q, t, w.receiptFacts) {
      assert q.slots == q.slots[id := q.slots[id]];
      assert SentEnds(r, id, w, q.slots[id], q.slots[id], false, false);
    } else if w.accepted {
      var received := ReceiptTx(q, t, true, w.receiptFacts);
      assert Holding(r, worker, id, false, w, elapsed, received);
      VerifiedWrites(r, worker, id, w, elapsed, received);
      assert received.slots[id] == q.slots[id].(state := AbsencePending);
    } else {
      var received := ReceiptTx(q, t, false, w.receiptFacts);
      assert Holding(r, worker, id, false, w, elapsed, received);
      FailWrites(r, worker, id, false, w, elapsed, received);
      assert SentEnds(r, id, w, q.slots[id], FailTx(received, t).slots[id], false, true);
    }
  }

  lemma ReserveMeans(r: Rows, worker: nat, id: nat, w: World, elapsed: nat, q: Rows)
    requires Holding(r, worker, id, false, w, elapsed, q) && q.slots[id].request.None?
    ensures Reserves(q, TicketFor(r, worker, id, false), Min(r.now + 60, w.limit) - 1, w) <==>
              w.regranted && InLease(r, w, elapsed + 1) && StillAuthorized(r, id, false, elapsed, w.reserveFacts)
  {
    FenceMeans(r, worker, id, false, w, elapsed, q, w.reserveFacts);
  }

  /** A part of the run that leaves this row and this evidence behind has told the run. */
  lemma TellsFrom(r: Rows, locked: bool, alive: bool, worker: nat, id: nat, verify: bool, w: World, elapsed: nat, q: Rows, q': Rows, y: Slot)
    requires r.Scoped() && Claims(r, locked, alive, id, verify, w) && Holding(r, worker, id, verify, w, elapsed, q)
    requires Writes(q, q', id, y, Recorded(r, locked, alive, id, verify, w)) && Ends(r, locked, alive, worker, id, verify, w, y)
    ensures Tells(r, locked, alive, worker, id, verify, w, q')
  {
  }

  lemma IdleEnds(r: Rows, locked: bool, alive: bool, worker: nat, id: nat, verify: bool, w: World)
    requires r.Scoped() && Claims(r, locked, alive, id, verify, w)
    requires !alive || (!verify && r.slots[id].request.None? && !WillReserve(r, locked, alive, id, verify, w) && ReadsAgree(false, w))
    ensures Ends(r, locked, alive, worker, id, verify, w, ClaimedTx(r, worker, id, verify, w).slots[id])
    ensures Recorded(r, locked, alive, id, verify, w) == []
  {
  }

  lemma DisagreeEnds(r: Rows, locked: bool, worker: nat, id: nat, verify: bool, w: World)
    requires r.Scoped() && Claims(r, locked, true, id, verify, w) && !ReadsAgree(r.slots[id].request.Some?, w)
    ensures var y := ClaimedTx(r, worker, id, verify, w).slots[id];
            var failed := y.(state := if Observing(r, id, verify) then Stopped else if y.request.None? then Blocked else ResultUncertain,
                             lease := None);
            Ends(r, locked, true, worker, id, verify, w, if InLease(r, w, w.reading) then failed else y)
    ensures Recorded(r, locked, true, id, verify, w) == []
  {
  }

  lemma ObservedEnds(r: Rows, locked: bool, worker: nat, id: nat, verify: bool, w: World)
    requires r.Scoped() && Claims(r, locked, true, id, verify, w) && ReadsAgree(true, w) && r.slots[id].request.Some?
    ensures var y, observing := ClaimedTx(r, worker, id, verify, w).slots[id], Observing(r, id, verify);
            var seen := y.(state := if observing then Stopped else if w.before.value then AbsentVerified else ResultUncertain,
                           uncertain := observing || !w.before.value, lease := None);
            var commits := w.finalGrant && InLease(r, w, w.reading) && StillAuthorized(r, id, verify, w.reading, w.commitFacts);
            && Ends(r, locked, true, worker, id, verify, w, if commits then seen else y)
            && Recorded(r, locked, true, id, verify, w) == if commits then [Evidence(id, r.slots[id].epoch + 1, w.before.value)] else []
  {
  }

  lemma LostEnds(r: Rows, locked: bool, worker: nat, id: nat, w: World)
    requires r.Scoped() && WillReserve(r, locked, true, id, false, w) && w.sessionLost
    ensures var y := ClaimedTx(r, worker, id, false, w).slots[id];
            Ends(r, locked, true, worker, id, false, w, y.(state := ResultUncertain, request := Some(worker), uncertain := true, lease := None))
    ensures Recorded(r, locked, true, id, false, w) == []
  {
  }

  lemma SentEndsRun(r: Rows, locked: bool, worker: nat, id: nat, w: World, y: Slot)
    requires r.Scoped() && WillSend(r, locked, true, id, false, w)
    requires var y0 := ClaimedTx(r, worker, id, false, w).slots[id].(state := RemoveRequested, request := Some(worker), uncertain := true);
             SentEnds(r, id, w, y0, y, RecordsAfter(r, locked, true, id, false, w), FailsBehind(r, locked, true, id, false, w))
    ensures Ends(r, locked, true, worker, id, false, w, y)
    ensures Recorded(r, locked, true, id, false, w) ==
              if RecordsAfter(r, locked, true, id, false, w) then [Evidence(id, r.slots[id].epoch + 1, w.after.value)] else []
  {
  }

  /** Behind the reservation. */
  ghost predicate Reserved(r: Rows, locked: bool, worker: nat, id: nat, w: World, reserved: Rows)
    requires r.Scoped()
  {
    && WillReserve(r, locked, true, id, false, w) && Holding(r, worker, id, false, w, w.reading, reserved)
    && reserved.slots[id] ==
         ClaimedTx(r, worker, id, false, w).slots[id].(state := RemoveRequested, request := Some(worker), uncertain := true)
  }

  lemma LostTells(r: Rows, locked: bool, worker: nat, id: nat, w: World, reserved: Rows)
    requires r.Scoped() && Reserved(r, locked, worker, id, w, reserved) && w.sessionLost
    ensures Tells(r, locked, true, worker, id, false, w, FailTx(reserved, TicketFor(r, worker, id, false)))
  {
    var q := FailTx(reserved, TicketFor(r, worker, id, false));
    FailWrites(r, worker, id, false, w, w.reading, reserved);
    LostEnds(r, locked, worker, id, w);
    TellsFrom(r, locked, true, worker, id, false, w, w.reading, reserved, q, q.slots[id]);
  }

  lemma SentTells(r: Rows, locked: bool, worker: nat, id: nat, w: World, reserved: Rows)
    requires r.Scoped() && Reserved(r, locked, worker, id, w, reserved) && !w.sessionLost
    ensures Tells(r, locked, true, worker, id, false, w, Received(Later(reserved, w.delay), TicketFor(r, worker, id, false), w))
  {
    var waited := Later(reserved, w.delay);
    assert Holding(r, worker, id, false, w, w.reading + w.delay, waited);
    ReceivedWrites(r, worker, id, w, w.reading + w.delay, waited);
    var q := Received(waited, TicketFor(r, worker, id, false), w);
    SentEndsRun(r, locked, worker, id, w, q.slots[id]);
    TellsFrom(r, locked, true, worker, id, false, w, w.reading + w.delay, waited, q, q.slots[id]);
  }

  /** The send route, from the claim on. */
  lemma DeletedTells(r: Rows, locked: bool, worker: nat, id: nat, w: World, read: Rows)
    requires r.Scoped() && Claims(r, locked, true, id, false, w) && read == Later(ClaimedTx(r, worker, id, false, w), w.reading)
    requires r.slots[id].request.None? && ReadsAgree(false, w) && Holding(r, worker, id, false, w, w.reading, read)
    requires read.slots[id].request.None?
    ensures Tells(r, locked, true, worker, id, false, w, Deleted(read, TicketFor(r, worker, id, false), Min(r.now + 60, w.limit) - 1, w))
  {
    var t := TicketFor(r, worker, id, false);
    ReserveMeans(r, worker, id, w, w.reading, read);
    if WillReserve(r, locked, true, id, false, w) {
      var reserved := ReserveTx(read, t, w.reserveFacts);
      assert Holding(r, worker, id, false, w, w.reading, reserved);
      if w.sessionLost { LostTells(r, locked, worker, id, w, reserved); } else { SentTells(r, locked, worker, id, w, reserved); }
    } else {
      IdleEnds(r, locked, true, worker, id, false, w);
      assert read.slots == read.slots[id := read.slots[id]];
      TellsFrom(r, locked, true, worker, id, false, w, w.reading, read, read, read.slots[id]);
    }
  }

  /** What was claimed, and the reads behind it. */
  lemma ReadTells(r: Rows, locked: bool, worker: nat, id: nat, verify: bool, w: World, read: Rows)
    requires r.Scoped() && Claims(r, locked, true, id, verify, w) && read == Later(ClaimedTx(r, worker, id, verify, w), w.reading)
    requires Holding(r, worker, id, verify, w, w.reading, read) && read.slots[id].request == r.slots[id].request
    requires !ReadsAgree(r.slots[id].request.Some?, w) || r.slots[id].request.Some?
    ensures var t := TicketFor(r, worker, id, verify);
            Tells(r, locked, true, worker, id, verify, w,
                  if !ReadsAgree(r.slots[id].request.Some?, w) then FailTx(read, t)
                  else Observed(read, t, w.finalGrant, w.before.value, w.commitFacts))
  {
    var t := TicketFor(r, worker, id, verify);
    if !ReadsAgree(r.slots[id].request.Some?, w) {
      FailWrites(r, worker, id, verify, w, w.reading, read);
      DisagreeEnds(r, locked, worker, id, verify, w);
      TellsFrom(r, locked, true, worker, id, verify, w, w.reading, read, FailTx(read, t), FailTx(read, t).slots[id]);
    } else {
      ObservedWrites(r, worker, id, verify, w, w.reading, read, w.before.value);
      ObservedEnds(r, locked, worker, id, verify, w);
      var q := Observed(read, t, w.finalGrant, w.before.value, w.commitFacts);
      TellsFrom(r, locked, true, worker, id, verify, w, w.reading, read, q, q.slots[id]);
    }
  }

  /** The run as its transactions compose it is the run as it is told from the old rows and the world. */
  lemma OutcomeTells(r: Rows, locked: bool, alive: bool, worker: nat, id: nat, verify: bool, w: World)
    requires r.Scoped()
    ensures Tells(r, locked, alive, worker, id, verify, w, Outcome(r, locked, alive, worker, id, verify, w))
  {
    if Claims(r, locked, alive, id, verify, w) {
      var c := ClaimedTx(r, worker, id, verify, w);
      ClaimHolds(r, locked, alive, worker, id, verify, w);
      if alive {
        var read := Later(c, w.reading);
        assert Holding(r, worker, id, verify, w, w.reading, read);
        if ReadsAgree(false, w) && r.slots[id].request.None? {
          DeletedTells(r, locked, worker, id, w, read);
        } else {
          ReadTells(r, locked, worker, id, verify, w, read);
        }
      } else {
        IdleEnds(r, locked, alive, worker, id, verify, w);
        assert c.slots == c.slots[id := c.slots[id]];
        TellsFrom(r, locked, alive, worker, id, verify, w, 0, c, c, c.slots[id]);
      }
    }
  }

  // ----- the handler

  /** What one handler may do to the rows: its own slot, never its request once there, evidence only added. */
  ghost predicate OwnSlotOnly(a: Rows, b: Rows, id: nat) {
    && a.previews == b.previews && a.slots.Keys == b.slots.Keys && a.evidence <= b.evidence
    && (forall o :: o in a.slots && o != id ==> b.slots[o] == a.slots[o])
    && (id in a.slots ==> b.slots[id].preview == a.slots[id].preview)
    && (id in a.slots && a.slots[id].request.Some? ==> b.slots[id].request == a.slots[id].request)
  }

  /** An obligation is discharged only by recording, last of all, that the target is absent. */
  ghost predicate StillOwed(a: Rows, b: Rows, id: nat) {
    id in a.slots && id in b.slots && b.slots[id].request.Some? && !b.slots[id].uncertain ==>
      b.slots[id] == a.slots[id]
      || (|b.evidence| == |a.evidence| + 1 && b.evidence[|a.evidence|] == Evidence(id, b.slots[id].epoch, true))
  }

  lemma ToldIsOwed(r: Rows, locked: bool, alive: bool, worker: nat, id: nat, verify: bool, w: World, q: Rows)
    requires r.Scoped() && Tells(r, locked, alive, worker, id, verify, w, q)
    ensures OwnSlotOnly(r, q, id) && StillOwed(r, q, id)
  {
  }

  /** `fail`: the failure transaction, whatever it answers. */
  method Abort(x: RemovalTables, t: Ticket)
    modifies x
    ensures x.View() == FailTx(old(x.View()), t)
  {
    var _ := x.FinishFailure(t);
  }

  /** The reservation under the retaken gate, and the probe of its session. */
  method ReserveAndProbe(x: RemovalTables, g: Gate, t: Ticket, deadline: int, w: World) returns (ok: bool)
    requires g.Valid() && x.View().Scoped()
    modifies x, g
    ensures g.Valid() && x.View().Scoped() && OwnSlotOnly(old(x.View()), x.View(), t.slot) && x.evidence == old(x.evidence)
    ensures StillOwed(old(x.View()), x.View(), t.slot)
    ensures ok <==> old(x.now) < deadline && (old(g.locked) || w.regranted) && old(g.alive)
                    && MayReserve(old(x.View()), t, w.reserveFacts) && !w.sessionLost
    ensures ok ==> g.held && x.View() == ReserveTx(old(x.View()), t, w.reserveFacts)
    ensures !ok ==>
              x.View() == if old(x.now) < deadline && (old(g.locked) || (w.regranted && old(g.alive)))
                             && MayReserve(old(x.View()), t, w.reserveFacts)
                          then FailTx(ReserveTx(old(x.View()), t, w.reserveFacts), t) else old(x.View())
  {
    ok := ReserveLocked(x, g, t, deadline, w);
    if !ok { return; }
    g.Lose(w.sessionLost);
    ok := g.Probe();
    if !ok { Abort(x, t); }
  }

  /** The reservation alone; it must start before the deadline. */
  method ReserveLocked(x: RemovalTables, g: Gate, t: Ticket, deadline: int, w: World) returns (ok: bool)
    requires g.Valid() && x.View().Scoped()
    modifies x, g
    ensures g.Valid() && g.alive == old(g.alive) && (ok ==> g.locked)
    ensures ok <==> old(x.now) < deadline && (old(g.locked) || (w.regranted && old(g.alive))) && MayReserve(old(x.View()), t, w.reserveFacts)
    ensures x.View() == if ok then ReserveTx(old(x.View()), t, w.reserveFacts) else old(x.View())
  {
    if x.now >= deadline { return false; }
    var relocked := g.Lock(w.regranted);
    if !relocked { return false; }
    var reserved := x.Reserve(t, w.reserveFacts);
    return !reserved.Refused?;
  }

  /** The DELETE with its receipt, and everything behind it. */
  method SendAndReceive(x: RemovalTables, g: Gate, t: Ticket, w: World) returns (sent: Send)
    requires g.Valid() && g.alive && x.View().Scoped() && t.slot in x.slots
    modifies x, g
    ensures g.Valid() && sent == Send(t.slot, old(x.slots)[t.slot].request, old(g.held))
    ensures x.View() == Received(Later(old(x.View()), w.delay), t, w)
  {
    sent := Send(t.slot, x.slots[t.slot].request, g.held);
    ghost var reserved := x.View();
    x.now := x.now + w.delay;
    assert x.View() == Later(reserved, w.delay);
    var receipt := x.Receipt(t, w.accepted, w.receiptFacts);
    if receipt.Refused? { return; }
    if !w.accepted {
      Abort(x, t);
      return;
    }
    VerifyAfter(x, g, t, w);
  }

  /** The reads after a receipt, over the released gate, and their commit. */
  method VerifyAfter(x: RemovalTables, g: Gate, t: Ticket, w: World)
    requires g.Valid() && g.alive && x.View().Scoped()
    modifies x, g
    ensures g.Valid() && x.View() == Verified(old(x.View()), t, w)
  {
    var unlocked := g.Unlock();
    if !unlocked { return; }
    x.now := x.now + w.checking;
    if !w.roleStillOk || w.after.None? {
      Abort(x, t);
      return;
    }
    Observe(x, g, t, w.finalGrant, w.after.value, w.commitFacts);
  }

  /** Commits what was read behind the released gate under the retaken one. */
  method Observe(x: RemovalTables, g: Gate, t: Ticket, granted: bool, absent: bool, facts: bool)
    requires g.Valid() && g.alive && !g.locked && x.View().Scoped()
    modifies x, g
    ensures g.Valid() && x.View() == Observed(old(x.View()), t, granted, absent, facts)
  {
    var ok := g.Lock(granted);
    if !ok { return; }
    var _ := x.CommitEvidence(t, absent, facts);
  }

  /** Reserve, send and verify a slot that never had a request. */
  method DeleteAndVerify(x: RemovalTables, g: Gate, t: Ticket, deadline: int, w: World) returns (sent: Option<Send>)
    requires g.Valid() && g.alive && !g.locked && x.View().Scoped()
    modifies x, g
    ensures g.Valid() && x.View() == Deleted(old(x.View()), t, deadline, w)
    ensures sent == if Reserves(old(x.View()), t, deadline, w) && !w.sessionLost then Some(Send(t.slot, Some(t.worker), true)) else None
  {
    var reserved := ReserveAndProbe(x, g, t, deadline, w);
    if !reserved { return None; }
    var delete := SendAndReceive(x, g, t, w);
    return Some(delete);
  }

  /** The claim of a slot that is there. */
  method ClaimRow(x: RemovalTables, worker: nat, id: nat, verify: bool, w: World) returns (t: Option<Ticket>)
    requires x.View().Scoped() && id in x.slots
    modifies x
    ensures var r := old(x.View());
            && t == (if MayClaim(r, id, verify, Observing(r, id, verify), w.claimFacts) then Some(TicketFor(r, worker, id, verify)) else None)
            && x.View() == ClaimedTx(r, worker, id, verify, w)
  {
    var p := x.previews[x.slots[id].preview];
    var reconcile := verify && (p.stopped || p.revoked || p.expires <= x.now || p.drifted);
    ghost var r := x.View();
    assert reconcile == Observing(r, id, verify);
    var claimed := x.Claim(worker, id, verify, reconcile, w.limit, w.claimFacts);
    if claimed.Refused? { return None; }
    return Some(Ticket(worker, id, claimed.epoch, reconcile));
  }

  /** The claim, under the gate. */
  method ClaimLocked(x: RemovalTables, g: Gate, worker: nat, id: nat, verify: bool, w: World) returns (t: Option<Ticket>)
    requires g.Valid() && x.View().Scoped()
    modifies x, g
    ensures g.Valid() && g.alive == old(g.alive) && (t.Some? ==> g.locked)
    ensures t == if Claims(old(x.View()), old(g.locked), old(g.alive), id, verify, w)
                 then Some(TicketFor(old(x.View()), worker, id, verify)) else None
    ensures x.View() == if t.Some? then ClaimedTx(old(x.View()), worker, id, verify, w) else old(x.View())
  {
    var locked := g.Lock(w.granted);
    if !locked || id !in x.slots { return None; }
    t := ClaimRow(x, worker, id, verify, w);
  }

  /** Everything behind the claim; the handler gives up sending at the deadline. */
  method RunClaimed(x: RemovalTables, g: Gate, t: Ticket, deadline: int, w: World) returns (sent: Option<Send>)
    requires g.Valid() && g.locked && x.View().Scoped() && t.slot in x.slots
    modifies x, g
    ensures g.Valid() && x.View() == RunTx(old(x.View()), old(g.alive), t, deadline, w)
    ensures sent == if old(g.alive) && ReadsAgree(old(x.slots)[t.slot].request.Some?, w) && old(x.slots)[t.slot].request.None?
                       && Reserves(Later(old(x.View()), w.reading), t, deadline, w) && !w.sessionLost
                    then Some(Send(t.slot, Some(t.worker), true)) else None
  {
    ghost var c := x.View();
    var unlocked := g.Unlock();
    if !unlocked { return None; }
    x.now := x.now + w.reading;
    assert x.View() == Later(c, w.reading);
    if !w.roleOk || w.before.None? || (w.before.value && x.slots[t.slot].request.None?) {
      Abort(x, t);
      return None;
    }
    sent := None;
    if x.slots[t.slot].request.Some? {
      Observe(x, g, t, w.finalGrant, w.before.value, w.commitFacts);
    } else {
      sent := DeleteAndVerify(x, g, t, deadline, w);
    }
  }

  /** The claim goes on to send exactly when the run was going to send. */
  lemma SendsAsTold(r: Rows, locked: bool, alive: bool, worker: nat, id: nat, verify: bool, w: World)
    requires r.Scoped() && Claims(r, locked, alive, id, verify, w)
    ensures var c, t := ClaimedTx(r, worker, id, verify, w), TicketFor(r, worker, id, verify);
            && id in c.slots && c.slots[id].lease.Some? && c.slots[id].lease.value.expires == Min(r.now + 60, w.limit)
            && c.slots[id].request == r.slots[id].request
            && (WillSend(r, locked, alive, id, verify, w) <==>
                  alive && ReadsAgree(c.slots[id].request.Some?, w) && c.slots[id].request.None?
                  && Reserves(Later(c, w.reading), t, Min(r.now + 60, w.limit) - 1, w) && !w.sessionLost)
  {
    var c := ClaimedTx(r, worker, id, verify, w);
    ClaimHolds(r, locked, alive, worker, id, verify, w);
    if c.slots[id].request.None? {
      assert Holding(r, worker, id, false, w, w.reading, Later(c, w.reading));
      ReserveMeans(r, worker, id, w, w.reading, Later(c, w.reading));
    }
  }

  /** The handler up to the closing of its session. */
  method Handle(x: RemovalTables, g: Gate, worker: nat, id: nat, verify: bool, w: World) returns (sent: Option<Send>)
    requires g.Valid() && x.View().Scoped()
    modifies x, g
    ensures x.View() == Outcome(old(x.View()), old(g.locked), old(g.alive), worker, id, verify, w)
    ensures sent == if WillSend(old(x.View()), old(g.locked), old(g.alive), id, verify, w) then Some(Send(id, Some(worker), true)) else None
  {
    ghost var r, locked, alive := x.View(), g.locked, g.alive;
    var t := ClaimLocked(x, g, worker, id, verify, w);
    if t.None? { return None; }
    SendsAsTold(r, locked, alive, worker, id, verify, w);
    var deadline := x.slots[id].lease.value.expires - 1;
    sent := RunClaimed(x, g, t.value, deadline, w);
  }

  /** What the told run says about evidence and sends, entry by entry. */
  lemma SentIsTold(r: Rows, locked: bool, alive: bool, worker: nat, id: nat, verify: bool, w: World, q: Rows, sent: Option<Send>)
    requires r.Scoped() && Tells(r, locked, alive, worker, id, verify, w, q)
    requires sent.Some? <==> WillSend(r, locked, alive, id, verify, w)
    ensures forall i :: |r.evidence| <= i < |q.evidence| ==>
              && id in q.slots && q.evidence[i].slot == id && q.evidence[i].epoch == q.slots[id].epoch
              && (q.evidence[i].absent <==> (if sent.Some? then w.after else w.before) == Some(true))
    ensures sent.Some? ==> !verify && id in r.slots && r.slots[id].request.None? && id in q.slots && q.slots[id].request == Some(worker)
  {
  }

  /**
   The whole handler. It sends at most one DELETE, and none for a slot that ever had a request or on
   the verify route; the DELETE carries the reservation just made durable and leaves while the
   session holds the gate. Evidence is recorded exactly when the roster was read and lease and
   authorization still stood, and says what that roster said; the row ends accordingly, and an
   obligation ends only with evidence of absence. The run touches its own slot only and closes the session.
   */
  method Run(x: RemovalTables, g: Gate, worker: nat, id: nat, verify: bool, w: World) returns (sent: Option<Send>)
    requires g.Valid() && x.View().Scoped()
    modifies x, g
    ensures !g.held && x.View().Scoped() && OwnSlotOnly(old(x.View()), x.View(), id) && StillOwed(old(x.View()), x.View(), id)
    ensures sent.Some? <==> WillSend(old(x.View()), old(g.locked), old(g.alive), id, verify, w)
    ensures sent.Some? ==>
              && !verify && id in old(x.slots) && old(x.slots)[id].request.None? && x.slots[id].request == Some(worker)
              && sent.value == Send(id, Some(worker), true)
    ensures x.evidence == old(x.evidence) + Recorded(old(x.View()), old(g.locked), old(g.alive), id, verify, w)
    ensures forall i :: |old(x.evidence)| <= i < |x.evidence| ==>
              && x.evidence[i].slot == id && x.evidence[i].epoch == x.slots[id].epoch
              && (x.evidence[i].absent <==> (if sent.Some? then w.after else w.before) == Some(true))
    ensures if Claims(old(x.View()), old(g.locked), old(g.alive), id, verify, w)
            then Ends(old(x.View()), old(g.locked), old(g.alive), worker, id, verify, w, x.slots[id]) else x.View() == old(x.View())
  {
    ghost var r, locked, alive := x.View(), g.locked, g.alive;
    sent := Handle(x, g, worker, id, verify, w);
    OutcomeTells(r, locked, alive, worker, id, verify, w);
    ToldIsOwed(r, locked, alive, worker, id, verify, w, x.View());
    SentIsTold(r, locked, alive, worker, id, verify, w, x.View(), sent);
    g.Close();
  }
}
