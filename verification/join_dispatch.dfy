/**
 One run of dispatchRotationCandidateJoin (internal/runtime/rotation_join_dispatch.go) over the
 durable row: two stages, each admitted twice against the admission pinned by the first one,
 marked, rechecked, sent and finished. join_protocol.dfy interleaves the same transactions.

 An admission stands for the whole record that sameJoinAdmission compares.
 */
module JoinDispatch {
  import opened Common
  import opened JoinJournal

  datatype Admission = Admission(workspace: nat, platform: nat, binding: nat, candidate: nat, mother: nat, access: nat)
  datatype Identity = Identity(identifier: nat, subject: nat, expires: int)

  /**
   What the world shows one pass of the loop, in the order the loop looks; `checking` passes before
   the marker, `delay` before the finish.
   */
  datatype Pass = Pass(
    gate: bool, admission: Option<Admission>, identity: Option<Identity>, route: bool, gateAgain: bool,
    recheck: Option<Admission>, checking: nat, guard: bool, gateLast: bool, stillAdmitted: bool,
    outcome: Outcome, mayReach: bool, delay: nat, finishLegal: bool)

  datatype Post = Post(stage: Stage, admission: Admission, identity: Identity)
  /** `GateLost` leaves a marker behind a stage that was not sent; the next claim reconciles it. */
  datatype End = Refused | GateLost | ReconcileNeeded

  /** Every POST on the wire has its marker under this lease, and an accept the success of its request. */
  ghost predicate Marked(journal: seq<Entry>, k: Ticket, wire: seq<Post>) {
    && (forall p :: p in wire ==> HasStart(journal, k.epoch, p.stage))
    && (|wire| == 2 ==> HasSuccess(journal, k.epoch, RequestJoin))
  }

  lemma JournalKept(before: seq<Entry>, after: seq<Entry>, epoch: nat, stage: Stage)
    requires before <= after
    ensures HasStart(before, epoch, stage) ==> HasStart(after, epoch, stage)
    ensures HasSuccess(before, epoch, stage) ==> HasSuccess(after, epoch, stage)
  {
    assert forall e :: e in before ==> e in after;
  }

  /** The world lets a pass through to its marker: the admission stands, twice, and is the pinned one. */
  predicate LetsThrough(pass: Pass, pinned: Option<(Admission, Identity)>) {
    && pass.gate && pass.admission.Some? && pass.identity.Some? && pass.route && pass.gateAgain && pass.recheck == pass.admission
    && (pinned.Some? ==> pinned.value == (pass.admission.value, pass.identity.value))
  }

  // ----- the row behind each part of a run

  function Later(t: Table, elapsed: nat): Table { t.(now := t.now + elapsed) }

  /** The stage is marked: the pass is let through, and its checks left lease and state as they were. */
  predicate Admits(t: Table, k: Ticket, stage: Stage, pass: Pass, pinned: Option<(Admission, Identity)>) {
    LetsThrough(pass, pinned) && MayMark(Later(t, pass.checking), k, stage, pass.guard)
  }

  /** The row right behind the marker. */
  function MarkedTx(t: Table, k: Ticket, stage: Stage, pass: Pass): Table { MarkTx(Later(t, pass.checking), k, stage, pass.guard) }

  /** The row when the reply is there. */
  function Waited(t: Table, pass: Pass): Table { Later(t, pass.delay) }

  function RepliedTx(t: Table, k: Ticket, stage: Stage, pass: Pass): Table {
    ClosedTx(Waited(t, pass), k, stage, pass.outcome, pass.mayReach, pass.finishLegal)
  }

  predicate Sends(t: Table, k: Ticket, stage: Stage, pass: Pass, pinned: Option<(Admission, Identity)>) {
    Admits(t, k, stage, pass, pinned) && pass.gateLast && pass.stillAdmitted
  }

  function PassTx(t: Table, k: Ticket, stage: Stage, pass: Pass, pinned: Option<(Admission, Identity)>): Table {
    if !LetsThrough(pass, pinned) then t
    else if Sends(t, k, stage, pass, pinned) then RepliedTx(MarkedTx(t, k, stage, pass), k, stage, pass)
    else MarkedTx(t, k, stage, pass)
  }

  /** This start event is the one that the finish closes. */
  predicate Closes(t: Table, k: Ticket, stage: Stage, pass: Pass, start: nat) {
    MayFinish(Waited(t, pass), k, stage, start, pass.mayReach, pass.finishLegal)
  }

  /** The reply, once it is there, can still close the stage it was sent for. */
  ghost predicate Closable(t: Table, k: Ticket, stage: Stage, pass: Pass) {
    exists start: nat :: Closes(t, k, stage, pass, start)
  }

  predicate FirstLeaves(t: Table, k: Ticket, pass: Pass) { Sends(t, k, RequestJoin, pass, None) }

  /** The first stage left, succeeded and was closed in time. */
  ghost predicate FirstSucceeds(t: Table, k: Ticket, pass: Pass) {
    FirstLeaves(t, k, pass) && pass.outcome.Succeeded? && Closable(MarkedTx(t, k, RequestJoin, pass), k, RequestJoin, pass)
  }

  /** Behind a first stage that succeeded, the second is marked: the same admission stands, and the lease outlasted it all. */
  ghost predicate SecondMarks(t: Table, k: Ticket, first: Pass, second: Pass) {
    && FirstSucceeds(t, k, first) && LetsThrough(second, Some((first.admission.value, first.identity.value)))
    && second.guard && t.exec.lease.value.expires > t.now + first.checking + first.delay + second.checking
  }

  ghost predicate SecondLeaves(t: Table, k: Ticket, first: Pass, second: Pass) {
    SecondMarks(t, k, first, second) && second.gateLast && second.stillAdmitted
  }

  ghost function DispatchTx(t: Table, k: Ticket, first: Pass, second: Pass): Table {
    var behind := PassTx(t, k, RequestJoin, first, None);
    if FirstSucceeds(t, k, first) then PassTx(behind, k, AcceptJoin, second, Some((first.admission.value, first.identity.value))) else behind
  }

  /** The journal says how a stage ended. */
  ghost predicate Ended(journal: seq<Entry>, k: Ticket, stage: Stage, pass: Pass) {
    exists e :: e in journal && e.Finished? && e.epoch == k.epoch && e.stage == stage && e.outcome == pass.outcome && e.mayReach == pass.mayReach
  }

  lemma RepliedEnds(t: Table, k: Ticket, stage: Stage, pass: Pass)
    requires Closable(t, k, stage, pass)
    ensures var q := RepliedTx(t, k, stage, pass);
            && t.journal <= q.journal && Ended(q.journal, k, stage, pass)
            && (pass.outcome.Succeeded? ==> HasSuccess(q.journal, k.epoch, stage))
            && q.exec.state == (if stage.RequestJoin? && pass.outcome.Succeeded? then RequestSucceeded else ReconcileRequired)
            && (stage.RequestJoin? && pass.outcome.Succeeded? ==> q.exec.lease == t.exec.lease)
  {
    var start: nat :| Closes(t, k, stage, pass, start);
    var q := RepliedTx(t, k, stage, pass);
    assert q.journal[|t.journal|] in q.journal;
  }

  lemma RepliedKeeps(t: Table, k: Ticket, stage: Stage, pass: Pass)
    ensures var q := RepliedTx(t, k, stage, pass);
            && t.journal <= q.journal && q.evidence == t.evidence && q.now == t.now + pass.delay
            && q.exec == t.exec.(state := q.exec.state, lease := q.exec.lease)
            && (!Closable(t, k, stage, pass) ==> q == Waited(t, pass))
  {
    if RepliedTx(t, k, stage, pass) != Waited(t, pass) {
      assert Closes(t, k, stage, pass, OpenStart(t.journal, k.epoch, stage).value);
    }
  }

  /** What one pass leaves of the row, whatever the world did. */
  lemma PassKeeps(t: Table, k: Ticket, stage: Stage, pass: Pass, pinned: Option<(Admission, Identity)>)
    requires !stage.Reconcile?
    ensures var q := PassTx(t, k, stage, pass, pinned);
            && t.journal <= q.journal && q.exec.epoch == t.exec.epoch
            && (if Admits(t, k, stage, pass, pinned)
                then HasStart(q.journal, k.epoch, stage)
                     && q.exec.requests == t.exec.requests + (if stage.RequestJoin? then 1 else 0)
                     && q.exec.accepts == t.exec.accepts + (if stage.AcceptJoin? then 1 else 0)
                     && (q.exec.requestReach <==> t.exec.requestReach || stage.RequestJoin?)
                else q == t.(now := q.now))
            && (Sends(t, k, stage, pass, pinned) && Closable(MarkedTx(t, k, stage, pass), k, stage, pass) ==>
                  Ended(q.journal, k, stage, pass) && (pass.outcome.Succeeded? ==> HasSuccess(q.journal, k.epoch, stage)))
  {
    var m := MarkedTx(t, k, stage, pass);
    RepliedKeeps(m, k, stage, pass);
    if Admits(t, k, stage, pass, pinned) {
      assert m.journal[|t.journal|] in m.journal;
      JournalKept(m.journal, RepliedTx(m, k, stage, pass).journal, k.epoch, stage);
      if Closable(m, k, stage, pass) { RepliedEnds(m, k, stage, pass); }
    }
  }

  /** Behind a request that succeeded the accept may be marked exactly while the lease lasts. */
  lemma AcceptOpens(t: Table, k: Ticket, first: Pass, second: Pass)
    requires FirstSucceeds(t, k, first)
    ensures var q, pinned := PassTx(t, k, RequestJoin, first, None), Some((first.admission.value, first.identity.value));
            && (Admits(q, k, AcceptJoin, second, pinned) <==> SecondMarks(t, k, first, second))
            && q.exec.state == RequestSucceeded && q.exec.requestReach && HasSuccess(q.journal, k.epoch, RequestJoin)
  {
    var m := MarkedTx(t, k, RequestJoin, first);
    RepliedEnds(m, k, RequestJoin, first);
    RepliedKeeps(m, k, RequestJoin, first);
  }

  /** The reply to the accept is there in time. */
  ghost predicate SecondCloses(t: Table, k: Ticket, first: Pass, second: Pass) {
    SecondLeaves(t, k, first, second)
    && Closable(MarkedTx(PassTx(t, k, RequestJoin, first, None), k, AcceptJoin, second), k, AcceptJoin, second)
  }

  // ----- the handler

  /** The checks of one pass up to and including its durable marker. */
  method AdmitAndMark(x: JoinExecution, k: Ticket, stage: Stage, pass: Pass, pinned: Option<(Admission, Identity)>)
    returns (admitted: Option<(Admission, Identity)>)
    requires !stage.Reconcile?
    modifies x
    ensures admitted == if Admits(old(x.View()), k, stage, pass, pinned) then Some((pass.admission.value, pass.identity.value)) else None
    ensures admitted.Some? ==> (pinned.Some? ==> admitted == pinned) && HasStart(x.journal, k.epoch, stage)
    ensures x.View() == if LetsThrough(pass, pinned) then MarkedTx(old(x.View()), k, stage, pass) else old(x.View())
  {
    if !pass.gate || pass.admission.None? { return None; }
    if pinned.Some? && pass.admission.value != pinned.value.0 { return None; }
    if pass.identity.None? { return None; }
    if pinned.Some? && pass.identity.value != pinned.value.1 { return None; }
    if !pass.route || !pass.gateAgain { return None; }
    if pass.recheck != pass.admission { return None; }
    ghost var before := x.View();
    x.now := x.now + pass.checking;
    assert x.View() == Later(before, pass.checking);
    var marked := x.Mark(k, stage, pass.guard);
    if !marked.Done? { return None; }
    ghost var last := |x.journal| - 1;
    assert x.journal[last] in x.journal;
    return Some((pass.admission.value, pass.identity.value));
  }

  /** The final recheck, the POST and its finish; time passes while the reply is awaited. */
  method SendAndFinish(x: JoinExecution, k: Ticket, stage: Stage, pass: Pass) returns (sent: bool, succeeded: bool)
    requires !stage.Reconcile? && x.exec.state == StartedState(stage)
    modifies x
    ensures sent <==> Live(old(x.View())) && pass.stillAdmitted
    ensures x.View() == if sent then RepliedTx(old(x.View()), k, stage, pass) else old(x.View())
    ensures succeeded <==> sent && pass.outcome.Succeeded? && Closable(old(x.View()), k, stage, pass)
    ensures old(x.journal) <= x.journal && x.exec == old(x.exec).(state := x.exec.state, lease := x.exec.lease)
    ensures sent && Closable(old(x.View()), k, stage, pass) ==> Ended(x.journal, k, stage, pass)
    ensures succeeded ==> HasSuccess(x.journal, k.epoch, stage) && (stage.RequestJoin? ==> x.exec.state == RequestSucceeded)
  {
    if x.exec.lease.None? || x.exec.lease.value.expires <= x.now || !pass.stillAdmitted { return false, false; }
    ghost var before := x.View();
    RepliedKeeps(before, k, stage, pass);
    if Closable(before, k, stage, pass) { RepliedEnds(before, k, stage, pass); }
    x.now := x.now + pass.delay;
    assert x.View() == Waited(before, pass);
    var finished, start := x.Finish(k, stage, pass.outcome, pass.mayReach, pass.finishLegal);
    assert finished.Done? ==> Closes(before, k, stage, pass, start);
    if !finished.Done? || pass.outcome != Succeeded { return true, false; }
    return true, true;
  }

  /** One pass of the loop. It ends the run unless its stage was sent and succeeded. */
  method RunPass(x: JoinExecution, k: Ticket, stage: Stage, pass: Pass, pinned: Option<(Admission, Identity)>)
    returns (admitted: Option<(Admission, Identity)>, sent: bool, end: Option<End>)
    requires !stage.Reconcile?
    modifies x
    ensures x.View() == PassTx(old(x.View()), k, stage, pass, pinned)
    ensures admitted == if Admits(old(x.View()), k, stage, pass, pinned) then Some((pass.admission.value, pass.identity.value)) else None
    ensures sent <==> Sends(old(x.View()), k, stage, pass, pinned)
    ensures end == Some(Refused) <==> admitted.None?
    ensures end == Some(GateLost) <==> admitted.Some? && !pass.gateLast
    ensures end.None? <==> sent && pass.outcome.Succeeded? && Closable(MarkedTx(old(x.View()), k, stage, pass), k, stage, pass)
  {
    admitted := AdmitAndMark(x, k, stage, pass, pinned);
    sent := false;
    if admitted.None? { end := Some(Refused); return; }
    if !pass.gateLast { end := Some(GateLost); return; }
    var succeeded;
    sent, succeeded := SendAndFinish(x, k, stage, pass);
    end := if succeeded then None else Some(ReconcileNeeded);
  }

  /** The POSTs of a run: each carries the admission and identity of the first pass. */
  ghost function Posted(t: Table, k: Ticket, first: Pass, second: Pass): seq<Post> {
    if !FirstLeaves(t, k, first) then []
    else
      [Post(RequestJoin, first.admission.value, first.identity.value)]
      + (if SecondLeaves(t, k, first, second) then [Post(AcceptJoin, first.admission.value, first.identity.value)] else [])
  }

  /** What holds of every run, told from the old row and the world. */
  lemma DispatchKeeps(t: Table, k: Ticket, first: Pass, second: Pass)
    ensures var q, wire := DispatchTx(t, k, first, second), Posted(t, k, first, second);
            && t.journal <= q.journal && Marked(q.journal, k, wire) && q.exec.epoch == t.exec.epoch
            && q.exec.requests <= t.exec.requests + 1 && q.exec.accepts <= t.exec.accepts + 1
            && (Admits(t, k, RequestJoin, first, None) ==> q.exec.requestReach)
            && (!Admits(t, k, RequestJoin, first, None) ==> q == t.(now := q.now))
            && (FirstLeaves(t, k, first) && Closable(MarkedTx(t, k, RequestJoin, first), k, RequestJoin, first) ==>
                  Ended(q.journal, k, RequestJoin, first))
            && (SecondCloses(t, k, first, second) ==> Ended(q.journal, k, AcceptJoin, second))
            && (FirstSucceeds(t, k, first) && !SecondMarks(t, k, first, second) ==> q.exec.state == RequestSucceeded)
  {
    PassKeeps(t, k, RequestJoin, first, None);
    if FirstSucceeds(t, k, first) {
      var behind, pinned := PassTx(t, k, RequestJoin, first, None), Some((first.admission.value, first.identity.value));
      AcceptOpens(t, k, first, second);
      PassKeeps(behind, k, AcceptJoin, second, pinned);
      JournalKept(behind.journal, DispatchTx(t, k, first, second).journal, k.epoch, RequestJoin);
      EndedKept(behind.journal, DispatchTx(t, k, first, second).journal, k, RequestJoin, first);
    }
  }

  lemma EndedKept(before: seq<Entry>, after: seq<Entry>, k: Ticket, stage: Stage, pass: Pass)
    requires before <= after && Ended(before, k, stage, pass)
    ensures Ended(after, k, stage, pass)
  {
    assert forall e :: e in before ==> e in after;
  }

  /** The two-stage loop as it goes through the world. */
  method Loop(x: JoinExecution, k: Ticket, passes: map<Stage, Pass>) returns (wire: seq<Post>, end: End)
    requires RequestJoin in passes && AcceptJoin in passes
    modifies x
    ensures x.View() == DispatchTx(old(x.View()), k, passes[RequestJoin], passes[AcceptJoin])
    ensures wire == Posted(old(x.View()), k, passes[RequestJoin], passes[AcceptJoin])
    ensures end.Refused? <==>
              || !Admits(old(x.View()), k, RequestJoin, passes[RequestJoin], None)
              || (FirstSucceeds(old(x.View()), k, passes[RequestJoin])
                  && !SecondMarks(old(x.View()), k, passes[RequestJoin], passes[AcceptJoin]))
    ensures end.GateLost? <==>
              || (Admits(old(x.View()), k, RequestJoin, passes[RequestJoin], None) && !passes[RequestJoin].gateLast)
              || (SecondMarks(old(x.View()), k, passes[RequestJoin], passes[AcceptJoin]) && !passes[AcceptJoin].gateLast)
  {
    wire := [];
    ghost var t := x.View();
    var pinned: Option<(Admission, Identity)> := None;
    for n := 0 to 2
      invariant n == 0 ==> x.View() == t && wire == [] && pinned.None?
      invariant n > 0 ==>
                  && FirstSucceeds(t, k, passes[RequestJoin])
                  && pinned == Some((passes[RequestJoin].admission.value, passes[RequestJoin].identity.value))
      invariant n == 1 ==>
                  && x.View() == PassTx(t, k, RequestJoin, passes[RequestJoin], None)
                  && wire == [Post(RequestJoin, pinned.value.0, pinned.value.1)]
      invariant n == 2 ==>
                  && x.View() == DispatchTx(t, k, passes[RequestJoin], passes[AcceptJoin])
                  && wire == Posted(t, k, passes[RequestJoin], passes[AcceptJoin]) && |wire| == 2
    {
      if n == 1 { AcceptOpens(t, k, passes[RequestJoin], passes[AcceptJoin]); }
      var stage := if n == 0 then RequestJoin else AcceptJoin;
      var pass := passes[stage];
      var admitted, sent, ended := RunPass(x, k, stage, pass, pinned);
      if admitted.Some? { pinned := admitted; }
      if sent { wire := wire + [Post(stage, pinned.value.0, pinned.value.1)]; }
      if ended.Some? { return wire, ended.value; }
    }
    return wire, ReconcileNeeded;
  }

  /**
   The run. Whatever the world does: at most a request and then an accept, both under the admission
   and identity of the first pass; each with its marker in the journal, and with its outcome as soon
   as its reply could close it; the accept only after the request finished succeeded. A refusal
   leaves no stage half done, and every other end is marked.
   */
  method Dispatch(x: JoinExecution, k: Ticket, passes: map<Stage, Pass>) returns (wire: seq<Post>, end: End)
    requires RequestJoin in passes && AcceptJoin in passes
    modifies x
    ensures |wire| <= 2 && (|wire| > 0 ==> wire[0].stage == RequestJoin) && (|wire| == 2 ==> wire[1].stage == AcceptJoin)
    ensures |wire| > 0 <==> FirstLeaves(old(x.View()), k, passes[RequestJoin])
    ensures |wire| > 0 ==> Some(wire[0].admission) == passes[RequestJoin].admission && Some(wire[0].identity) == passes[RequestJoin].identity
    ensures |wire| == 2 ==> wire[0].admission == wire[1].admission && wire[0].identity == wire[1].identity
    ensures |wire| == 2 <==> SecondLeaves(old(x.View()), k, passes[RequestJoin], passes[AcceptJoin])
    ensures |wire| > 0 ==>
              && old(x.exec.state) == Ready && old(x.exec.epoch) == k.epoch && !k.reconcileOnly && old(x.exec.lease).Some?
              && old(x.exec.lease).value.worker == k.worker && old(x.exec.lease).value.expires > old(x.now) + passes[RequestJoin].checking
    ensures Marked(x.journal, k, wire) && old(x.journal) <= x.journal
    ensures |wire| > 0 && Closable(MarkedTx(old(x.View()), k, RequestJoin, passes[RequestJoin]), k, RequestJoin, passes[RequestJoin]) ==>
              Ended(x.journal, k, RequestJoin, passes[RequestJoin])
    ensures SecondCloses(old(x.View()), k, passes[RequestJoin], passes[AcceptJoin]) ==> Ended(x.journal, k, AcceptJoin, passes[AcceptJoin])
    ensures end.Refused? <==>
              || !Admits(old(x.View()), k, RequestJoin, passes[RequestJoin], None)
              || (FirstSucceeds(old(x.View()), k, passes[RequestJoin])
                  && !SecondMarks(old(x.View()), k, passes[RequestJoin], passes[AcceptJoin]))
    ensures end.GateLost? <==>
              || (Admits(old(x.View()), k, RequestJoin, passes[RequestJoin], None) && !passes[RequestJoin].gateLast)
              || (SecondMarks(old(x.View()), k, passes[RequestJoin], passes[AcceptJoin]) && !passes[AcceptJoin].gateLast)
    ensures end.Refused? ==> if wire == [] then x.View() == old(x.View()).(now := x.now) else x.exec.state == RequestSucceeded
    ensures !end.Refused? ==> x.exec.requestReach
    ensures x.exec.requests <= old(x.exec.requests) + 1 && x.exec.accepts <= old(x.exec.accepts) + 1
    ensures x.exec.epoch == old(x.exec.epoch)
    ensures x.View() == DispatchTx(old(x.View()), k, passes[RequestJoin], passes[AcceptJoin])
  {
    DispatchKeeps(x.View(), k, passes[RequestJoin], passes[AcceptJoin]);
    wire, end := Loop(x, k, passes);
  }
}
