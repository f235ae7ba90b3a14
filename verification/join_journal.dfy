/**
 The durable execution row and append-only journal of one candidate join
 (internal/runtime/rotation_join_execution.go and the evidence write of
 rotation_join_membership.go): a lease, two irreversible stages and numbered
 reconciliations. Every transaction names one slot, so one slot is the model.

 A worker draws one lease token, fresh per claim; its number stands for owner and token.
 */
module JoinJournal {
  import opened Common

  datatype Stage = RequestJoin | AcceptJoin | Reconcile
  datatype Outcome = Succeeded | Failed | Uncertain
  datatype ExecState = Ready | RequestStarted | RequestSucceeded | AcceptStarted | ReconcileRequired | Blocked

  /** A journal row; its position is its identity. */
  datatype Entry =
    | Started(epoch: nat, stage: Stage, attempt: nat, mayReach: bool)
    | Finished(epoch: nat, stage: Stage, attempt: nat, start: nat, mayReach: bool, outcome: Outcome)

  datatype Lease = Lease(worker: nat, expires: int)

  datatype Exec = Exec(
    state: ExecState, lease: Option<Lease>, epoch: nat,
    requests: nat, accepts: nat, requestReach: bool, acceptReach: bool)

  datatype Evidence = Evidence(attempt: nat, epoch: nat, worker: nat, digest: nat)

  datatype Table = Table(now: int, exec: Exec, journal: seq<Entry>, evidence: seq<Evidence>)

  datatype Ticket = Ticket(worker: nat, epoch: nat, reconcileOnly: bool)

  // ----- reading the journal

  function Count(journal: seq<Entry>, stage: Stage): nat {
    if journal == [] then 0
    else Count(journal[..|journal| - 1], stage) +
         (if journal[|journal| - 1].Started? && journal[|journal| - 1].stage == stage then 1 else 0)
  }

  function MaxAttempt(journal: seq<Entry>, stage: Stage): nat {
    if journal == [] then 0
    else
      var rest := MaxAttempt(journal[..|journal| - 1], stage);
      var last := journal[|journal| - 1];
      if last.stage == stage && last.attempt > rest then last.attempt else rest
  }

  predicate Closed(journal: seq<Entry>, start: nat) {
    exists f | f in journal :: f.Finished? && f.start == start
  }

  predicate IsOpenStart(journal: seq<Entry>, i: nat, epoch: nat, stage: Stage) {
    i < |journal| && journal[i].Started? && journal[i].epoch == epoch && journal[i].stage == stage && !Closed(journal, i)
  }

  /** The first start at or behind `n` that nothing has closed. */
  function OpenStartFrom(journal: seq<Entry>, epoch: nat, stage: Stage, n: nat): (start: Option<nat>)
    requires n <= |journal|
    ensures start.Some? ==> n <= start.value && IsOpenStart(journal, start.value, epoch, stage)
    ensures forall i: nat :: n <= i && IsOpenStart(journal, i, epoch, stage) ==> start.Some? && start.value <= i
    decreases |journal| - n
  {
    if n == |journal| then None
    else if IsOpenStart(journal, n, epoch, stage) then Some(n)
    else OpenStartFrom(journal, epoch, stage, n + 1)
  }

  function OpenStart(journal: seq<Entry>, epoch: nat, stage: Stage): Option<nat> { OpenStartFrom(journal, epoch, stage, 0) }

  /** Whether the journal has a start (or a successful finish) of a stage under an epoch. */
  predicate HasStart(journal: seq<Entry>, epoch: nat, stage: Stage) {
    exists e | e in journal :: e.Started? && e.epoch == epoch && e.stage == stage && (stage != Reconcile ==> e.mayReach)
  }

  predicate HasSuccess(journal: seq<Entry>, epoch: nat, stage: Stage) {
    exists e | e in journal :: e.Finished? && e.epoch == epoch && e.stage == stage && e.outcome == Succeeded
  }

  // ----- transactions

  predicate Live(t: Table) { t.exec.lease.Some? && t.exec.lease.value.expires > t.now }

  predicate Marked(x: Exec) { x.requestReach || x.acceptReach }

  predicate Reconciling(x: Exec) { Marked(x) || x.state == ReconcileRequired }

  predicate MayClaim(t: Table, duration: int, legal: bool) {
    duration > 0 && legal && !Live(t) && (t.exec.state == Blocked ==> Reconciling(t.exec))
  }

  function ClaimTx(t: Table, worker: nat, duration: int, limit: int, legal: bool): Table {
    if !MayClaim(t, duration, legal) then t
    else
      var x := t.exec.(state := if Reconciling(t.exec) then ReconcileRequired else Ready,
                       lease := Some(Lease(worker, Min(t.now + duration, limit))), epoch := t.exec.epoch + 1);
      t.(exec := x,
         journal := if Reconciling(t.exec)
                    then t.journal + [Started(x.epoch, Reconcile, MaxAttempt(t.journal, Reconcile) + 1, false)] else t.journal)
  }

  predicate Current(t: Table, k: Ticket, legal: bool) {
    legal && Live(t) && t.exec.lease.value.worker == k.worker && t.exec.epoch == k.epoch
  }

  predicate MayMark(t: Table, k: Ticket, stage: Stage, admitted: bool) {
    && !stage.Reconcile? && !k.reconcileOnly && Current(t, k, admitted)
    && t.exec.state == (if stage.RequestJoin? then Ready else RequestSucceeded)
  }

  /** The may-have-reached marker is durable before anything can be sent. */
  function MarkTx(t: Table, k: Ticket, stage: Stage, admitted: bool): Table {
    if !MayMark(t, k, stage, admitted) then t
    else if stage.RequestJoin? then
      t.(exec := t.exec.(state := RequestStarted, requests := t.exec.requests + 1, requestReach := true),
         journal := t.journal + [Started(k.epoch, RequestJoin, t.exec.requests + 1, true)])
    else
      t.(exec := t.exec.(state := AcceptStarted, accepts := t.exec.accepts + 1, acceptReach := true),
         journal := t.journal + [Started(k.epoch, AcceptJoin, t.exec.accepts + 1, true)])
  }

  function StartedState(stage: Stage): ExecState {
    match stage case RequestJoin => RequestStarted case AcceptJoin => AcceptStarted case Reconcile => ReconcileRequired
  }

  predicate MayFinish(t: Table, k: Ticket, stage: Stage, start: nat, mayReach: bool, legal: bool) {
    && (stage.Reconcile? ==> !mayReach) && Current(t, k, legal)
    && t.exec.state == StartedState(stage) && IsOpenStart(t.journal, start, k.epoch, stage)
  }

  /** Closes the open start; only a successful request keeps the lease and opens the accept. */
  function FinishTx(t: Table, k: Ticket, stage: Stage, start: nat, outcome: Outcome, mayReach: bool, legal: bool): Table {
    if !MayFinish(t, k, stage, start, mayReach, legal) then t
    else
      var kept := stage.RequestJoin? && outcome.Succeeded?;
      t.(exec := t.exec.(state := if kept then RequestSucceeded else ReconcileRequired, lease := if kept then t.exec.lease else None),
         journal := t.journal + [Finished(k.epoch, stage, t.journal[start].attempt, start, mayReach, outcome)])
  }

  /** The finish of whatever start is open. */
  function ClosedTx(t: Table, k: Ticket, stage: Stage, outcome: Outcome, mayReach: bool, legal: bool): Table {
    var start := OpenStart(t.journal, k.epoch, stage);
    if start.None? then t else FinishTx(t, k, stage, start.value, outcome, mayReach, legal)
  }

  predicate MayRecord(t: Table, k: Ticket, start: nat, digest: nat, legal: bool) {
    && MayFinish(t, k, Reconcile, start, false, legal)
    && (forall e | e in t.evidence :: !(e.worker == k.worker && e.epoch == k.epoch))
    && (forall e | e in t.evidence :: e.attempt == t.journal[start].attempt ==> e.digest == digest)
  }

  /** Evidence for the open reconciliation, inserted unless the attempt already has a row. */
  function RecordTx(t: Table, k: Ticket, start: nat, digest: nat, outcome: Outcome, legal: bool): Table {
    if !MayRecord(t, k, start, digest, legal) then t
    else
      var attempt := t.journal[start].attempt;
      FinishTx(t, k, Reconcile, start, outcome, false, legal).(
        evidence := if exists e | e in t.evidence :: e.attempt == attempt then t.evidence
                    else t.evidence + [Evidence(attempt, k.epoch, k.worker, digest)])
  }

  /** The evidence of whatever reconciliation is open. */
  function RecordedTx(t: Table, k: Ticket, digest: nat, outcome: Outcome, legal: bool): Table {
    var start := OpenStart(t.journal, k.epoch, Reconcile);
    if start.None? then t else RecordTx(t, k, start.value, digest, outcome, legal)
  }

  // ----- the row and its journal

  datatype Reply = Done(ticket: Ticket) | Busy | Stale | BadTransition

  class JoinExecution {
    var now: int
    var exec: Exec
    var journal: seq<Entry>
    var evidence: seq<Evidence>

    ghost function View(): Table
      reads this
    {
      Table(now, exec, journal, evidence)
    }

    constructor (now: int)
      ensures View() == Table(now, Exec(Ready, None, 0, 0, 0, false, false), [], [])
    {
      this.now := now;
      exec, journal, evidence := Exec(Ready, None, 0, 0, 0, false, false), [], [];
    }

    method LatestAttempt(stage: Stage) returns (max: nat)
      ensures max == MaxAttempt(journal, stage)
    {
      max := 0;
      for n := 0 to |journal|
        invariant max == MaxAttempt(journal[..n], stage)
      {
        assert journal[..n + 1][..n] == journal[..n];
        if journal[n].stage == stage && journal[n].attempt > max { max := journal[n].attempt; }
      }
      assert journal[..|journal|] == journal;
    }

    method Claim(worker: nat, duration: int, limit: int, legal: bool) returns (r: Reply)
      modifies this
      ensures View() == ClaimTx(old(View()), worker, duration, limit, legal)
      ensures r.Done? <==> MayClaim(old(View()), duration, legal)
      ensures r.Done? ==> r.ticket == Ticket(worker, exec.epoch, Reconciling(old(exec)))
      ensures r.Busy? <==> duration > 0 && legal && Live(old(View()))
      ensures r.Stale? <==> duration > 0 && !legal
    {
      if duration <= 0 { return BadTransition; }
      if !legal { return Stale; }
      if exec.lease.Some? && exec.lease.value.expires > now { return Busy; }
      var reconcileOnly := exec.requestReach || exec.acceptReach || exec.state == ReconcileRequired;
      if exec.state == Blocked && !reconcileOnly { return BadTransition; }
      exec := exec.(lease := Some(Lease(worker, Min(now + duration, limit))), epoch := exec.epoch + 1);
      if reconcileOnly {
        exec := exec.(state := ReconcileRequired);
        var latest := LatestAttempt(Reconcile);
        journal := journal + [Started(exec.epoch, Reconcile, latest + 1, false)];
      } else {
        exec := exec.(state := Ready);
      }
      return Done(Ticket(worker, exec.epoch, reconcileOnly));
    }

    method Mark(k: Ticket, stage: Stage, admitted: bool) returns (r: Reply)
      modifies this
      ensures View() == MarkTx(old(View()), k, stage, admitted)
      ensures r.Done? <==> MayMark(old(View()), k, stage, admitted)
      ensures r.Done? ==> r.ticket == k
      ensures r.BadTransition? <==>
                || stage.Reconcile?
                || (Current(old(View()), k, true)
                    && (k.reconcileOnly || old(exec).state != (if stage.RequestJoin? then Ready else RequestSucceeded)))
      ensures !r.Busy?
    {
      if stage == Reconcile { return BadTransition; }
      if exec.lease.None? || exec.lease.value.expires <= now || exec.lease.value.worker != k.worker || exec.epoch != k.epoch { return Stale; }
      if k.reconcileOnly { return BadTransition; }
      if stage == RequestJoin {
        if exec.state != Ready { return BadTransition; }
        if !admitted { return Stale; }
        exec := exec.(state := RequestStarted, requests := exec.requests + 1, requestReach := true);
        journal := journal + [Started(exec.epoch, RequestJoin, exec.requests, true)];
      } else {
        if exec.state != RequestSucceeded { return BadTransition; }
        if !admitted { return Stale; }
        exec := exec.(state := AcceptStarted, accepts := exec.accepts + 1, acceptReach := true);
        journal := journal + [Started(exec.epoch, AcceptJoin, exec.accepts, true)];
      }
      return Done(k);
    }

    /** The start event of this lease and stage that nothing has closed. */
    method FindOpenStart(epoch: nat, stage: Stage) returns (start: Option<nat>)
      ensures start.Some? ==> IsOpenStart(journal, start.value, epoch, stage)
      ensures start.None? ==> forall i: nat :: !IsOpenStart(journal, i, epoch, stage)
      ensures start == OpenStart(journal, epoch, stage)
    {
      for n := 0 to |journal|
        invariant forall i: nat :: i < n ==> !IsOpenStart(journal, i, epoch, stage)
        invariant OpenStart(journal, epoch, stage) == OpenStartFrom(journal, epoch, stage, n)
      {
        if journal[n].Started? && journal[n].epoch == epoch && journal[n].stage == stage && !Closed(journal, n) { return Some(n); }
      }
      return None;
    }

    method Finish(k: Ticket, stage: Stage, outcome: Outcome, mayReach: bool, legal: bool) returns (r: Reply, start: nat)
      modifies this
      ensures r.Done? ==> MayFinish(old(View()), k, stage, start, mayReach, legal)
                          && View() == FinishTx(old(View()), k, stage, start, outcome, mayReach, legal)
      ensures !r.Done? ==> View() == old(View()) && forall i: nat :: !MayFinish(old(View()), k, stage, i, mayReach, legal)
      ensures View() == ClosedTx(old(View()), k, stage, outcome, mayReach, legal)
      ensures r.Done? ==> r.ticket == k
      ensures r.Stale? <==> (stage.Reconcile? ==> !mayReach) && !Current(old(View()), k, legal)
      ensures !r.Busy?
    {
      start := 0;
      if stage == Reconcile && mayReach { r := BadTransition; return; }
      if !legal || exec.lease.None? || exec.lease.value.expires <= now || exec.lease.value.worker != k.worker || exec.epoch != k.epoch {
        r := Stale;
        return;
      }
      if exec.state != StartedState(stage) { r := BadTransition; return; }
      var found := FindOpenStart(k.epoch, stage);
      if found.None? { r := BadTransition; return; }
      start := found.value;
      journal := journal + [Finished(k.epoch, stage, journal[start].attempt, start, mayReach, outcome)];
      if stage == RequestJoin && outcome == Succeeded {
        exec := exec.(state := RequestSucceeded);
      } else {
        exec := exec.(state := ReconcileRequired, lease := None);
      }
      r := Done(k);
    }

    method Record(k: Ticket, digest: nat, outcome: Outcome, legal: bool) returns (r: Reply, start: nat)
      modifies this
      ensures r.Done? ==> View() == old(View())
                          || (MayRecord(old(View()), k, start, digest, legal)
                              && View() == RecordTx(old(View()), k, start, digest, outcome, legal))
      ensures View() == RecordedTx(old(View()), k, digest, outcome, legal)
      ensures r.Done? && View() == old(View()) ==>
                exists e :: e in old(evidence) && e.worker == k.worker && e.epoch == k.epoch && e.digest == digest
      ensures r.Done? && View() != old(View()) ==>
                && start < |old(journal)|
                && (forall e :: e in old(evidence) ==> !(e.worker == k.worker && e.epoch == k.epoch))
                && (forall e :: e in old(evidence) && e.attempt == old(journal)[start].attempt ==> e.digest == digest)
                && (exists e :: e in evidence && e.attempt == old(journal)[start].attempt && e.digest == digest)
                && evidence in {old(evidence), old(evidence) + [Evidence(old(journal)[start].attempt, k.epoch, k.worker, digest)]}
                && journal == old(journal) + [Finished(k.epoch, Reconcile, old(journal)[start].attempt, start, false, outcome)]
      ensures r.Stale? <==>
                || !legal
                || ((forall e :: e in old(evidence) ==> !(e.worker == k.worker && e.epoch == k.epoch == old(exec).epoch))
                    && forall i: nat :: !MayFinish(old(View()), k, Reconcile, i, false, legal))
      ensures !r.Busy?
      ensures !r.Done? ==> View() == old(View())
      ensures !r.Done? ==>
                || (forall i: nat :: !MayFinish(old(View()), k, Reconcile, i, false, legal))
                || (exists e :: e in old(evidence) && e.worker == k.worker && e.epoch == k.epoch && e.digest != digest)
                || (MayFinish(old(View()), k, Reconcile, start, false, legal)
                    && exists e :: e in old(evidence) && e.attempt == old(journal)[start].attempt && e.digest != digest)
    {
      start := 0;
      if !legal { r := Stale; return; }
      // A replay of the same committed attempt only observes.
      if e :| e in evidence && e.worker == k.worker && e.epoch == k.epoch == exec.epoch {
        r := if e.digest == digest then Done(k) else BadTransition;
        return;
      }
      if exec.lease.None? || exec.lease.value.expires <= now || exec.lease.value.worker != k.worker || exec.epoch != k.epoch
         || exec.state != ReconcileRequired {
        r := Stale;
        return;
      }
      var found := FindOpenStart(k.epoch, Reconcile);
      if found.None? { r := Stale; return; }
      start := found.value;
      assert MayFinish(View(), k, Reconcile, start, false, legal);
      var attempt := journal[start].attempt;
      if exists e | e in evidence :: e.attempt == attempt {
        if exists e | e in evidence :: e.attempt == attempt && e.digest != digest { r := BadTransition; return; }
      } else {
        evidence := evidence + [Evidence(attempt, k.epoch, k.worker, digest)];
      }
      journal := journal + [Finished(k.epoch, Reconcile, attempt, start, false, outcome)];
      exec := exec.(state := ReconcileRequired, lease := None);
      r := Done(k);
    }
  }
}
