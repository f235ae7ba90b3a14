/**
 Every interleaving of join dispatchers and membership reconcilers of one slot
 (dispatchRotationCandidateJoin, reconcileRotationJoinMembership), with lost
 replies, crashes and expiring leases.
 */
module JoinProtocol {
  import opened Common
  import opened JoinJournal

  /** Position of a worker: which stage it is about to mark, has marked, may send, or has sent. */
  datatype Pc = Waiting | Idle(stage: Stage) | Marked(stage: Stage) | Admitted(stage: Stage) | Sent(stage: Stage) | Finished

  datatype Worker = Worker(pc: Pc, epoch: nat, reconcileOnly: bool)

  /** One POST on the wire, and the length of the journal at that moment. */
  datatype Post = Post(stage: Stage, epoch: nat, worker: nat, at: nat)

  datatype State = State(table: Table, workers: map<nat, Worker>, posts: seq<Post>)

  datatype Event =
    | Tick(d: nat)
    | Spawn(worker: nat)
    | Claim(worker: nat, duration: int, limit: int, legal: bool)
    | Mark(worker: nat, admitted: bool)
    | Admit(worker: nat, legal: bool)
    | Dispatch(worker: nat)
    | Finish(worker: nat, start: nat, outcome: Outcome, mayReach: bool, legal: bool)
    | Record(worker: nat, start: nat, digest: nat, outcome: Outcome, legal: bool)
    | Quit(worker: nat)

  function TicketOf(s: State, w: nat): Ticket
    requires w in s.workers
  {
    Ticket(w, s.workers[w].epoch, s.workers[w].reconcileOnly)
  }

  function Move(s: State, w: nat, pc: Pc): State
    requires w in s.workers
  {
    s.(workers := s.workers[w := s.workers[w].(pc := pc)])
  }

  function WorkerNext(s: State, e: Event): State
    requires !e.Tick? && !e.Spawn? && e.worker in s.workers
  {
    var w := e.worker;
    var k := s.workers[w];
    var t := TicketOf(s, w);
    match e
    case Claim(_, duration, limit, legal) =>
      if k.pc != Waiting || !MayClaim(s.table, duration, legal) then s
      else
        var r := Reconciling(s.table.exec);
        State(ClaimTx(s.table, w, duration, limit, legal),
              s.workers[w := Worker(Idle(if r then Reconcile else RequestJoin), s.table.exec.epoch + 1, r)], s.posts)
    case Mark(_, admitted) =>
      if k.pc.Idle? && MayMark(s.table, t, k.pc.stage, admitted)
      then Move(s, w, Marked(k.pc.stage)).(table := MarkTx(s.table, t, k.pc.stage, admitted)) else s
    case Admit(_, legal) =>
      if k.pc.Marked? && Current(s.table, t, legal) && s.table.exec.state == StartedState(k.pc.stage)
      then Move(s, w, Admitted(k.pc.stage)) else s
    case Dispatch(_) =>
      if k.pc.Admitted?
      then Move(s, w, Sent(k.pc.stage)).(posts := s.posts + [Post(k.pc.stage, k.epoch, w, |s.table.journal|)]) else s
    case Finish(_, start, outcome, mayReach, legal) =>
      var stage := if k.pc.Sent? then k.pc.stage else Reconcile;
      if !(k.pc.Sent? || k.pc == Idle(Reconcile)) || !MayFinish(s.table, t, stage, start, mayReach, legal) then s
      else Move(s, w, if stage.RequestJoin? && outcome.Succeeded? then Idle(AcceptJoin) else Pc.Finished).(
        table := FinishTx(s.table, t, stage, start, outcome, mayReach, legal))
    case Record(_, start, digest, outcome, legal) =>
      if k.pc == Idle(Reconcile) && MayRecord(s.table, t, start, digest, legal)
      then Move(s, w, Pc.Finished).(table := RecordTx(s.table, t, start, digest, outcome, legal)) else s
    case Quit(_) => Move(s, w, Pc.Finished)
  }

  function Next(s: State, e: Event): State {
    match e
    case Tick(d) => s.(table := s.table.(now := s.table.now + d))
    case Spawn(w) => if w in s.workers then s else s.(workers := s.workers[w := Worker(Waiting, 0, false)])
    case _ => if e.worker in s.workers then WorkerNext(s, e) else s
  }

  function Run(s: State, events: seq<Event>): State {
    if events == [] then s else Next(Run(s, events[..|events| - 1]), events[|events| - 1])
  }

  predicate Initial(s: State) {
    s.table == Table(s.table.now, Exec(Ready, None, 0, 0, 0, false, false), [], []) && s.workers == map[] && s.posts == []
  }

  // ----- the journal

  /** The event may follow the journal. */
  ghost predicate Fits(journal: seq<Entry>, e: Entry) {
    match e
    case Started(epoch, stage, attempt, mayReach) =>
      && attempt == Count(journal, stage) + 1 && (mayReach <==> stage != Reconcile)
      && (forall x :: x in journal ==> x.epoch <= epoch && !(x.Started? && x.epoch == epoch && x.stage == stage))
    case Finished(epoch, stage, attempt, start, _, _) =>
      && start < |journal| && journal[start].Started? && !Closed(journal, start)
      && journal[start].epoch == epoch && journal[start].stage == stage && journal[start].attempt == attempt
      && (forall x :: x in journal ==> x.epoch <= epoch)
  }

  ghost predicate WellFormed(journal: seq<Entry>) {
    journal == [] || (WellFormed(journal[..|journal| - 1]) && Fits(journal[..|journal| - 1], journal[|journal| - 1]))
  }

  lemma Append(journal: seq<Entry>, e: Entry)
    ensures (journal + [e])[..|journal + [e]| - 1] == journal
    ensures WellFormed(journal + [e]) <==> WellFormed(journal) && Fits(journal, e)
    ensures forall stage :: Count(journal + [e], stage) == Count(journal, stage) + (if e.Started? && e.stage == stage then 1 else 0)
    ensures forall epoch, stage :: HasStart(journal, epoch, stage) ==> HasStart(journal + [e], epoch, stage)
    ensures forall epoch, stage :: HasSuccess(journal, epoch, stage) ==> HasSuccess(journal + [e], epoch, stage)
    ensures e.Started? && (e.stage != Reconcile ==> e.mayReach) ==> HasStart(journal + [e], e.epoch, e.stage)
    ensures e.Finished? && e.outcome == Succeeded ==> HasSuccess(journal + [e], e.epoch, e.stage)
    ensures forall x :: x in journal + [e] <==> x in journal || x == e
  {
    assert (journal + [e])[..|journal + [e]| - 1] == journal;
  }

  /** In a well-formed journal the largest attempt of a stage is the number of its starts. */
  lemma {:induction false} AttemptsAreCounted(journal: seq<Entry>, stage: Stage)
    requires WellFormed(journal)
    ensures MaxAttempt(journal, stage) == Count(journal, stage)
    ensures forall i: nat :: i < |journal| && journal[i].stage == stage ==> 1 <= journal[i].attempt <= Count(journal, stage)
  {
    if journal != [] {
      AttemptsAreCounted(journal[..|journal| - 1], stage);
    }
  }

  /** Two starts of a stage that was started at most once are the same start. */
  lemma {:induction false} OnlyStart(journal: seq<Entry>, stage: Stage, a: nat, b: nat)
    requires WellFormed(journal) && Count(journal, stage) <= 1 && HasStart(journal, a, stage) && HasStart(journal, b, stage)
    ensures a == b
  {
    var init, last := journal[..|journal| - 1], journal[|journal| - 1];
    assert journal == init + [last];
    Append(init, last);
    if last.Started? && last.stage == stage {
      StartIsCounted(init, a, stage);
      StartIsCounted(init, b, stage);
    } else {
      OnlyStart(init, stage, a, b);
    }
  }

  lemma {:induction false} StartIsCounted(journal: seq<Entry>, epoch: nat, stage: Stage)
    ensures HasStart(journal, epoch, stage) ==> Count(journal, stage) >= 1
  {
    if journal != [] {
      StartIsCounted(journal[..|journal| - 1], epoch, stage);
      assert journal == journal[..|journal| - 1] + [journal[|journal| - 1]];
    }
  }

  // ----- invariants

  ghost predicate RowInv(t: Table) {
    var x := t.exec;
    && WellFormed(t.journal)
    && (forall e :: e in t.journal ==> e.epoch <= x.epoch)
    && x.requests == Count(t.journal, RequestJoin) <= 1 && x.accepts == Count(t.journal, AcceptJoin) <= x.requests
    && (x.requestReach <==> x.requests > 0) && (x.acceptReach <==> x.accepts > 0)
    && x.state != Blocked
    && (x.state == Ready ==> x.requests == 0 && t.journal == [])
    && (x.state != Ready ==> x.requests == 1)
    && (x.state == RequestStarted || x.state == RequestSucceeded ==> x.accepts == 0)
    && (x.state == AcceptStarted ==> x.accepts == 1)
    && (x.state == RequestSucceeded || x.state == AcceptStarted ==> HasSuccess(t.journal, x.epoch, RequestJoin))
    && (x.state == RequestStarted || x.state == RequestSucceeded ==> forall e :: e in t.journal ==> e.stage == RequestJoin)
    && (x.lease.None? ==> x.state == Ready || x.state == ReconcileRequired)
  }

  /** Past the send of a stage. */
  predicate PastPost(pc: Pc, stage: Stage) {
    match pc
    case Sent(x) => x == stage || (x == AcceptJoin && stage == RequestJoin)
    case Idle(x) => x == AcceptJoin && stage == RequestJoin
    case Marked(x) => x == AcceptJoin && stage == RequestJoin
    case Admitted(x) => x == AcceptJoin && stage == RequestJoin
    case Finished => true
    case Waiting => false
  }

  ghost predicate WorkerInv(s: State, w: nat) {
    w in s.workers &&
    var k := s.workers[w];
    && k.epoch <= s.table.exec.epoch
    && (k.pc.Idle? ==> k.epoch > 0)
    && (k.pc.Marked? || k.pc.Admitted? || k.pc.Sent? ==> HasStart(s.table.journal, k.epoch, k.pc.stage) && !k.pc.stage.Reconcile?)
    && ((k.pc.Marked? || k.pc.Admitted? || k.pc.Sent?) && k.pc.stage == AcceptJoin ==> HasSuccess(s.table.journal, k.epoch, RequestJoin))
    && (k.pc == Waiting ==> k.epoch == 0)
    && (k.pc != Waiting && !k.pc.Finished? ==> k.epoch > 0)
  }

  ghost predicate Apart(s: State, a: nat, b: nat) {
    a in s.workers && b in s.workers && a != b && s.workers[a].epoch == s.workers[b].epoch ==> s.workers[a].epoch == 0
  }

  ghost predicate PostInv(s: State, i: nat) {
    i < |s.posts| &&
    var p := s.posts[i];
    && p.worker in s.workers && p.epoch == s.workers[p.worker].epoch > 0 && PastPost(s.workers[p.worker].pc, p.stage)
    && !p.stage.Reconcile? && p.at <= |s.table.journal| && HasStart(s.table.journal[..p.at], p.epoch, p.stage)
    && (p.stage == AcceptJoin ==> HasSuccess(s.table.journal[..p.at], p.epoch, RequestJoin))
  }

  ghost predicate WorkersInv(s: State) { forall w {:trigger WorkerInv(s, w)} :: w in s.workers ==> WorkerInv(s, w) }

  ghost predicate PairsInv(s: State) { forall a, b {:trigger Apart(s, a, b)} :: Apart(s, a, b) }

  ghost predicate PostsInv(s: State) {
    && (forall i: nat {:trigger PostInv(s, i)} :: i < |s.posts| ==> PostInv(s, i))
    && (forall i: nat, j: nat :: i < j < |s.posts| ==> s.posts[i].worker != s.posts[j].worker || s.posts[i].stage != s.posts[j].stage)
  }

  ghost predicate Inv(s: State) { RowInv(s.table) && WorkersInv(s) && PairsInv(s) && PostsInv(s) }

  predicate ByWorker(e: Event) { !e.Tick? && !e.Spawn? }

  /** What a fitting event leaves of the journal's facts that the row depends on. */
  lemma AppendFitting(journal: seq<Entry>, e: Entry, epoch: nat)
    requires WellFormed(journal) && Fits(journal, e)
    ensures WellFormed(journal + [e])
    ensures Count(journal + [e], RequestJoin) == Count(journal, RequestJoin) + (if e.Started? && e.stage == RequestJoin then 1 else 0)
    ensures Count(journal + [e], AcceptJoin) == Count(journal, AcceptJoin) + (if e.Started? && e.stage == AcceptJoin then 1 else 0)
    ensures HasSuccess(journal, epoch, RequestJoin) ==> HasSuccess(journal + [e], epoch, RequestJoin)
    ensures forall x :: x in journal + [e] <==> x in journal || x == e
  {
    Append(journal, e);
  }

  lemma ReconcileFits(t: Table)
    requires RowInv(t)
    ensures Fits(t.journal, Started(t.exec.epoch + 1, Reconcile, MaxAttempt(t.journal, Reconcile) + 1, false))
  {
    AttemptsAreCounted(t.journal, Reconcile);
  }

  lemma ClaimKeepsRow(t: Table, worker: nat, duration: int, limit: int, legal: bool)
    requires RowInv(t)
    ensures RowInv(ClaimTx(t, worker, duration, limit, legal))
  {
    if MayClaim(t, duration, legal) && Reconciling(t.exec) {
      ReconcileFits(t);
      AppendFitting(t.journal, Started(t.exec.epoch + 1, Reconcile, MaxAttempt(t.journal, Reconcile) + 1, false), t.exec.epoch);
    }
  }

  lemma RequestMarkKeepsRow(t: Table, k: Ticket, admitted: bool)
    requires RowInv(t)
    ensures RowInv(MarkTx(t, k, RequestJoin, admitted))
  {
    Append([], Started(k.epoch, RequestJoin, 1, true));
  }

  lemma AcceptMarkKeepsRow(t: Table, k: Ticket, admitted: bool)
    requires RowInv(t)
    ensures RowInv(MarkTx(t, k, AcceptJoin, admitted))
  {
    if MayMark(t, k, AcceptJoin, admitted) {
      var e := Started(k.epoch, AcceptJoin, t.exec.accepts + 1, true);
      assert Fits(t.journal, e);
      AppendFitting(t.journal, e, t.exec.epoch);
    }
  }

  lemma {:induction false} MarkKeepsRow(t: Table, k: Ticket, stage: Stage, admitted: bool)
    requires RowInv(t)
    ensures RowInv(MarkTx(t, k, stage, admitted))
  {
    if stage == RequestJoin { RequestMarkKeepsRow(t, k, admitted); }
    if stage == AcceptJoin { AcceptMarkKeepsRow(t, k, admitted); }
  }

  lemma MarkIsRecorded(t: Table, k: Ticket, stage: Stage, admitted: bool)
    requires RowInv(t) && MayMark(t, k, stage, admitted)
    ensures HasStart(MarkTx(t, k, stage, admitted).journal, k.epoch, stage)
    ensures stage == AcceptJoin ==> HasSuccess(MarkTx(t, k, stage, admitted).journal, k.epoch, RequestJoin)
  {
    var t' := MarkTx(t, k, stage, admitted);
    Append(t.journal, t'.journal[|t.journal|]);
  }

  lemma FinishKeepsRow(t: Table, k: Ticket, stage: Stage, start: nat, outcome: Outcome, mayReach: bool, legal: bool)
    requires RowInv(t)
    ensures RowInv(FinishTx(t, k, stage, start, outcome, mayReach, legal))
  {
    if MayFinish(t, k, stage, start, mayReach, legal) {
      Append(t.journal, Entry.Finished(k.epoch, stage, t.journal[start].attempt, start, mayReach, outcome));
    }
  }

  lemma {:induction false} RowKept(s: State, e: Event)
    requires ByWorker(e) && RowInv(s.table) && WorkerInv(s, e.worker)
    ensures RowInv(WorkerNext(s, e).table)
  {
    var t := TicketOf(s, e.worker);
    var k := s.workers[e.worker];
    match e
    case Claim(w, duration, limit, legal) => ClaimKeepsRow(s.table, w, duration, limit, legal);
    case Mark(_, admitted) => if k.pc.Idle? { MarkKeepsRow(s.table, t, k.pc.stage, admitted); }
    case Finish(_, start, outcome, mayReach, legal) =>
      FinishKeepsRow(s.table, t, if k.pc.Sent? then k.pc.stage else Reconcile, start, outcome, mayReach, legal);
    case Record(_, start, _, outcome, legal) => FinishKeepsRow(s.table, t, Reconcile, start, outcome, false, legal);
    case _ =>
  }

  /** The journal only grows, and what it proves stays proved. */
  lemma JournalGrows(s: State, e: Event)
    requires ByWorker(e) && WorkerInv(s, e.worker)
    ensures var a, b := s.table.journal, WorkerNext(s, e).table.journal;
            && a <= b
            && (forall epoch, stage :: HasStart(a, epoch, stage) ==> HasStart(b, epoch, stage))
            && (forall epoch, stage :: HasSuccess(a, epoch, stage) ==> HasSuccess(b, epoch, stage))
    ensures s.table.exec.epoch <= WorkerNext(s, e).table.exec.epoch
  {
    var a, b := s.table.journal, WorkerNext(s, e).table.journal;
    if |b| > |a| {
      Append(a, b[|a|]);
      assert b == a + [b[|a|]];
    }
  }

  lemma KeepsSelf(s: State, e: Event)
    requires ByWorker(e) && RowInv(s.table) && WorkerInv(s, e.worker)
    ensures WorkerInv(WorkerNext(s, e), e.worker)
  {
    JournalGrows(s, e);
    var k := s.workers[e.worker];
    if e.Mark? && k.pc.Idle? && MayMark(s.table, TicketOf(s, e.worker), k.pc.stage, e.admitted) {
      MarkIsRecorded(s.table, TicketOf(s, e.worker), k.pc.stage, e.admitted);
    }
  }

  lemma KeepsOther(s: State, e: Event, x: nat)
    requires ByWorker(e) && WorkerInv(s, e.worker) && WorkerInv(s, x) && x != e.worker
    ensures WorkerInv(WorkerNext(s, e), x)
  {
    JournalGrows(s, e);
  }

  lemma KeepsApart(s: State, e: Event, a: nat, b: nat)
    requires ByWorker(e) && WorkerInv(s, e.worker) && Apart(s, a, b)
    requires a in s.workers ==> WorkerInv(s, a)
    requires b in s.workers ==> WorkerInv(s, b)
    ensures Apart(WorkerNext(s, e), a, b)
  {
  }

  lemma KeepsPost(s: State, e: Event, i: nat)
    requires ByWorker(e) && WorkerInv(s, e.worker) && PostInv(s, i)
    ensures PostInv(WorkerNext(s, e), i)
  {
    JournalGrows(s, e);
    var p := s.posts[i];
    assert WorkerNext(s, e).table.journal[..p.at] == s.table.journal[..p.at];
  }

  /** A new POST is its worker's first of that stage, and stands on the markers of its own epoch. */
  lemma PostIsNew(s: State, e: Event)
    requires Inv(s) && ByWorker(e) && e.worker in s.workers
    ensures var s' := WorkerNext(s, e);
            s'.posts != s.posts ==>
              && s.posts <= s'.posts && |s'.posts| == |s.posts| + 1 && PostInv(s', |s.posts|)
              && forall i: nat :: i < |s.posts| ==> s.posts[i].worker != e.worker || s.posts[i].stage != s'.posts[|s.posts|].stage
  {
    assert WorkerInv(s, e.worker);
    assert s.table.journal[..|s.table.journal|] == s.table.journal;
    forall i: nat | i < |s.posts| && WorkerNext(s, e).posts != s.posts
      ensures s.posts[i].worker != e.worker || s.posts[i].stage != WorkerNext(s, e).posts[|s.posts|].stage
    {
      assert PostInv(s, i);
    }
  }

  lemma WorkersKept(s: State, e: Event)
    requires Inv(s) && ByWorker(e) && e.worker in s.workers
    ensures WorkersInv(WorkerNext(s, e))
  {
    assert WorkerInv(s, e.worker);
    forall w | w in WorkerNext(s, e).workers ensures WorkerInv(WorkerNext(s, e), w) {
      assert WorkerInv(s, w);
      if w == e.worker { KeepsSelf(s, e); } else { KeepsOther(s, e, w); }
    }
  }

  lemma PairsKept(s: State, e: Event)
    requires Inv(s) && ByWorker(e) && e.worker in s.workers
    ensures PairsInv(WorkerNext(s, e))
  {
    assert WorkerInv(s, e.worker);
    forall a, b ensures Apart(WorkerNext(s, e), a, b) {
      assert Apart(s, a, b) && (a in s.workers ==> WorkerInv(s, a)) && (b in s.workers ==> WorkerInv(s, b));
      KeepsApart(s, e, a, b);
    }
  }

  lemma PostsKept(s: State, e: Event)
    requires Inv(s) && ByWorker(e) && e.worker in s.workers
    ensures PostsInv(WorkerNext(s, e))
  {
    assert WorkerInv(s, e.worker);
    PostIsNew(s, e);
    forall i: nat | i < |WorkerNext(s, e).posts| ensures PostInv(WorkerNext(s, e), i) {
      if i < |s.posts| { KeepsPost(s, e, i); }
    }
  }

  lemma WorkerStepPreserves(s: State, e: Event)
    requires Inv(s) && ByWorker(e) && e.worker in s.workers
    ensures Inv(WorkerNext(s, e))
  {
    assert WorkerInv(s, e.worker);
    RowKept(s, e);
    WorkersKept(s, e);
    PairsKept(s, e);
    PostsKept(s, e);
  }

  /** The clock and a new worker touch neither the row nor the posts. */
  lemma IdleStepPreserves(s: State, e: Event)
    requires Inv(s) && !ByWorker(e)
    ensures Inv(Next(s, e))
  {
    var s' := Next(s, e);
    forall w | w in s'.workers ensures WorkerInv(s', w) { assert w in s.workers ==> WorkerInv(s, w); }
    forall a, b ensures Apart(s', a, b) { assert Apart(s, a, b); }
    forall i: nat | i < |s'.posts| ensures PostInv(s', i) { assert PostInv(s, i); }
  }

  lemma StepPreserves(s: State, e: Event)
    requires Inv(s)
    ensures Inv(Next(s, e))
  {
    if !ByWorker(e) {
      IdleStepPreserves(s, e);
    } else if e.worker in s.workers {
      WorkerStepPreserves(s, e);
    }
  }

  lemma {:induction false} Reachable(s0: State, events: seq<Event>)
    requires Initial(s0)
    ensures Inv(Run(s0, events))
  {
    if events != [] {
      Reachable(s0, events[..|events| - 1]);
      StepPreserves(Run(s0, events[..|events| - 1]), events[|events| - 1]);
    }
  }

  // ----- results over whole runs

  /** At most one request POST and at most one accept POST are ever sent. */
  lemma {:induction false} AtMostOnePostPerStage(s0: State, events: seq<Event>)
    requires Initial(s0)
    ensures var posts := Run(s0, events).posts;
            && (forall i: nat :: i < |posts| ==> posts[i].stage != Reconcile)
            && (forall i: nat, j: nat :: i < j < |posts| ==> posts[i].stage != posts[j].stage)
  {
    Reachable(s0, events);
    var s := Run(s0, events);
    forall i: nat | i < |s.posts| ensures s.posts[i].stage != Reconcile { assert PostInv(s, i); }
    forall i: nat, j: nat | i < j < |s.posts| ensures s.posts[i].stage != s.posts[j].stage {
      assert PostInv(s, i) && PostInv(s, j) && Apart(s, s.posts[i].worker, s.posts[j].worker);
      if s.posts[i].stage == s.posts[j].stage {
        StartKept(s.table.journal, s.posts[i]);
        StartKept(s.table.journal, s.posts[j]);
        OnlyStart(s.table.journal, s.posts[i].stage, s.posts[i].epoch, s.posts[j].epoch);
      }
    }
  }

  lemma StartKept(journal: seq<Entry>, p: Post)
    requires p.at <= |journal| && HasStart(journal[..p.at], p.epoch, p.stage)
    ensures HasStart(journal, p.epoch, p.stage)
  {
    var e :| e in journal[..p.at] && e.Started? && e.epoch == p.epoch && e.stage == p.stage && (p.stage != Reconcile ==> e.mayReach);
    assert e in journal;
  }

  /**
   When a POST leaves, its may-have-reached marker is already in the journal, under the sender's
   epoch; and an accept leaves only if the request of that same epoch finished succeeded.
   */
  lemma {:induction false} PostFollowsMarker(s0: State, events: seq<Event>, i: nat)
    requires Initial(s0) && i < |Run(s0, events).posts|
    ensures var s := Run(s0, events); var p := s.posts[i];
            && p.at <= |s.table.journal| && HasStart(s.table.journal[..p.at], p.epoch, p.stage)
            && (p.stage == AcceptJoin ==> HasSuccess(s.table.journal[..p.at], p.epoch, RequestJoin))
  {
    Reachable(s0, events);
    assert PostInv(Run(s0, events), i);
  }

  /** At step `n` the sender looked once more: its unexpired lease was in the row, and the row in the stage it had marked. */
  ghost predicate RecheckedAt(s0: State, events: seq<Event>, n: nat, w: nat, stage: Stage)
    requires n < |events|
  {
    var s := Run(s0, events[..n]);
    var x := s.table.exec;
    && events[n] == Admit(w, true) && w in s.workers && s.workers[w].pc == Marked(stage)
    && x.lease.Some? && x.lease.value.worker == w && x.lease.value.expires > s.table.now && x.epoch == s.workers[w].epoch
    && x.state == (if stage.RequestJoin? then RequestStarted else if stage.AcceptJoin? then AcceptStarted else ReconcileRequired)
  }

  ghost predicate Rechecked(s0: State, events: seq<Event>, w: nat, stage: Stage) {
    exists n: nat :: n < |events| && RecheckedAt(s0, events, n, w, stage)
  }

  lemma RecheckedLonger(s0: State, events: seq<Event>, k: nat, w: nat, stage: Stage)
    requires k <= |events| && Rechecked(s0, events[..k], w, stage)
    ensures Rechecked(s0, events, w, stage)
  {
    var n: nat :| n < |events[..k]| && RecheckedAt(s0, events[..k], n, w, stage);
    assert events[..k][..n] == events[..n];
    assert RecheckedAt(s0, events, n, w, stage);
  }

  lemma RechecksHere(s: State, e: Event, w: nat)
    requires w in Next(s, e).workers && Next(s, e).workers[w].pc.Admitted?
    ensures var pc := Next(s, e).workers[w].pc;
            && w in s.workers
            && (s.workers[w].pc == pc
                || (e == Admit(w, true) && s.workers[w].pc == Marked(pc.stage) && Current(s.table, TicketOf(s, w), true)
                    && s.table.exec.state == StartedState(pc.stage)))
  {
  }

  lemma {:induction false} AdmittedWasRechecked(s0: State, events: seq<Event>, w: nat)
    requires Initial(s0) && w in Run(s0, events).workers && Run(s0, events).workers[w].pc.Admitted?
    ensures Rechecked(s0, events, w, Run(s0, events).workers[w].pc.stage)
  {
    var k, pc := |events| - 1, Run(s0, events).workers[w].pc;
    RechecksHere(Run(s0, events[..k]), events[k], w);
    if Run(s0, events[..k]).workers[w].pc == pc {
      AdmittedWasRechecked(s0, events[..k], w);
      RecheckedLonger(s0, events, k, w, pc.stage);
    } else {
      assert RecheckedAt(s0, events, k, w, pc.stage);
    }
  }

  lemma PostsHere(s: State, e: Event, i: nat)
    requires i < |Next(s, e).posts|
    ensures var p := Next(s, e).posts[i];
            if i < |s.posts| then p == s.posts[i] else p.worker in s.workers && s.workers[p.worker].pc == Admitted(p.stage)
  {
  }

  /** Behind its marker every POST had its sender's final recheck, under the unexpired lease. */
  lemma {:induction false} PostFollowsRecheck(s0: State, events: seq<Event>, i: nat)
    requires Initial(s0) && i < |Run(s0, events).posts|
    ensures Rechecked(s0, events, Run(s0, events).posts[i].worker, Run(s0, events).posts[i].stage)
  {
    var k, p := |events| - 1, Run(s0, events).posts[i];
    PostsHere(Run(s0, events[..k]), events[k], i);
    if i < |Run(s0, events[..k]).posts| {
      PostFollowsRecheck(s0, events[..k], i);
    } else {
      AdmittedWasRechecked(s0, events[..k], p.worker);
    }
    RecheckedLonger(s0, events, k, p.worker, p.stage);
  }

  /**
   The journal of every reachable state: each start is numbered by the starts of its stage before
   it; each finish closes one earlier start of the same epoch, stage and attempt, and no other
   finish closes it; the counters and flags of the row are what the journal says.
   */
  lemma {:induction false} JournalIsWellFormed(s0: State, events: seq<Event>)
    requires Initial(s0)
    ensures var t := Run(s0, events).table;
            && (forall i: nat :: i < |t.journal| && t.journal[i].Started? ==> t.journal[i].attempt == Count(t.journal[..i], t.journal[i].stage) + 1)
            && (forall i: nat :: i < |t.journal| && t.journal[i].Finished? ==> Closes(t.journal, i))
            && (forall i: nat, j: nat :: i < j < |t.journal| && t.journal[i].Finished? && t.journal[j].Finished? ==>
                  t.journal[i].start != t.journal[j].start)
            && t.exec.requests == Count(t.journal, RequestJoin) <= 1 && t.exec.accepts == Count(t.journal, AcceptJoin) <= t.exec.requests
            && (t.exec.requestReach <==> t.exec.requests > 0) && (t.exec.acceptReach <==> t.exec.accepts > 0)
  {
    Reachable(s0, events);
    var journal := Run(s0, events).table.journal;
    forall i: nat | i < |journal|
      ensures journal[i].Started? ==> journal[i].attempt == Count(journal[..i], journal[i].stage) + 1
      ensures journal[i].Finished? ==> Closes(journal, i)
    {
      Unfold(journal, i);
    }
    forall i: nat, j: nat | i < j < |journal| && journal[i].Finished? && journal[j].Finished? ensures journal[i].start != journal[j].start {
      ClosedOnce(journal, i, j);
    }
  }

  ghost predicate Closes(journal: seq<Entry>, i: nat)
    requires i < |journal| && journal[i].Finished?
  {
    var f := journal[i];
    f.start < i && journal[f.start].Started? && journal[f.start].epoch == f.epoch && journal[f.start].stage == f.stage
    && journal[f.start].attempt == f.attempt
  }

  lemma {:induction false} Unfold(journal: seq<Entry>, i: nat)
    requires WellFormed(journal) && i < |journal|
    ensures journal[i].Started? ==> journal[i].attempt == Count(journal[..i], journal[i].stage) + 1
    ensures journal[i].Finished? ==> Closes(journal, i)
  {
    var init := journal[..|journal| - 1];
    if i < |init| {
      Unfold(init, i);
      assert init[..i] == journal[..i] && init[i] == journal[i];
    }
  }

  lemma {:induction false} ClosedOnce(journal: seq<Entry>, i: nat, j: nat)
    requires WellFormed(journal) && i < j < |journal| && journal[i].Finished? && journal[j].Finished?
    ensures journal[i].start != journal[j].start
  {
    var init := journal[..|journal| - 1];
    if j < |init| {
      ClosedOnce(init, i, j);
    } else {
      assert init[i] in init;
    }
  }

  /** What no later event undoes: flags, counters, the epoch, the journal, and reconcile_required. */
  ghost predicate Later(a: Table, b: Table) {
    && a.exec.epoch <= b.exec.epoch && a.journal <= b.journal && a.evidence <= b.evidence
    && a.exec.requests <= b.exec.requests && a.exec.accepts <= b.exec.accepts
    && (a.exec.requestReach ==> b.exec.requestReach) && (a.exec.acceptReach ==> b.exec.acceptReach)
    && (a.exec.state == ReconcileRequired ==> b.exec.state == ReconcileRequired)
  }

  lemma StepIsLater(s: State, e: Event)
    requires Inv(s)
    ensures Later(s.table, Next(s, e).table)
  {
  }

  lemma LaterChains(a: Table, b: Table, c: Table)
    requires Later(a, b) && Later(b, c)
    ensures Later(a, c)
  {
  }

  lemma RunGrows(s0: State, events: seq<Event>, more: seq<Event>)
    requires more != []
    ensures Run(s0, events + more) == Next(Run(s0, events + more[..|more| - 1]), more[|more| - 1])
  {
    InitOfConcat(events, more);
  }

  lemma {:induction false} HistoryIsKept(s0: State, events: seq<Event>, more: seq<Event>)
    requires Initial(s0)
    ensures Later(Run(s0, events).table, Run(s0, events + more).table)
  {
    if more == [] {
      assert events + more == events;
    } else {
      var m := more[..|more| - 1];
      HistoryIsKept(s0, events, m);
      Reachable(s0, events + m);
      RunGrows(s0, events, more);
      StepIsLater(Run(s0, events + m), more[|more| - 1]);
      LaterChains(Run(s0, events).table, Run(s0, events + m).table, Run(s0, events + more).table);
    }
  }

  // ----- evidence

  /** This evidence answers that reconciliation, and has closed it. */
  ghost predicate Answers(t: Table, i: nat, start: nat) {
    && i < |t.evidence| && start < |t.journal| && Closed(t.journal, start)
    && var e, x := t.evidence[i], t.journal[start]; x.Started? && x.stage.Reconcile? && x.epoch == e.epoch && x.attempt == e.attempt
  }

  ghost predicate Answering(t: Table, i: nat) { exists start: nat :: Answers(t, i, start) }

  ghost predicate EvidenceApart(t: Table, i: nat, j: nat) {
    i < j < |t.evidence| ==> t.evidence[i].attempt != t.evidence[j].attempt && t.evidence[i].epoch != t.evidence[j].epoch
  }

  /** Each evidence answers and closes its own reconciliation: no attempt and no lease epoch has two. */
  ghost predicate EachAnswers(t: Table) {
    && (forall i: nat {:trigger Answering(t, i)} :: i < |t.evidence| ==> Answering(t, i))
    && (forall i: nat, j: nat {:trigger EvidenceApart(t, i, j)} :: EvidenceApart(t, i, j))
  }

  /** A stage is started once under an epoch. */
  lemma {:induction false} StartedOnce(journal: seq<Entry>, i: nat, j: nat)
    requires WellFormed(journal) && i < j < |journal| && journal[i].Started? && journal[j].Started?
    ensures journal[i].epoch != journal[j].epoch || journal[i].stage != journal[j].stage
  {
    var init := journal[..|journal| - 1];
    if j < |init| {
      StartedOnce(init, i, j);
    } else {
      assert init[i] in init;
    }
  }

  lemma ClosedKept(a: seq<Entry>, b: seq<Entry>, start: nat)
    requires a <= b && Closed(a, start)
    ensures Closed(b, start)
  {
    var f :| f in a && f.Finished? && f.start == start;
    assert f in b;
  }

  lemma AnsweringKept(s: State, e: Event, i: nat)
    requires Inv(s) && Answering(s.table, i) && i < |Next(s, e).table.evidence|
    ensures Answering(Next(s, e).table, i)
  {
    var t, t' := s.table, Next(s, e).table;
    StepIsLater(s, e);
    var start: nat :| Answers(t, i, start);
    ClosedKept(t.journal, t'.journal, start);
    assert Answers(t', i, start);
  }

  /** A step that adds evidence records it for the reconciliation that was open. */
  lemma EvidenceGrows(s: State, e: Event)
    requires Inv(s) && |Next(s, e).table.evidence| > |s.table.evidence|
    ensures e.Record? && e.worker in s.workers && MayRecord(s.table, TicketOf(s, e.worker), e.start, e.digest, e.legal)
    ensures var t, k := s.table, TicketOf(s, e.worker);
            && Next(s, e).table.evidence == t.evidence + [Evidence(t.journal[e.start].attempt, k.epoch, e.worker, e.digest)]
            && (forall x :: x in t.evidence ==> x.attempt != t.journal[e.start].attempt)
            && Next(s, e).table.journal == t.journal + [Entry.Finished(k.epoch, Reconcile, t.journal[e.start].attempt, e.start, false, e.outcome)]
  {
  }

  lemma NewEvidenceAnswers(s: State, e: Event)
    requires Inv(s) && |Next(s, e).table.evidence| > |s.table.evidence|
    ensures Answering(Next(s, e).table, |s.table.evidence|)
  {
    EvidenceGrows(s, e);
    var t' := Next(s, e).table;
    assert t'.journal[|s.table.journal|] in t'.journal;
    assert Answers(t', |s.table.evidence|, e.start);
  }

  lemma NewEvidenceIsApart(s: State, e: Event, i: nat)
    requires Inv(s) && |Next(s, e).table.evidence| > |s.table.evidence| && i < |s.table.evidence| && Answering(s.table, i)
    ensures EvidenceApart(Next(s, e).table, i, |s.table.evidence|)
  {
    EvidenceGrows(s, e);
    var start: nat :| Answers(s.table, i, start);
    assert s.table.evidence[i] in s.table.evidence;
    if s.table.evidence[i].epoch == TicketOf(s, e.worker).epoch {
      assert start != e.start;
      StartedOnce(s.table.journal, if start < e.start then start else e.start, if start < e.start then e.start else start);
    }
  }

  lemma EvidenceStep(s: State, e: Event)
    requires Inv(s) && EachAnswers(s.table)
    ensures EachAnswers(Next(s, e).table)
  {
    var t, t' := s.table, Next(s, e).table;
    StepIsLater(s, e);
    if |t'.evidence| > |t.evidence| { EvidenceGrows(s, e); }
    forall i: nat | i < |t'.evidence| ensures Answering(t', i) {
      if i < |t.evidence| { AnsweringKept(s, e, i); } else { NewEvidenceAnswers(s, e); }
    }
    forall i: nat, j: nat ensures EvidenceApart(t', i, j) {
      assert EvidenceApart(t, i, j);
      if i < j == |t.evidence| < |t'.evidence| { NewEvidenceIsApart(s, e, i); }
    }
  }

  /** So it is in every run, whatever reconcilers claim, finish and record. */
  lemma {:induction false} EvidenceIsUnique(s0: State, events: seq<Event>)
    requires Initial(s0)
    ensures EachAnswers(Run(s0, events).table)
  {
    if events != [] {
      var init := events[..|events| - 1];
      EvidenceIsUnique(s0, init);
      Reachable(s0, init);
      EvidenceStep(Run(s0, init), events[|events| - 1]);
    }
  }
}
