/**
 The dispatcher of join_dispatch.dfy, with the claim and the evidence of join_journal.dfy, is one of the
 workers of join_protocol.dfy: whatever the world shows it, its row and its POSTs are those of a
 sequence of protocol events. So everything proved of every run of the protocol holds of the worker
 as it is written.
 */
module JoinRefinement {
  import opened Common
  import opened JoinJournal
  import P = JoinProtocol
  import H = JoinDispatch

  /** These events led here: the worker is at `k`, with this row and these POSTs, and nobody else has moved. */
  ghost predicate Ran(s: P.State, events: seq<P.Event>, w: nat, k: P.Worker, t: Table, posts: seq<P.Post>) {
    P.Run(s, events) == P.State(t, s.workers[w := k], posts)
  }

  function TicketOf(w: nat, k: P.Worker): Ticket { Ticket(w, k.epoch, k.reconcileOnly) }

  // ----- one event at a time

  /** One more event behind a sequence that led here. */
  lemma Do(s: P.State, events: seq<P.Event>, w: nat, k: P.Worker, t: Table, posts: seq<P.Post>, e: P.Event) returns (more: seq<P.Event>)
    requires Ran(s, events, w, k, t, posts)
    ensures more == events + [e] && P.Run(s, more) == P.Next(P.State(t, s.workers[w := k], posts), e)
  {
    more := events + [e];
    assert more[..|more| - 1] == events;
  }

  lemma Wait(s: P.State, events: seq<P.Event>, w: nat, k: P.Worker, t: Table, posts: seq<P.Post>, d: nat) returns (more: seq<P.Event>)
    requires Ran(s, events, w, k, t, posts)
    ensures Ran(s, more, w, k, H.Later(t, d), posts)
  {
    more := Do(s, events, w, k, t, posts, P.Tick(d));
  }

  lemma Mark(s: P.State, events: seq<P.Event>, w: nat, k: P.Worker, t: Table, posts: seq<P.Post>, stage: Stage, guard: bool)
    returns (more: seq<P.Event>)
    requires Ran(s, events, w, k, t, posts) && k.pc == P.Idle(stage)
    ensures Ran(s, more, w, if MayMark(t, TicketOf(w, k), stage, guard) then k.(pc := P.Marked(stage)) else k,
                MarkTx(t, TicketOf(w, k), stage, guard), posts)
  {
    more := Do(s, events, w, k, t, posts, P.Mark(w, guard));
  }

  lemma Admit(s: P.State, events: seq<P.Event>, w: nat, k: P.Worker, t: Table, posts: seq<P.Post>, stage: Stage)
    returns (more: seq<P.Event>)
    requires Ran(s, events, w, k, t, posts) && k.pc == P.Marked(stage)
    requires Current(t, TicketOf(w, k), true) && t.exec.state == StartedState(stage)
    ensures Ran(s, more, w, k.(pc := P.Admitted(stage)), t, posts)
  {
    more := Do(s, events, w, k, t, posts, P.Admit(w, true));
  }

  lemma Send(s: P.State, events: seq<P.Event>, w: nat, k: P.Worker, t: Table, posts: seq<P.Post>, stage: Stage)
    returns (more: seq<P.Event>)
    requires Ran(s, events, w, k, t, posts) && k.pc == P.Admitted(stage)
    ensures Ran(s, more, w, k.(pc := P.Sent(stage)), t, posts + [P.Post(stage, k.epoch, w, |t.journal|)])
  {
    more := Do(s, events, w, k, t, posts, P.Dispatch(w));
  }

  /** Where the reply leaves the worker: only a request that succeeded goes on. */
  function Behind(t: Table, w: nat, k: P.Worker, stage: Stage, pass: H.Pass): P.Worker {
    var start := OpenStart(t.journal, k.epoch, stage);
    if start.None? || !MayFinish(t, TicketOf(w, k), stage, start.value, pass.mayReach, pass.finishLegal) then k
    else k.(pc := if stage.RequestJoin? && pass.outcome.Succeeded? then P.Idle(AcceptJoin) else P.Pc.Finished)
  }

  lemma Finish(s: P.State, events: seq<P.Event>, w: nat, k: P.Worker, t: Table, posts: seq<P.Post>, stage: Stage, pass: H.Pass)
    returns (more: seq<P.Event>)
    requires Ran(s, events, w, k, t, posts) && k.pc == P.Sent(stage)
    ensures Ran(s, more, w, Behind(t, w, k, stage, pass),
                ClosedTx(t, TicketOf(w, k), stage, pass.outcome, pass.mayReach, pass.finishLegal), posts)
  {
    var start := OpenStart(t.journal, k.epoch, stage);
    if start.None? {
      more := events;
    } else {
      more := Do(s, events, w, k, t, posts, P.Finish(w, start.value, pass.outcome, pass.mayReach, pass.finishLegal));
    }
  }

  /** Behind a claim: what was ever marked is only reconciled. */
  function Claimed(t: Table): P.Worker {
    if Reconciling(t.exec) then P.Worker(P.Idle(Reconcile), t.exec.epoch + 1, true) else P.Worker(P.Idle(RequestJoin), t.exec.epoch + 1, false)
  }

  lemma Claim(s: P.State, w: nat, duration: int, limit: int, legal: bool) returns (all: seq<P.Event>)
    requires w !in s.workers
    ensures Ran(s, all, w, if MayClaim(s.table, duration, legal) then Claimed(s.table) else P.Worker(P.Waiting, 0, false),
                ClaimTx(s.table, w, duration, limit, legal), s.posts)
  {
    var spawned := [P.Spawn(w)];
    assert spawned[..0] == [];
    assert Ran(s, spawned, w, P.Worker(P.Waiting, 0, false), s.table, s.posts);
    all := Do(s, spawned, w, P.Worker(P.Waiting, 0, false), s.table, s.posts, P.Claim(w, duration, limit, legal));
  }

  /** Evidence that may not be recorded changes nothing. */
  lemma Record(s: P.State, events: seq<P.Event>, w: nat, k: P.Worker, t: Table, posts: seq<P.Post>, digest: nat, outcome: Outcome, legal: bool)
    returns (more: seq<P.Event>, k': P.Worker)
    requires Ran(s, events, w, k, t, posts) && k.pc == P.Idle(Reconcile)
    ensures Ran(s, more, w, k', RecordedTx(t, TicketOf(w, k), digest, outcome, legal), posts)
  {
    var start := OpenStart(t.journal, k.epoch, Reconcile);
    if start.None? {
      more, k' := events, k;
    } else {
      more := Do(s, events, w, k, t, posts, P.Record(w, start.value, digest, outcome, legal));
      k' := if MayRecord(t, TicketOf(w, k), start.value, digest, legal) then k.(pc := P.Pc.Finished) else k;
    }
  }

  // ----- the parts of a run

  /** From the marker to the reply. */
  lemma Leaves(s: P.State, events: seq<P.Event>, w: nat, k: P.Worker, t: Table, posts: seq<P.Post>, stage: Stage, pass: H.Pass)
    returns (all: seq<P.Event>)
    requires Ran(s, events, w, k, t, posts) && k.pc == P.Marked(stage)
    requires Current(t, TicketOf(w, k), true) && t.exec.state == StartedState(stage)
    ensures Ran(s, all, w, Behind(H.Waited(t, pass), w, k.(pc := P.Sent(stage)), stage, pass), H.RepliedTx(t, TicketOf(w, k), stage, pass),
                posts + [P.Post(stage, k.epoch, w, |t.journal|)])
  {
    all := Admit(s, events, w, k, t, posts, stage);
    all := Send(s, all, w, k.(pc := P.Admitted(stage)), t, posts, stage);
    var sent := posts + [P.Post(stage, k.epoch, w, |t.journal|)];
    all := Wait(s, all, w, k.(pc := P.Sent(stage)), t, sent, pass.delay);
    all := Finish(s, all, w, k.(pc := P.Sent(stage)), H.Waited(t, pass), sent, stage, pass);
  }

  /** One pass of the loop: `k'` is where it leaves the worker. */
  lemma Passes(s: P.State, events: seq<P.Event>, w: nat, k: P.Worker, t: Table, posts: seq<P.Post>, stage: Stage, pass: H.Pass,
               pinned: Option<(H.Admission, H.Identity)>) returns (all: seq<P.Event>, k': P.Worker)
    requires Ran(s, events, w, k, t, posts) && k.pc == P.Idle(stage)
    ensures var x := TicketOf(w, k);
            && Ran(s, all, w, k', H.PassTx(t, x, stage, pass, pinned),
                   posts + if H.Sends(t, x, stage, pass, pinned) then [P.Post(stage, k.epoch, w, |t.journal| + 1)] else [])
            && TicketOf(w, k') == x
    ensures var x := TicketOf(w, k);
            && stage.RequestJoin? && H.Sends(t, x, stage, pass, pinned) && pass.outcome.Succeeded?
            && H.Closable(H.MarkedTx(t, x, stage, pass), x, stage, pass)
            ==> k'.pc == P.Idle(AcceptJoin)
  {
    var x, m := TicketOf(w, k), H.MarkedTx(t, TicketOf(w, k), stage, pass);
    assert posts + [] == posts;
    if !H.LetsThrough(pass, pinned) { return events, k; }
    all := Wait(s, events, w, k, t, posts, pass.checking);
    all := Mark(s, all, w, k, H.Later(t, pass.checking), posts, stage, pass.guard);
    if !H.Sends(t, x, stage, pass, pinned) {
      k' := if H.Admits(t, x, stage, pass, pinned) then k.(pc := P.Marked(stage)) else k;
    } else {
      all := Leaves(s, all, w, k.(pc := P.Marked(stage)), m, posts, stage, pass);
      k' := Behind(H.Waited(m, pass), w, k.(pc := P.Sent(stage)), stage, pass);
      if H.Closable(m, x, stage, pass) { Closes(m, x, stage, pass); }
    }
  }

  lemma Closes(m: Table, x: Ticket, stage: Stage, pass: H.Pass)
    requires H.Closable(m, x, stage, pass)
    ensures var start := OpenStart(m.journal, x.epoch, stage); start.Some? && H.Closes(m, x, stage, pass, start.value)
  {
  }

  /** The POSTs of a run as the protocol records them. */
  ghost function Posted(t: Table, w: nat, k: P.Worker, first: H.Pass, second: H.Pass): seq<P.Post> {
    var x := TicketOf(w, k);
    if !H.FirstLeaves(t, x, first) then []
    else
      [P.Post(RequestJoin, k.epoch, w, |t.journal| + 1)]
      + (if H.SecondLeaves(t, x, first, second) then [P.Post(AcceptJoin, k.epoch, w, |t.journal| + 3)] else [])
  }

  /**
   What one worker finds: the terms of its claim, the time until it has read the roster and the
   evidence it brings if it may only reconcile, and what each pass shows it otherwise.
   */
  datatype Job = Job(duration: int, limit: int, legal: bool, reading: nat, digest: nat, outcome: Outcome, recordLegal: bool,
                     first: H.Pass, second: H.Pass)

  function Held(t: Table, w: nat): Ticket { Ticket(w, t.exec.epoch + 1, Reconciling(t.exec)) }

  /** The row behind the methods `Claim` and, by what the claim gave, `Record` or `Dispatch`. */
  ghost function WorkedTx(t: Table, w: nat, job: Job): Table {
    var claimed := ClaimTx(t, w, job.duration, job.limit, job.legal);
    if !MayClaim(t, job.duration, job.legal) then t
    else if Reconciling(t.exec) then RecordedTx(H.Later(claimed, job.reading), Held(t, w), job.digest, job.outcome, job.recordLegal)
    else H.DispatchTx(claimed, Held(t, w), job.first, job.second)
  }

  /** The POSTs of such a worker as the protocol records them. */
  ghost function WorkedPosts(t: Table, w: nat, job: Job): seq<P.Post> {
    if MayClaim(t, job.duration, job.legal) && !Reconciling(t.exec)
    then Posted(ClaimTx(t, w, job.duration, job.limit, job.legal), w, Claimed(t), job.first, job.second) else []
  }

  lemma Dispatches(s: P.State, events: seq<P.Event>, w: nat, k: P.Worker, t: Table, first: H.Pass, second: H.Pass)
    returns (all: seq<P.Event>, k': P.Worker)
    requires Ran(s, events, w, k, t, s.posts) && k.pc == P.Idle(RequestJoin)
    ensures Ran(s, all, w, k', H.DispatchTx(t, TicketOf(w, k), first, second), s.posts + Posted(t, w, k, first, second))
  {
    var x := TicketOf(w, k);
    all, k' := Passes(s, events, w, k, t, s.posts, RequestJoin, first, None);
    if H.FirstSucceeds(t, x, first) {
      var behind, posts := H.PassTx(t, x, RequestJoin, first, None), s.posts + [P.Post(RequestJoin, k.epoch, w, |t.journal| + 1)];
      H.AcceptOpens(t, x, first, second);
      Closes(H.MarkedTx(t, x, RequestJoin, first), x, RequestJoin, first);
      all, k' := Passes(s, all, w, k', behind, posts, AcceptJoin, second, Some((first.admission.value, first.identity.value)));
    }
  }

  /**
   Every run of a worker, from its claim on, is a sequence of protocol events: the protocol ends with
   the very row, journal and evidence the run leaves and has sent exactly what the run sent.
   */
  lemma RunIsProtocolRun(s: P.State, w: nat, job: Job) returns (all: seq<P.Event>, k': P.Worker)
    requires w !in s.workers
    ensures Ran(s, all, w, k', WorkedTx(s.table, w, job), s.posts + WorkedPosts(s.table, w, job))
  {
    assert s.posts + [] == s.posts;
    all := Claim(s, w, job.duration, job.limit, job.legal);
    var k, claimed := Claimed(s.table), ClaimTx(s.table, w, job.duration, job.limit, job.legal);
    if !MayClaim(s.table, job.duration, job.legal) {
      k' := P.Worker(P.Waiting, 0, false);
    } else if Reconciling(s.table.exec) {
      all := Wait(s, all, w, k, claimed, s.posts, job.reading);
      all, k' := Record(s, all, w, k, H.Later(claimed, job.reading), s.posts, job.digest, job.outcome, job.recordLegal);
    } else {
      all, k' := Dispatches(s, all, w, k, claimed, job.first, job.second);
    }
  }

  // ----- behind every run of the protocol

  lemma PostsGrow(s: P.State, e: P.Event)
    ensures s.posts <= P.Next(s, e).posts
  {
  }

  lemma {:induction false} RunContinues(s0: P.State, events: seq<P.Event>, more: seq<P.Event>)
    ensures P.Run(s0, events + more) == P.Run(P.Run(s0, events), more)
    ensures P.Run(s0, events).posts <= P.Run(s0, events + more).posts
  {
    if more == [] {
      assert events + more == events;
    } else {
      InitOfConcat(events, more);
      RunContinues(s0, events, more[..|more| - 1]);
      PostsGrow(P.Run(s0, events + more[..|more| - 1]), more[|more| - 1]);
    }
  }

  /**
   Whatever dispatchers, reconcilers and crashes came before, the worker goes on as one more part of
   that run of the protocol. A stage it sends was never sent before and is never sent again.
   */
  lemma WorkerJoinsAnyRun(s0: P.State, events: seq<P.Event>, w: nat, job: Job, later: seq<P.Event>) returns (all: seq<P.Event>)
    requires P.Initial(s0) && w !in P.Run(s0, events).workers
    ensures var s, end := P.Run(s0, events), P.Run(s0, all + later).posts;
            && events <= all && P.Run(s0, all).table == WorkedTx(s.table, w, job)
            && P.Run(s0, all).posts == s.posts + WorkedPosts(s.table, w, job) <= end
            && forall i, j :: |s.posts| <= i < |P.Run(s0, all).posts| && 0 <= j < |end| && i != j ==> end[i].stage != end[j].stage
  {
    var more, k' := RunIsProtocolRun(P.Run(s0, events), w, job);
    all := events + more;
    RunContinues(s0, events, more);
    RunContinues(s0, all, later);
    P.AtMostOnePostPerStage(s0, all + later);
  }
}
