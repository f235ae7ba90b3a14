/**
 The workspace lock around the join POSTs: the transactions of join_protocol.dfy interleaved with
 lost database sessions and with stops and revocations of the slot's authorization
 (dispatchRotationCandidateJoin, checkJoinDispatchGate, StopRotationRemoval, RevokeExpiryRotation).

 A dispatcher locks the workspace behind its claim and runs every later statement on that session.
 Marker and final recheck both demand a released slot, which a stop or revoke ends.
 */
module JoinFence {
  import opened Common
  import opened JoinJournal
  import P = JoinProtocol

  /** `Open`: the session lives and holds its locks. `Lost`: it died, which only its next statement notices. */
  datatype Session = Unopened | Open | Lost | Closed

  /** Who holds the workspace lock: `Other` are removal handlers and halts of other authorizations. */
  datatype Holder = Dispatcher(worker: nat) | Halt(halter: nat) | Other(actor: nat)

  datatype Halter = Halter(done: bool, alive: bool)

  /** About one POST: whether a halt had committed, and whether its sender's session still lived. */
  datatype Note = Note(afterHalt: bool, alive: bool)

  /** `lapsed`: the halt that ended the authorization committed after its own session had died. */
  datatype State = State(
    join: P.State, gate: Option<Holder>, sessions: map<nat, Session>, halters: map<nat, Halter>,
    halted: bool, lapsed: bool, notes: seq<Note>)

  datatype Event =
    | Join(step: P.Event)
    | Lock(worker: nat) | Lose(worker: nat) | Close(worker: nat)
    | HaltLock(halter: nat) | HaltLose(halter: nat) | HaltCommit(halter: nat) | HaltClose(halter: nat)
    | OtherLock(actor: nat) | OtherUnlock(actor: nat)

  function SessionOf(s: State, w: nat): Session { if w in s.sessions then s.sessions[w] else Unopened }

  function Without(s: State, holder: Holder): State {
    if s.gate == Some(holder) then s.(gate := None) else s
  }

  /** What becomes of a join step: the statements of a dispatcher need its session, its admissions an authorization. */
  function Passed(s: State, e: P.Event): Option<P.Event> {
    match e
    case Mark(w, admitted) => if SessionOf(s, w).Open? then Some(P.Mark(w, admitted && !s.halted)) else None
    case Admit(w, legal) => if SessionOf(s, w).Open? then Some(P.Admit(w, legal && !s.halted)) else None
    case Finish(w, _, _, _, _) =>
      if w in s.join.workers && s.join.workers[w].pc.Sent? && !SessionOf(s, w).Open? then None else Some(e)
    case _ => Some(e)
  }

  /** The POST itself is no statement: nothing about the session is asked. */
  function JoinNext(s: State, e: P.Event): State {
    var p := Passed(s, e);
    if p.None? then s
    else
      var join := P.Next(s.join, p.value);
      s.(join := join,
         notes := if |join.posts| > |s.join.posts| then s.notes + [Note(s.halted, SessionOf(s, join.posts[|s.join.posts|].worker).Open?)]
                  else s.notes)
  }

  function Next(s: State, e: Event): State {
    match e
    case Join(step) => JoinNext(s, step)
    case Lock(w) =>
      if w in s.join.workers && s.join.workers[w].pc == P.Idle(RequestJoin) && SessionOf(s, w).Unopened? && s.gate.None?
      then s.(gate := Some(Dispatcher(w)), sessions := s.sessions[w := Open]) else s
    case Lose(w) =>
      if SessionOf(s, w).Open? then Without(s, Dispatcher(w)).(sessions := s.sessions[w := Lost]) else s
    case Close(w) =>
      if SessionOf(s, w).Open? && w in s.join.workers && s.join.workers[w].pc.Finished?
      then Without(s, Dispatcher(w)).(sessions := s.sessions[w := Closed]) else s
    case HaltLock(h) =>
      if h in s.halters || s.gate.Some? then s
      else s.(gate := Some(Halt(h)), halters := s.halters[h := Halter(false, true)])
    case HaltLose(h) =>
      if h in s.halters && !s.halters[h].done
      then Without(s, Halt(h)).(halters := s.halters[h := s.halters[h].(alive := false)]) else s
    case HaltCommit(h) =>
      if h !in s.halters || s.halters[h].done || s.halted then s
      else s.(halted := true, lapsed := !s.halters[h].alive)
    case HaltClose(h) =>
      if h !in s.halters then s else Without(s, Halt(h)).(halters := s.halters[h := s.halters[h].(done := true)])
    case OtherLock(a) => if s.gate.None? then s.(gate := Some(Other(a))) else s
    case OtherUnlock(a) => Without(s, Other(a))
  }

  function Run(s: State, events: seq<Event>): State {
    if events == [] then s else Next(Run(s, events[..|events| - 1]), events[|events| - 1])
  }

  predicate Initial(s: State) {
    P.Initial(s.join) && s.gate.None? && s.sessions == map[] && s.halters == map[] && !s.halted && !s.lapsed && s.notes == []
  }

  // ----- every fenced run is a run of the join protocol

  function Projected(s0: State, events: seq<Event>): seq<P.Event> {
    if events == [] then []
    else
      var init, last := events[..|events| - 1], events[|events| - 1];
      var step := if last.Join? then Passed(Run(s0, init), last.step) else None;
      Projected(s0, init) + if step.Some? then [step.value] else []
  }

  lemma ProjectedSnoc(s0: P.State, events: seq<P.Event>, e: P.Event)
    ensures P.Run(s0, events + [e]) == P.Next(P.Run(s0, events), e)
  {
    assert (events + [e])[..|events|] == events;
  }

  lemma ProjectedNext(s0: State, events: seq<Event>)
    requires events != []
    ensures var s, last := Run(s0, events[..|events| - 1]), events[|events| - 1];
            Projected(s0, events) == if last.Join? && Passed(s, last.step).Some?
                                     then Projected(s0, events[..|events| - 1]) + [Passed(s, last.step).value]
                                     else Projected(s0, events[..|events| - 1])
  {
  }

  lemma JoinOfNext(s: State, e: Event)
    ensures Next(s, e).join == if e.Join? && Passed(s, e.step).Some? then P.Next(s.join, Passed(s, e.step).value) else s.join
  {
  }

  /** So what join_protocol.dfy proves of every run, at most one POST per stage included, holds behind the lock too. */
  lemma {:induction false} FencedRunsAreJoinRuns(s0: State, events: seq<Event>)
    ensures Run(s0, events).join == P.Run(s0.join, Projected(s0, events))
  {
    if events != [] {
      var init, last := events[..|events| - 1], events[|events| - 1];
      FencedRunsAreJoinRuns(s0, init);
      ProjectedNext(s0, events);
      JoinOfNext(Run(s0, init), last);
      if last.Join? && Passed(Run(s0, init), last.step).Some? {
        ProjectedSnoc(s0.join, Projected(s0, init), Passed(Run(s0, init), last.step).value);
      }
    }
  }

  // ----- invariants

  predicate IsAdmitted(s: State, w: nat) { w in s.join.workers && s.join.workers[w].pc.Admitted? }

  ghost predicate WorkerInv(s: State, w: nat) {
    && (SessionOf(s, w).Open? ==> s.gate == Some(Dispatcher(w)))
    && (IsAdmitted(s, w) && SessionOf(s, w).Open? ==> !s.halted || s.lapsed)
  }

  ghost predicate HalterInv(s: State, h: nat) {
    h in s.halters && s.halters[h].alive && !s.halters[h].done ==> s.gate == Some(Halt(h))
  }

  ghost predicate NoteInv(s: State, i: nat) {
    i < |s.notes| && (s.notes[i].afterHalt && s.notes[i].alive ==> s.lapsed) && (s.notes[i].afterHalt ==> s.halted)
  }

  ghost predicate Inv(s: State) {
    && (forall w {:trigger WorkerInv(s, w)} :: WorkerInv(s, w))
    && (forall h {:trigger HalterInv(s, h)} :: HalterInv(s, h))
    && (forall i: nat {:trigger NoteInv(s, i)} :: i < |s.notes| ==> NoteInv(s, i))
    && |s.notes| == |s.join.posts| && (s.lapsed ==> s.halted)
  }

  /** Only a final recheck lets a worker send. */
  lemma AdmittedMoves(s: P.State, e: P.Event, w: nat)
    ensures var s' := P.Next(s, e);
            w in s'.workers && s'.workers[w].pc.Admitted? ==>
              w in s.workers && (s.workers[w].pc.Admitted? || (e.Admit? && e.worker == w && e.legal))
  {
  }

  /** Only a worker behind its final recheck adds to the wire. */
  lemma PostMoves(s: P.State, e: P.Event)
    ensures var s' := P.Next(s, e);
            && s.posts <= s'.posts && |s'.posts| <= |s.posts| + 1
            && (|s'.posts| > |s.posts| ==>
                  s'.posts[|s.posts|].worker in s.workers && s.workers[s'.posts[|s.posts|].worker].pc.Admitted?)
  {
  }

  lemma StepKeepsWorker(s: State, e: Event, w: nat)
    requires Inv(s)
    ensures WorkerInv(Next(s, e), w)
  {
    assert WorkerInv(s, w);
    if e.Join? && Passed(s, e.step).Some? { AdmittedMoves(s.join, Passed(s, e.step).value, w); }
    if e.HaltCommit? { assert HalterInv(s, e.halter); }
  }

  lemma StepKeepsHalter(s: State, e: Event, h: nat)
    requires Inv(s)
    ensures HalterInv(Next(s, e), h)
  {
    assert HalterInv(s, h);
    if e.Lose? || e.Close? { assert WorkerInv(s, e.worker); }
  }

  lemma StepKeepsNotes(s: State, e: Event)
    requires Inv(s)
    ensures var s' := Next(s, e); |s'.notes| == |s'.join.posts| && forall i: nat {:trigger NoteInv(s', i)} :: i < |s'.notes| ==> NoteInv(s', i)
  {
    var s' := Next(s, e);
    if e.Join? && Passed(s, e.step).Some? {
      PostMoves(s.join, Passed(s, e.step).value);
      if |s'.join.posts| > |s.join.posts| { assert WorkerInv(s, s'.join.posts[|s.join.posts|].worker); }
    }
    forall i: nat | i < |s'.notes| ensures NoteInv(s', i) {
      if i < |s.notes| { assert NoteInv(s, i); }
    }
  }

  lemma StepPreserves(s: State, e: Event)
    requires Inv(s)
    ensures Inv(Next(s, e))
  {
    forall w ensures WorkerInv(Next(s, e), w) { StepKeepsWorker(s, e, w); }
    forall h ensures HalterInv(Next(s, e), h) { StepKeepsHalter(s, e, h); }
    StepKeepsNotes(s, e);
  }

  lemma {:induction false} Reachable(s0: State, events: seq<Event>)
    requires Initial(s0)
    ensures Inv(Run(s0, events))
  {
    if events != [] {
      Reachable(s0, events[..|events| - 1]);
      StepPreserves(Run(s0, events[..|events| - 1]), events[|events| - 1]);
    }
  }

  // ----- no POST behind a halt

  /** At step `n` the sender's session dies behind its final recheck, where nothing of it notices any more. */
  ghost predicate SenderLostAt(s0: State, events: seq<Event>, n: nat, w: nat)
    requires n < |events|
  {
    events[n] == Lose(w) && IsAdmitted(Run(s0, events[..n]), w) && SessionOf(Run(s0, events[..n]), w).Open?
  }

  ghost predicate SenderLost(s0: State, events: seq<Event>, w: nat) {
    exists n: nat :: n < |events| && SenderLostAt(s0, events, n, w)
  }

  /** At step `n` a halt ends the authorization without the lock it took. */
  ghost predicate LapsesAt(s0: State, events: seq<Event>, n: nat)
    requires n < |events|
  {
    var s := Run(s0, events[..n]);
    events[n].HaltCommit? && events[n].halter in s.halters && !s.halters[events[n].halter].alive && !s.halted
  }

  ghost predicate Lapses(s0: State, events: seq<Event>) {
    exists n: nat :: n < |events| && LapsesAt(s0, events, n)
  }

  lemma SenderLostLonger(s0: State, events: seq<Event>, k: nat, w: nat)
    requires k <= |events| && SenderLost(s0, events[..k], w)
    ensures SenderLost(s0, events, w)
  {
    var n: nat :| n < |events[..k]| && SenderLostAt(s0, events[..k], n, w);
    assert events[..k][..n] == events[..n];
    assert SenderLostAt(s0, events, n, w);
  }

  lemma AdmittedDies(s: State, e: Event, w: nat)
    requires IsAdmitted(Next(s, e), w) && !SessionOf(Next(s, e), w).Open?
    ensures IsAdmitted(s, w) && (SessionOf(s, w).Open? ==> e == Lose(w))
  {
    if e.Join? && Passed(s, e.step).Some? { AdmittedMoves(s.join, Passed(s, e.step).value, w); }
  }

  /** A dispatcher that may send without a session lost it behind its final recheck. */
  lemma {:induction false} DeadSenderWasLost(s0: State, events: seq<Event>, w: nat)
    requires Initial(s0) && IsAdmitted(Run(s0, events), w) && !SessionOf(Run(s0, events), w).Open?
    ensures SenderLost(s0, events, w)
  {
    var k := |events| - 1;
    AdmittedDies(Run(s0, events[..k]), events[k], w);
    if SessionOf(Run(s0, events[..k]), w).Open? {
      assert SenderLostAt(s0, events, k, w);
    } else {
      DeadSenderWasLost(s0, events[..k], w);
      SenderLostLonger(s0, events, k, w);
    }
  }

  lemma {:induction false} LapsedByItsHalt(s0: State, events: seq<Event>)
    requires Initial(s0) && Run(s0, events).lapsed
    ensures Lapses(s0, events)
  {
    var k := |events| - 1;
    if Run(s0, events[..k]).lapsed {
      LapsedByItsHalt(s0, events[..k]);
      var n: nat :| n < |events[..k]| && LapsesAt(s0, events[..k], n);
      assert events[..k][..n] == events[..n];
      assert LapsesAt(s0, events, n);
    } else {
      assert LapsesAt(s0, events, k);
    }
  }

  /** Which POST it is: an earlier one, or that of the dispatcher that just sent. */
  ghost predicate PostFits(s: State, s': State, i: nat) {
    i < |s'.notes| == |s'.join.posts| &&
    if i < |s.notes| then i < |s.join.posts| && s'.notes[i] == s.notes[i] && s'.join.posts[i] == s.join.posts[i]
    else IsAdmitted(s, s'.join.posts[i].worker) && s'.notes[i] == Note(s.halted, SessionOf(s, s'.join.posts[i].worker).Open?)
  }

  lemma QuietKeepsPosts(s: State, e: Event)
    requires !e.Join?
    ensures Next(s, e).join == s.join && Next(s, e).notes == s.notes
  {
  }

  lemma JoinPostFits(s: State, step: P.Event, i: nat)
    requires |s.notes| == |s.join.posts| && i < |JoinNext(s, step).notes|
    ensures PostFits(s, JoinNext(s, step), i)
  {
    if Passed(s, step).Some? { PostMoves(s.join, Passed(s, step).value); }
  }

  lemma PostHere(s: State, e: Event, i: nat)
    requires |s.notes| == |s.join.posts| && i < |Next(s, e).notes|
    ensures PostFits(s, Next(s, e), i)
  {
    if e.Join? { JoinPostFits(s, e.step, i); } else { QuietKeepsPosts(s, e); }
  }

  lemma {:induction false} DeadPostWasLost(s0: State, events: seq<Event>, i: nat, w: nat)
    requires Initial(s0) && i < |Run(s0, events).notes| == |Run(s0, events).join.posts|
    requires Run(s0, events).join.posts[i].worker == w && !Run(s0, events).notes[i].alive
    ensures SenderLost(s0, events, w)
  {
    var k := |events| - 1;
    Reachable(s0, events[..k]);
    PostHere(Run(s0, events[..k]), events[k], i);
    if i < |Run(s0, events[..k]).notes| {
      DeadPostWasLost(s0, events[..k], i, w);
    } else {
      DeadSenderWasLost(s0, events[..k], w);
    }
    SenderLostLonger(s0, events, k, w);
  }

  /**
   A join POST that follows a committed stop or revoke has a lost session to blame: its own
   sender's, behind the final recheck, or that of the very halt, before it committed.
   */
  lemma {:induction false} NoPostAfterHalt(s0: State, events: seq<Event>, i: nat)
    requires Initial(s0) && i < |Run(s0, events).join.posts|
    ensures var s := Run(s0, events);
            |s.notes| == |s.join.posts| && (s.notes[i].afterHalt ==> SenderLost(s0, events, s.join.posts[i].worker) || Lapses(s0, events))
  {
    Reachable(s0, events);
    var s := Run(s0, events);
    assert NoteInv(s, i);
    if s.notes[i].alive {
      if s.notes[i].afterHalt { LapsedByItsHalt(s0, events); }
    } else {
      DeadPostWasLost(s0, events, i, s.join.posts[i].worker);
    }
  }

  // ----- both gaps are open

  /** From every state with a dispatcher behind its final recheck, a halt can slip in before its POST. */
  lemma SenderGapIsOpen(s: State, w: nat, h: nat)
    requires Inv(s) && IsAdmitted(s, w) && SessionOf(s, w).Open? && !s.halted && h !in s.halters
    ensures var halted := Next(Next(Next(s, Lose(w)), HaltLock(h)), HaltCommit(h));
            var sent := Next(halted, Join(P.Dispatch(w)));
            !halted.lapsed && sent.notes == s.notes + [Note(true, false)] && |sent.join.posts| == |s.join.posts| + 1
  {
    assert WorkerInv(s, w);
    var lost := Next(s, Lose(w));
    assert lost.gate.None? && lost.join == s.join && !SessionOf(lost, w).Open?;
    var gated := Next(lost, HaltLock(h));
    assert gated.join == s.join && gated.halters[h] == Halter(false, true);
  }

  /** A halt behind its lock, and a dispatcher that waits for the lock and would be let through. */
  predicate Racing(s: State, w: nat, h: nat) {
    && h in s.halters && !s.halters[h].done && s.halters[h].alive && s.gate == Some(Halt(h)) && !s.halted
    && w in s.join.workers && s.join.workers[w].pc == P.Idle(RequestJoin) && SessionOf(s, w).Unopened?
    && MayMark(s.join.table, P.TicketOf(s.join, w), RequestJoin, true)
  }

  /** The lock is free again although the halt goes on, and the dispatcher gets through to its final recheck. */
  function GotThrough(s: State, w: nat, h: nat): State {
    Next(Next(Next(Next(s, HaltLose(h)), Lock(w)), Join(P.Mark(w, true))), Join(P.Admit(w, true)))
  }

  lemma RacerGetsThrough(s: State, w: nat, h: nat)
    requires Racing(s, w, h)
    ensures var t := GotThrough(s, w, h);
            && IsAdmitted(t, w) && SessionOf(t, w).Open? && !t.halted && t.notes == s.notes
            && h in t.halters && t.halters[h] == Halter(false, false) && |t.join.posts| == |s.join.posts|
  {
    var lost := Next(s, HaltLose(h));
    var locked := Next(lost, Lock(w));
    assert locked.join == s.join && SessionOf(locked, w).Open? && locked.halters[h] == Halter(false, false);
    var marked := Next(locked, Join(P.Mark(w, true)));
    assert marked.join.workers[w].pc == P.Marked(RequestJoin);
    assert marked.join.table == MarkTx(s.join.table, P.TicketOf(s.join, w), RequestJoin, true);
    assert P.TicketOf(marked.join, w) == P.TicketOf(s.join, w);
  }

  /** From every such state the halt can lose its session and the request still be sent behind it. */
  lemma HaltGapIsOpen(s: State, w: nat, h: nat)
    requires Racing(s, w, h)
    ensures var halted := Next(GotThrough(s, w, h), HaltCommit(h));
            var sent := Next(halted, Join(P.Dispatch(w)));
            halted.lapsed && sent.notes == s.notes + [Note(true, true)] && |sent.join.posts| == |s.join.posts| + 1
  {
    RacerGetsThrough(s, w, h);
  }

  lemma Do(s0: State, events: seq<Event>, e: Event) returns (more: seq<Event>)
    ensures more == events + [e] && Run(s0, more) == Next(Run(s0, events), e)
  {
    more := events + [e];
    assert more[..|more| - 1] == events;
  }

  /** Such a state is reached by a claim and a halt that is first at the lock. */
  lemma RacingIsReached() returns (s0: State, events: seq<Event>)
    ensures Initial(s0) && Racing(Run(s0, events), 0, 1)
  {
    var row := Exec(Ready, None, 0, 0, 0, false, false);
    s0 := State(P.State(Table(0, row, [], []), map[], []), None, map[], map[], false, false, []);
    events := Do(s0, [], Join(P.Spawn(0)));
    events := Do(s0, events, Join(P.Claim(0, 60, 60, true)));
    var claimed := Run(s0, events);
    assert claimed.join.table.exec == row.(lease := Some(Lease(0, 60)), epoch := 1);
    assert claimed.join.workers[0] == P.Worker(P.Idle(RequestJoin), 1, false);
    events := Do(s0, events, HaltLock(1));
  }

  // ----- what a halt and a lost session stop at once

  /** An authorization ends by the commit of a halt only. */
  lemma {:induction false} HaltedByAHalt(s0: State, events: seq<Event>)
    requires Initial(s0) && Run(s0, events).halted
    ensures exists e :: e in events && e.HaltCommit?
  {
    var init, last := events[..|events| - 1], events[|events| - 1];
    if Run(s0, init).halted {
      HaltedByAHalt(s0, init);
    } else {
      assert last in events && last.HaltCommit?;
    }
  }

  lemma StepMarksNothing(s: State, e: Event)
    requires s.halted
    ensures var a, b := s.join.table.exec, Next(s, e).join.table.exec;
            Next(s, e).halted && b.requests == a.requests && b.accepts == a.accepts
  {
  }

  /** Behind a committed halt no stage is marked, in any continuation. */
  lemma {:induction false} NothingIsMarkedAfterHalt(s: State, more: seq<Event>)
    requires s.halted
    ensures var a, b := s.join.table.exec, Run(s, more).join.table.exec;
            Run(s, more).halted && b.requests == a.requests && b.accepts == a.accepts
  {
    if more != [] {
      NothingIsMarkedAfterHalt(s, more[..|more| - 1]);
      StepMarksNothing(Run(s, more[..|more| - 1]), more[|more| - 1]);
    }
  }

  /** Without its session a dispatcher marks, rechecks and finishes nothing. */
  lemma StatementsNeedTheSession(s: State, step: P.Event)
    requires (step.Mark? || step.Admit? || step.Finish?) && !SessionOf(s, step.worker).Open?
    requires step.Finish? ==> step.worker in s.join.workers && s.join.workers[step.worker].pc.Sent?
    ensures Next(s, Join(step)) == s
  {
  }

  /** With it, the reply to a POST is finished as in the protocol. */
  lemma FinishGoesThrough(s: State, step: P.Event)
    requires step.Finish? && SessionOf(s, step.worker).Open?
    ensures Next(s, Join(step)).join == P.Next(s.join, step)
  {
  }
}
