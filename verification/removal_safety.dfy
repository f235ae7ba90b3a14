/**
 What holds in every run of the removal protocol: any number of handlers, crashes,
 lease expiries, renewed claims, verifications, stops and revocations.
 */
module RemovalSafety {
  import opened Common
  import opened RemovalTables
  import opened RemovalProtocol

  lemma ActKeepsActors(s: State, w: nat, a: Action)
    requires Inv(s) && w in s.workers && WorkerInv(s, w)
    ensures ActorsInv(Acted(s, w, a))
  {
    ActIsSound(s, w, a);
    var s' := Acted(s, w, a);
    forall x | x in s'.workers ensures WorkerInv(s', x) {
      assert WorkerInv(s, x);
      if x != w { StepKeepsWorker(s, s', w, x); }
    }
    forall h | h in s'.halters ensures HalterInv(s', h) { StepKeepsHalter(s, s', w, h); }
  }

  lemma ActKeepsRows(s: State, w: nat, a: Action)
    requires Inv(s) && w in s.workers && WorkerInv(s, w)
    ensures RowsInv(Acted(s, w, a))
  {
    ActIsSound(s, w, a);
    var s' := Acted(s, w, a);
    forall id | id in s'.rows.slots ensures SlotInv(s', id) { ActKeepsSlot(s, w, a, id); }
    forall x, y | x in s'.rows.slots && y in s'.rows.slots ensures Exclusive(s', x, y) {
      assert Exclusive(s, x, y);
      StepKeepsExclusive(s, s', w, x, y);
    }
  }

  lemma ActKeepsSends(s: State, w: nat, a: Action)
    requires Inv(s) && w in s.workers && WorkerInv(s, w)
    ensures SendsInv(Acted(s, w, a))
  {
    ActIsSound(s, w, a);
    var s' := Acted(s, w, a);
    DispatchIsNew(s, w, a);
    forall i: nat | i < |s'.sends| ensures SendInv(s', i) {
      if i < |s.sends| { StepKeepsSend(s, s', w, i); }
    }
  }

  lemma ActPreserves(s: State, w: nat, a: Action)
    requires Inv(s) && w in s.workers
    ensures Inv(Next(s, Act(w, a)))
  {
    assert WorkerInv(s, w);
    ActKeepsActors(s, w, a);
    ActKeepsRows(s, w, a);
    ActKeepsSends(s, w, a);
  }

  lemma HaltPreserves(s: State, e: Event)
    requires Inv(s) && (e.HaltLock? || e.HaltCommit? || e.HaltClose?) && e.halter in s.halters
    ensures Inv(Next(s, e))
  {
    assert HalterInv(s, e.halter);
    var s' := Next(s, e);
    forall x | x in s'.workers ensures WorkerInv(s', x) { HaltKeepsWorker(s, e, x); }
    forall h | h in s'.halters ensures HalterInv(s', h) { HaltKeepsHalter(s, e, h); }
    forall id | id in s'.rows.slots ensures SlotInv(s', id) { HaltKeepsSlot(s, e, id); }
    forall i: nat | i < |s'.sends| ensures SendInv(s', i) { HaltKeepsSend(s, e, i); }
    forall x, y | x in s'.rows.slots && y in s'.rows.slots ensures Exclusive(s', x, y) {
      assert Exclusive(s, x, y);
      HaltKeepsExclusive(s, e, x, y);
    }
  }

  lemma SessionLossPreserves(s: State, a: nat)
    requires Inv(s)
    ensures Inv(Next(s, SessionLost(a)))
  {
    assert a in s.workers ==> WorkerInv(s, a);
    assert a in s.halters ==> HalterInv(s, a);
    var s' := Next(s, SessionLost(a));
    forall x | x in s'.workers ensures WorkerInv(s', x) { SessionLossKeepsWorker(s, a, x); }
    forall h | h in s'.halters ensures HalterInv(s', h) { SessionLossKeepsHalter(s, a, h); }
    forall id | id in s'.rows.slots ensures SlotInv(s', id) { assert SlotInv(s, id); }
    forall i: nat | i < |s'.sends| ensures SendInv(s', i) { assert SendInv(s, i); }
    forall x, y | x in s'.rows.slots && y in s'.rows.slots ensures Exclusive(s', x, y) { assert Exclusive(s, x, y); }
  }

  /** What the clock, a drifting fact and new handlers leave alone. */
  ghost predicate Background(s: State, s': State)
    requires s.rows.Scoped()
  {
    && s'.rows.Scoped() && s'.rows.slots == s.rows.slots && s'.rows.evidence == s.rows.evidence && s.rows.now <= s'.rows.now
    && s'.gate == s.gate && s'.sends == s.sends && s'.lapsed == s.lapsed
    && s'.rows.previews.Keys == s.rows.previews.Keys
    && (forall p :: p in s.rows.previews ==>
          && s'.rows.previews[p].workspace == s.rows.previews[p].workspace
          && s'.rows.previews[p].Halted() == s.rows.previews[p].Halted())
    && s'.workers.Keys !! s'.halters.Keys
    && (forall w :: w in s.workers ==> w in s'.workers && s'.workers[w] == s.workers[w])
    && (forall w :: w in s'.workers && w !in s.workers ==>
          s'.workers[w].slot in s.rows.slots && s'.workers[w] == Worker(s'.workers[w].slot, s'.workers[w].verify, false, Waiting, true, 0, false))
    && (forall h :: h in s.halters ==> h in s'.halters && s'.halters[h] == s.halters[h])
    && (forall h :: h in s'.halters && h !in s.halters ==>
          s'.halters[h].preview in s.rows.previews && s'.halters[h].pc == HaltWaiting)
  }

  lemma BackgroundKeepsActors(s: State, s': State)
    requires Inv(s) && Background(s, s')
    ensures ActorsInv(s')
  {
    forall w | w in s'.workers ensures WorkerInv(s', w) { assert w in s.workers ==> WorkerInv(s, w); }
    forall h | h in s'.halters ensures HalterInv(s', h) { assert h in s.halters ==> HalterInv(s, h); }
  }

  lemma BackgroundKeepsRows(s: State, s': State)
    requires Inv(s) && Background(s, s')
    ensures RowsInv(s')
  {
    forall id | id in s'.rows.slots ensures SlotInv(s', id) { assert SlotInv(s, id); }
    forall x, y | x in s'.rows.slots && y in s'.rows.slots ensures Exclusive(s', x, y) { assert Exclusive(s, x, y); }
  }

  lemma BackgroundKeepsSends(s: State, s': State)
    requires Inv(s) && Background(s, s')
    ensures SendsInv(s')
  {
    forall i: nat | i < |s'.sends| ensures SendInv(s', i) { assert SendInv(s, i); }
  }

  lemma BackgroundPreserves(s: State, s': State)
    requires Inv(s) && Background(s, s')
    ensures Inv(s')
  {
    BackgroundKeepsActors(s, s');
    BackgroundKeepsRows(s, s');
    BackgroundKeepsSends(s, s');
  }

  lemma Populations(s: State)
    requires Inv(s)
    ensures s.workers.Keys !! s.halters.Keys
  {
    forall w | w in s.workers ensures w !in s.halters { assert WorkerInv(s, w); }
  }

  lemma TickIsBackground(s: State, e: Event)
    requires s.rows.Scoped() && s.workers.Keys !! s.halters.Keys && e.Tick?
    ensures Background(s, Next(s, e))
  {
  }

  lemma DriftIsBackground(s: State, e: Event)
    requires s.rows.Scoped() && s.workers.Keys !! s.halters.Keys && e.Drift?
    ensures Background(s, Next(s, e))
  {
  }

  lemma SpawnIsBackground(s: State, e: Event)
    requires s.rows.Scoped() && s.workers.Keys !! s.halters.Keys && e.Spawn?
    ensures Background(s, Next(s, e))
  {
  }

  lemma SpawnHaltIsBackground(s: State, e: Event)
    requires s.rows.Scoped() && s.workers.Keys !! s.halters.Keys && e.SpawnHalt?
    ensures Background(s, Next(s, e))
  {
  }

  /** The inductive step: whatever happens next, the invariants survive. */
  lemma StepPreserves(s: State, e: Event)
    requires Inv(s)
    ensures Inv(Next(s, e))
  {
    Populations(s);
    if e.Tick? { TickIsBackground(s, e); BackgroundPreserves(s, Next(s, e)); }
    else if e.Drift? { DriftIsBackground(s, e); BackgroundPreserves(s, Next(s, e)); }
    else if e.Spawn? { SpawnIsBackground(s, e); BackgroundPreserves(s, Next(s, e)); }
    else if e.SpawnHalt? { SpawnHaltIsBackground(s, e); BackgroundPreserves(s, Next(s, e)); }
    else if e.SessionLost? { SessionLossPreserves(s, e.actor); }
    else if e.Act? {
      if e.worker in s.workers { ActPreserves(s, e.worker, e.action); }
    }
    else if e.halter in s.halters { HaltPreserves(s, e); }
  }

  lemma {:induction false} Reachable(s0: State, events: seq<Event>)
    requires Initial(s0)
    ensures Inv(Run(s0, events))
  {
    if events != [] {
      Reachable(s0, events[..|events| - 1]);
      StepPreserves(Run(s0, events[..|events| - 1]), events[|events| - 1]);
    }
  }

  // ----- the DELETE

  /**
   In every run at most one DELETE is dispatched per slot. Each was preceded by a committed
   request identity, the sender's own, and that identity is still the one in the row.
   */
  lemma {:induction false} AtMostOneDelete(s0: State, events: seq<Event>)
    requires Initial(s0)
    ensures var s := Run(s0, events);
            && (forall i: nat, j: nat :: i < j < |s.sends| ==> s.sends[i].slot != s.sends[j].slot)
            && (forall i: nat :: i < |s.sends| ==>
                  && s.sends[i].slot in s.rows.slots
                  && s.sends[i].request == Some(s.sends[i].worker) == s.rows.slots[s.sends[i].slot].request)
  {
    Reachable(s0, events);
    var s := Run(s0, events);
    forall i: nat | i < |s.sends|
      ensures s.sends[i].slot in s.rows.slots && s.sends[i].request == Some(s.sends[i].worker) == s.rows.slots[s.sends[i].slot].request
    {
      assert SendInv(s, i);
    }
    forall i: nat, j: nat | i < j < |s.sends| ensures s.sends[i].slot != s.sends[j].slot {
      assert SendInv(s, i) && SendInv(s, j);
    }
  }

  /** What a handler goes by: the verdict of the roster it read last. */
  function Verdict(pc: Pc): Option<bool> {
    match pc
    case Seen(absent) => Some(absent)
    case Committing(absent) => Some(absent)
    case Ready => Some(false)
    case Armed => Some(false)
    case Reserved => Some(false)
    case Probed => Some(false)
    case _ => None
  }

  /** At step `n` this handler of this slot read a complete roster, and saw the target there or not. */
  ghost predicate ReadAt(s0: State, events: seq<Event>, n: nat, w: nat, slot: nat, absent: bool)
    requires s0.rows.Scoped() && n < |events|
  {
    var s := Run(s0, events[..n]);
    && events[n] == Act(w, Snapshot(absent)) && w in s.workers && s.workers[w].slot == slot
    && (s.workers[w].pc == Reading || s.workers[w].pc == Verifying)
  }

  ghost predicate WasRead(s0: State, events: seq<Event>, w: nat, slot: nat, absent: bool)
    requires s0.rows.Scoped()
  {
    exists n: nat :: n < |events| && ReadAt(s0, events, n, w, slot, absent)
  }

  lemma WasReadLonger(s0: State, events: seq<Event>, k: nat, w: nat, slot: nat, absent: bool)
    requires s0.rows.Scoped() && k <= |events| && WasRead(s0, events[..k], w, slot, absent)
    ensures WasRead(s0, events, w, slot, absent)
  {
    var n: nat :| n < |events[..k]| && ReadAt(s0, events[..k], n, w, slot, absent);
    assert events[..k][..n] == events[..n];
    assert ReadAt(s0, events, n, w, slot, absent);
  }

  lemma TransactionKeepsVerdict(s: State, w: nat, a: Action)
    requires s.rows.Scoped() && WorkerInv(s, w) && Transactional(a)
    ensures var s' := Acted(s, w, a);
            w in s'.workers && (Verdict(s'.workers[w].pc).Some? ==> Verdict(s'.workers[w].pc) == Verdict(s.workers[w].pc))
  {
  }

  lemma StrideKeepsVerdict(s: State, w: nat, a: Action)
    requires s.rows.Scoped() && WorkerInv(s, w) && !Transactional(a)
    ensures var s' := Acted(s, w, a);
            w in s'.workers &&
            (Verdict(s'.workers[w].pc).Some? ==>
               || Verdict(s'.workers[w].pc) == Verdict(s.workers[w].pc)
               || (a == Snapshot(Verdict(s'.workers[w].pc).value) && (s.workers[w].pc == Reading || s.workers[w].pc == Verifying)))
  {
  }

  lemma OwnReadsHere(s: State, w: nat, a: Action)
    requires Inv(s) && w in s.workers && WorkerInv(s, w)
    ensures var s' := Acted(s, w, a);
            && w in s'.workers && s'.workers[w].slot == s.workers[w].slot
            && (Verdict(s'.workers[w].pc).Some? ==>
                  || Verdict(s'.workers[w].pc) == Verdict(s.workers[w].pc)
                  || (a == Snapshot(Verdict(s'.workers[w].pc).value) && (s.workers[w].pc == Reading || s.workers[w].pc == Verifying)))
  {
    ActIsSound(s, w, a);
    if Transactional(a) { TransactionKeepsVerdict(s, w, a); } else { StrideKeepsVerdict(s, w, a); }
  }

  lemma ReadsHere(s: State, e: Event, w: nat)
    requires Inv(s) && w in Next(s, e).workers && Verdict(Next(s, e).workers[w].pc).Some?
    ensures var absent := Verdict(Next(s, e).workers[w].pc).value;
            && w in s.workers && Next(s, e).workers[w].slot == s.workers[w].slot
            && (Verdict(s.workers[w].pc) == Some(absent)
                || (e == Act(w, Snapshot(absent)) && (s.workers[w].pc == Reading || s.workers[w].pc == Verifying)))
  {
    if !e.Act? {
      QuietKeepsPlace(s, e, w);
    } else if e.worker in s.workers {
      assert WorkerInv(s, e.worker);
      ActIsSound(s, e.worker, e.action);
      if e.worker == w { OwnReadsHere(s, w, e.action); }
    }
  }

  lemma {:induction false} VerdictWasRead(s0: State, events: seq<Event>, w: nat)
    requires Initial(s0) && w in Run(s0, events).workers && Verdict(Run(s0, events).workers[w].pc).Some?
    ensures var k := Run(s0, events).workers[w]; WasRead(s0, events, w, k.slot, Verdict(k.pc).value)
  {
    var k, x := |events| - 1, Run(s0, events).workers[w];
    Reachable(s0, events[..k]);
    ReadsHere(Run(s0, events[..k]), events[k], w);
    if Verdict(Run(s0, events[..k]).workers[w].pc) == Verdict(x.pc) {
      VerdictWasRead(s0, events[..k], w);
      WasReadLonger(s0, events, k, w, x.slot, Verdict(x.pc).value);
    } else {
      assert ReadAt(s0, events, k, w, x.slot, Verdict(x.pc).value);
    }
  }

  /** A DELETE leaves only behind a complete roster, read by its own sender, that still showed the target. */
  lemma {:induction false} DeleteFollowsPresence(s0: State, events: seq<Event>, i: nat)
    requires Initial(s0) && i < |Run(s0, events).sends|
    ensures var d := Run(s0, events).sends[i]; WasRead(s0, events, d.worker, d.slot, false)
  {
    var k, d := |events| - 1, Run(s0, events).sends[i];
    var s := Run(s0, events[..k]);
    SendsHere(s, events[k], i);
    if i < |s.sends| {
      DeleteFollowsPresence(s0, events[..k], i);
    } else {
      VerdictWasRead(s0, events[..k], d.worker);
    }
    WasReadLonger(s0, events, k, d.worker, d.slot, false);
  }

  lemma RecordsHere(s: State, e: Event, i: nat)
    requires Inv(s) && i < |Next(s, e).rows.evidence|
    ensures var v := Next(s, e).rows.evidence[i];
            if i < |s.rows.evidence| then v == s.rows.evidence[i]
            else e.Act? && e.worker in s.workers && s.workers[e.worker].slot == v.slot && s.workers[e.worker].pc == Committing(v.absent)
                 && s.workers[e.worker].epoch == v.epoch
  {
    if e.Act? && e.worker in s.workers { assert WorkerInv(s, e.worker); }
  }

  /** Evidence says what a handler of its slot read, the absence that discharges included. */
  lemma {:induction false} EvidenceWasRead(s0: State, events: seq<Event>, i: nat)
    requires Initial(s0) && i < |Run(s0, events).rows.evidence|
    ensures var v := Run(s0, events).rows.evidence[i]; exists w :: WasRead(s0, events, w, v.slot, v.absent)
  {
    var k, v := |events| - 1, Run(s0, events).rows.evidence[i];
    var s := Run(s0, events[..k]);
    Reachable(s0, events[..k]);
    RecordsHere(s, events[k], i);
    if i < |s.rows.evidence| {
      EvidenceWasRead(s0, events[..k], i);
      var w :| WasRead(s0, events[..k], w, v.slot, v.absent);
      WasReadLonger(s0, events, k, w, v.slot, v.absent);
    } else {
      VerdictWasRead(s0, events[..k], events[k].worker);
      WasReadLonger(s0, events, k, events[k].worker, v.slot, v.absent);
    }
  }

  /** At step `n` the sender's session dies behind its probe, where nothing of it notices any more. */
  ghost predicate SenderLostAt(s0: State, events: seq<Event>, n: nat, w: nat)
    requires s0.rows.Scoped() && n < |events|
  {
    var s := Run(s0, events[..n]);
    events[n] == SessionLost(w) && w in s.workers && s.workers[w].pc == Probed && s.workers[w].alive
  }

  /** At step `m` the session of a stop or revoke dies while it holds the workspace lock. */
  ghost predicate HalterLostAt(s0: State, events: seq<Event>, m: nat, h: nat)
    requires s0.rows.Scoped() && m < |events|
  {
    var s := Run(s0, events[..m]);
    events[m] == SessionLost(h) && h in s.halters && s.halters[h].pc == HaltGated && s.halters[h].alive
  }

  /** At step `n` a stop or revoke of this authorization commits without the lock it took. */
  ghost predicate LapsesAt(s0: State, events: seq<Event>, m: nat, n: nat, h: nat, p: nat)
    requires s0.rows.Scoped() && m < n < |events|
  {
    var s := Run(s0, events[..n]);
    && HalterLostAt(s0, events, m, h)
    && events[n] == HaltCommit(h) && h in s.halters && s.halters[h].preview == p && s.halters[h].pc == HaltGated
    && HaltApplies(s.rows, p, s.halters[h].revoke)
  }

  ghost predicate SenderLost(s0: State, events: seq<Event>, w: nat)
    requires s0.rows.Scoped()
  {
    exists n: nat :: n < |events| && SenderLostAt(s0, events, n, w)
  }

  ghost predicate HalterLost(s0: State, events: seq<Event>, h: nat)
    requires s0.rows.Scoped()
  {
    exists m: nat :: m < |events| && HalterLostAt(s0, events, m, h)
  }

  ghost predicate Lapses(s0: State, events: seq<Event>, p: nat)
    requires s0.rows.Scoped()
  {
    exists m: nat, n: nat, h: nat :: m < n < |events| && LapsesAt(s0, events, m, n, h, p)
  }

  lemma SenderLostLonger(s0: State, events: seq<Event>, k: nat, w: nat)
    requires s0.rows.Scoped() && k <= |events| && SenderLost(s0, events[..k], w)
    ensures SenderLost(s0, events, w)
  {
    var n: nat :| n < |events[..k]| && SenderLostAt(s0, events[..k], n, w);
    assert events[..k][..n] == events[..n];
    assert SenderLostAt(s0, events, n, w);
  }

  lemma HalterLostLonger(s0: State, events: seq<Event>, k: nat, m: nat, h: nat)
    requires s0.rows.Scoped() && m < k <= |events| && HalterLostAt(s0, events[..k], m, h)
    ensures HalterLostAt(s0, events, m, h)
  {
    assert events[..k][..m] == events[..m];
  }

  lemma LapsesAtLonger(s0: State, events: seq<Event>, k: nat, m: nat, n: nat, h: nat, p: nat)
    requires s0.rows.Scoped() && m < n < k <= |events| && LapsesAt(s0, events[..k], m, n, h, p)
    ensures LapsesAt(s0, events, m, n, h, p)
  {
    HalterLostLonger(s0, events, k, m, h);
    assert events[..k][..n] == events[..n];
  }

  lemma LapsesLonger(s0: State, events: seq<Event>, k: nat, p: nat)
    requires s0.rows.Scoped() && k <= |events| && Lapses(s0, events[..k], p)
    ensures Lapses(s0, events, p)
  {
    var m: nat, n: nat, h: nat :| m < n < |events[..k]| && LapsesAt(s0, events[..k], m, n, h, p);
    LapsesAtLonger(s0, events, k, m, n, h, p);
  }

  /** A probed handler without a session lost it after its probe. */
  lemma {:induction false} DeadProberWasLost(s0: State, events: seq<Event>, w: nat)
    requires Initial(s0) && w in Run(s0, events).workers
    requires Run(s0, events).workers[w].pc == Probed && !Run(s0, events).workers[w].alive
    ensures SenderLost(s0, events, w)
  {
    var k := |events| - 1;
    var s := Run(s0, events[..k]);
    Reachable(s0, events[..k]);
    ProberDies(s, events[k], w);
    if s.workers[w].alive {
      assert SenderLostAt(s0, events, k, w);
    } else {
      DeadProberWasLost(s0, events[..k], w);
      SenderLostLonger(s0, events, k, w);
    }
  }

  lemma ProberDies(s: State, e: Event, w: nat)
    requires Inv(s) && w in Next(s, e).workers && Next(s, e).workers[w].pc == Probed && !Next(s, e).workers[w].alive
    ensures w in s.workers && s.workers[w].pc == Probed && (s.workers[w].alive ==> e == SessionLost(w))
  {
    if !e.Act? {
      QuietKeepsPlace(s, e, w);
    } else if e.worker in s.workers {
      assert WorkerInv(s, e.worker);
      ActIsSound(s, e.worker, e.action);
    }
  }

  lemma QuietKeepsPlace(s: State, e: Event, w: nat)
    requires s.rows.Scoped() && !e.Act? && w in Next(s, e).workers
    ensures if w in s.workers then Next(s, e).workers[w] == s.workers[w].(alive := Next(s, e).workers[w].alive)
            else Next(s, e).workers[w].pc == Waiting
    ensures w in s.workers && Next(s, e).workers[w].alive != s.workers[w].alive ==> e == SessionLost(w)
  {
  }

  /** A halt behind its lock without a session lost it after the lock. */
  lemma {:induction false} DeadHalterWasLost(s0: State, events: seq<Event>, h: nat)
    requires Initial(s0) && h in Run(s0, events).halters
    requires Run(s0, events).halters[h].pc == HaltGated && !Run(s0, events).halters[h].alive
    ensures HalterLost(s0, events, h)
  {
    var k := |events| - 1;
    var s := Run(s0, events[..k]);
    Reachable(s0, events[..k]);
    HalterDies(s, events[k], h);
    if s.halters[h].alive {
      assert HalterLostAt(s0, events, k, h);
    } else {
      DeadHalterWasLost(s0, events[..k], h);
      var m: nat :| m < |events[..k]| && HalterLostAt(s0, events[..k], m, h);
      HalterLostLonger(s0, events, k, m, h);
    }
  }

  lemma HalterDies(s: State, e: Event, h: nat)
    requires Inv(s) && h in Next(s, e).halters && Next(s, e).halters[h].pc == HaltGated && !Next(s, e).halters[h].alive
    ensures h in s.halters && s.halters[h].pc == HaltGated && (s.halters[h].alive ==> e == SessionLost(h))
  {
    if e.Act? && e.worker in s.workers {
      assert WorkerInv(s, e.worker);
      ActIsSound(s, e.worker, e.action);
    }
  }

  /** An authorization counts as lapsed only through a halt of its own that lost its session. */
  lemma {:induction false} LapsedByItsOwnHalt(s0: State, events: seq<Event>, p: nat)
    requires Initial(s0) && p in Run(s0, events).lapsed
    ensures Lapses(s0, events, p)
  {
    var k := |events| - 1;
    var s := Run(s0, events[..k]);
    if p in s.lapsed {
      LapsedByItsOwnHalt(s0, events[..k], p);
      LapsesLonger(s0, events, k, p);
    } else {
      Reachable(s0, events[..k]);
      LapsesHere(s, events[k], p);
      var h := events[k].halter;
      DeadHalterWasLost(s0, events[..k], h);
      var m: nat :| m < |events[..k]| && HalterLostAt(s0, events[..k], m, h);
      HalterLostLonger(s0, events, k, m, h);
      assert LapsesAt(s0, events, m, k, h, p);
    }
  }

  lemma LapsesHere(s: State, e: Event, p: nat)
    requires Inv(s) && p in Next(s, e).lapsed && p !in s.lapsed
    ensures e.HaltCommit? && e.halter in s.halters
    ensures var h := s.halters[e.halter];
            h.preview == p && h.pc == HaltGated && !h.alive && HaltApplies(s.rows, p, h.revoke)
  {
    if e.Act? && e.worker in s.workers {
      assert WorkerInv(s, e.worker);
      ActIsSound(s, e.worker, e.action);
    }
  }

  /** Whose send it is: an earlier one, or that of the probed handler that just acted. */
  lemma SendsHere(s: State, e: Event, i: nat)
    requires s.rows.Scoped() && i < |Next(s, e).sends|
    ensures var d := Next(s, e).sends[i];
            if i < |s.sends| then d == s.sends[i]
            else d.worker in s.workers && s.workers[d.worker].pc == Probed && s.workers[d.worker].alive == d.alive
                 && s.workers[d.worker].slot == d.slot
  {
  }

  /** A send without a session was made by a handler that lost it after its probe. */
  lemma {:induction false} DeadSenderWasLost(s0: State, events: seq<Event>, i: nat, d: Send)
    requires Initial(s0) && i < |Run(s0, events).sends| && Run(s0, events).sends[i] == d && !d.alive
    ensures SenderLost(s0, events, d.worker)
  {
    var k := |events| - 1;
    SendsHere(Run(s0, events[..k]), events[k], i);
    if i < |Run(s0, events[..k]).sends| {
      DeadSenderWasLost(s0, events[..k], i, d);
    } else {
      DeadProberWasLost(s0, events[..k], d.worker);
    }
    SenderLostLonger(s0, events, k, d.worker);
  }

  /**
   A DELETE that follows a committed stop or revoke of its authorization has a lost session of its
   own to blame: either its sender's session died behind that sender's probe, or a stop or revoke
   of that very authorization committed after its own session had died. Lost sessions of other
   handlers, authorizations and workspaces never open the fence.
   */
  lemma {:induction false} NoDeleteAfterHalt(s0: State, events: seq<Event>, i: nat)
    requires Initial(s0) && i < |Run(s0, events).sends| && Run(s0, events).sends[i].afterHalt
    ensures var s := Run(s0, events); var d := s.sends[i];
            d.slot in s.rows.slots && (SenderLost(s0, events, d.worker) || Lapses(s0, events, s.rows.slots[d.slot].preview))
  {
    Reachable(s0, events);
    var s := Run(s0, events);
    assert SendInv(s, i);
    if s.sends[i].alive {
      LapsedByItsOwnHalt(s0, events, s.rows.slots[s.sends[i].slot].preview);
    } else {
      DeadSenderWasLost(s0, events, i, s.sends[i]);
    }
  }

  /** What no later event undoes. */
  ghost predicate Later(a: State, b: State)
    requires a.rows.Scoped() && b.rows.Scoped()
  {
    && a.rows.slots.Keys == b.rows.slots.Keys && a.rows.now <= b.rows.now
    && a.rows.evidence <= b.rows.evidence && a.sends <= b.sends
    && (forall id {:trigger b.rows.slots[id]} :: id in a.rows.slots ==> RowLater(a.rows.slots[id], b.rows.slots[id]))
  }

  ghost predicate RowLater(x: Slot, y: Slot) {
    && x.preview == y.preview && x.epoch <= y.epoch && x.attempts <= y.attempts
    && (x.request.Some? ==> y.request == x.request)
    && (x.state == Stopped ==> y.state == Stopped)
  }

  lemma ActIsLater(s: State, w: nat, a: Action)
    requires s.rows.Scoped() && WorkerInv(s, w)
    ensures Later(s, Acted(s, w, a))
  {
    ActIsSound(s, w, a);
  }

  lemma QuietIsLater(s: State, e: Event)
    requires s.rows.Scoped() && !e.Act?
    ensures Later(s, Next(s, e))
  {
  }

  lemma StepIsLater(s: State, e: Event)
    requires Inv(s)
    ensures Later(s, Next(s, e))
  {
    if !e.Act? {
      QuietIsLater(s, e);
    } else if e.worker in s.workers {
      assert WorkerInv(s, e.worker);
      ActIsLater(s, e.worker, e.action);
    }
  }

  lemma LaterChains(a: State, b: State, c: State)
    requires a.rows.Scoped() && b.rows.Scoped() && c.rows.Scoped() && Later(a, b) && Later(b, c)
    ensures Later(a, c)
  {
    forall id | id in a.rows.slots ensures RowLater(a.rows.slots[id], c.rows.slots[id]) {
      assert RowLater(a.rows.slots[id], b.rows.slots[id]) && RowLater(b.rows.slots[id], c.rows.slots[id]);
    }
  }

  /**
   Over any continuation of any run: request identities are never cleared or replaced, lease
   epochs never decrease, a stopped slot stays stopped, evidence and sends are append-only.
   */
  lemma {:induction false} HistoryIsKept(s0: State, events: seq<Event>, more: seq<Event>)
    requires Initial(s0)
    ensures Later(Run(s0, events), Run(s0, events + more))
  {
    if more == [] {
      assert events + more == events;
    } else {
      var m := more[..|more| - 1];
      HistoryIsKept(s0, events, m);
      Reachable(s0, events + m);
      assert (events + more)[..|events + more| - 1] == events + m;
      StepIsLater(Run(s0, events + m), more[|more| - 1]);
      LaterChains(Run(s0, events), Run(s0, events + m), Run(s0, events + more));
    }
  }

  // ----- obligations

  /** An obligation names a request; a request without an obligation has the target's absence as its latest evidence. */
  lemma {:induction false} ObligationsHold(s0: State, events: seq<Event>, id: nat)
    requires Initial(s0) && id in Run(s0, events).rows.slots
    ensures var x := Run(s0, events).rows.slots[id];
            var latest := Latest(Run(s0, events).rows.evidence, id);
            && (x.uncertain ==> x.request.Some?)
            && (x.request.Some? && !x.uncertain ==> latest.Some? && latest.value.absent)
            && (x.state == AbsentVerified ==> x.request.Some? && !x.uncertain)
  {
    Reachable(s0, events);
    assert SlotInv(Run(s0, events), id);
  }

  predicate Discharges(s: State, w: nat, a: Action)
    requires w in s.workers
  {
    a.Commit? && s.workers[w].pc == Committing(true) && !s.workers[w].reconcile && LeaseTx(s.rows, TicketOf(s, w), a.facts)
  }

  lemma ActDischarges(s: State, w: nat, a: Action, id: nat)
    requires s.rows.Scoped() && WorkerInv(s, w) && SlotInv(s, id) && s.rows.slots[id].uncertain
    ensures id in Acted(s, w, a).rows.slots
    ensures !Acted(s, w, a).rows.slots[id].uncertain <==> s.workers[w].slot == id && Discharges(s, w, a)
  {
    TransactRows(s, w, a, id);
  }

  lemma QuietKeepsDuty(s: State, e: Event, id: nat)
    requires s.rows.Scoped() && !e.Act? && id in s.rows.slots
    ensures id in Next(s, e).rows.slots && Next(s, e).rows.slots[id].uncertain == s.rows.slots[id].uncertain
  {
  }

  /**
   Exactly one kind of step discharges an obligation: the current lease holder, under a live
   authorization, commits a roster without the target.
   */
  lemma DischargedOnlyByAbsence(s: State, e: Event, id: nat)
    requires Inv(s) && id in s.rows.slots && s.rows.slots[id].uncertain
    ensures id in Next(s, e).rows.slots
    ensures !Next(s, e).rows.slots[id].uncertain <==>
              e.Act? && e.worker in s.workers && s.workers[e.worker].slot == id && Discharges(s, e.worker, e.action)
  {
    if !e.Act? {
      QuietKeepsDuty(s, e, id);
    } else if e.worker in s.workers {
      assert WorkerInv(s, e.worker) && SlotInv(s, id);
      ActDischarges(s, e.worker, e.action, id);
    }
  }

  // ----- fencing

  /** A handler whose lease was superseded or has expired changes no row. */
  lemma StaleHandlerIsHarmless(s: State, w: nat, a: Action)
    requires s.rows.Scoped() && w in s.workers && s.workers[w].slot in s.rows.slots
    requires !LeaseCurrent(s.rows, TicketOf(s, w)) && s.workers[w].pc != Screened
    ensures Next(s, Act(w, a)).rows == s.rows
  {
  }

  /** The handler has claimed, and its lease is gone. */
  predicate Superseded(s: State, w: nat) {
    w in s.workers && s.workers[w].slot in s.rows.slots && !Unclaimed(s.workers[w].pc) && !LeaseCurrent(s.rows, TicketOf(s, w))
  }

  predicate Holds(x: Slot, now: int, w: nat, epoch: nat) { Live(x, now) && x.lease.value.worker == w && x.epoch == epoch }

  /** In a reachable state a claimed handler's writes are refused exactly when the row carries another lease, or none. */
  lemma CurrentIsHeld(s: State, w: nat)
    requires Inv(s) && w in s.workers && s.workers[w].slot in s.rows.slots && !Unclaimed(s.workers[w].pc)
    ensures LeaseCurrent(s.rows, TicketOf(s, w)) <==> Holds(s.rows.slots[s.workers[w].slot], s.rows.now, w, s.workers[w].epoch)
  {
    assert SlotInv(s, s.workers[w].slot);
  }

  /** The handler stays where it is in the claim order, and what happened to its row and the clock gives no lease back. */
  ghost predicate Outrun(s: State, s': State, w: nat)
    requires s.rows.Scoped() && w in s.workers && s.workers[w].slot in s.rows.slots
  {
    var k := s.workers[w];
    && w in s'.workers && s'.workers[w].slot == k.slot && SameMode(k, s'.workers[w])
    && k.slot in s'.rows.slots && s.rows.now <= s'.rows.now
    && var x, y := s.rows.slots[k.slot], s'.rows.slots[k.slot];
    x.epoch <= y.epoch && (x.epoch == y.epoch ==> y.lease == x.lease || y.lease.None?)
  }

  lemma OwnActIsOutrun(s: State, w: nat, a: Action)
    requires Inv(s) && Superseded(s, w)
    ensures Outrun(s, Acted(s, w, a), w)
  {
    assert WorkerInv(s, w);
    if !Transactional(a) { StrideKeepsMode(s, w, a); }
    ActIsSound(s, w, a);
    StaleHandlerIsHarmless(s, w, a);
    assert Transactional(a) ==> Acted(s, w, a) == s;
  }

  lemma OtherActIsOutrun(s: State, v: nat, a: Action, w: nat)
    requires Inv(s) && v != w && WorkerInv(s, v) && WorkerInv(s, w)
    ensures Outrun(s, Acted(s, v, a), w)
  {
    ActIsSound(s, v, a);
  }

  lemma QuietIsOutrun(s: State, e: Event, w: nat)
    requires s.rows.Scoped() && !e.Act? && w in s.workers && s.workers[w].slot in s.rows.slots
    ensures Outrun(s, Next(s, e), w)
  {
  }

  lemma StepStaysSuperseded(s: State, e: Event, w: nat)
    requires Inv(s) && Inv(Next(s, e)) && Superseded(s, w)
    ensures Superseded(Next(s, e), w)
  {
    assert WorkerInv(s, w);
    CurrentIsHeld(s, w);
    if !e.Act? {
      QuietIsOutrun(s, e, w);
    } else if e.worker == w {
      OwnActIsOutrun(s, w, e.action);
    } else if e.worker in s.workers {
      assert WorkerInv(s, e.worker);
      OtherActIsOutrun(s, e.worker, e.action, w);
    }
    CurrentIsHeld(Next(s, e), w);
  }

  /** Lost once, a lease never comes back: in every continuation each action of its handler leaves the rows alone. */
  lemma {:induction false} StaleHandlerStaysHarmless(s0: State, events: seq<Event>, more: seq<Event>, w: nat, a: Action)
    requires Initial(s0) && Superseded(Run(s0, events), w)
    ensures var s := Run(s0, events + more); Superseded(s, w) && Next(s, Act(w, a)).rows == s.rows
  {
    if more == [] {
      assert events + more == events;
    } else {
      var m := more[..|more| - 1];
      StaleHandlerStaysHarmless(s0, events, m, w, a);
      InitOfConcat(events, more);
      Reachable(s0, events + m);
      Reachable(s0, events + more);
      StepStaysSuperseded(Run(s0, events + m), more[|more| - 1], w);
    }
    StaleHandlerIsHarmless(Run(s0, events + more), w, a);
  }

  /** No two slots of one workspace are ever leased at the same time. */
  lemma {:induction false} OneLeasePerWorkspace(s0: State, events: seq<Event>, a: nat, b: nat)
    requires Initial(s0)
    ensures var r := Run(s0, events).rows;
            a in r.slots && b in r.slots && a != b && r.Workspace(a) == r.Workspace(b) ==>
              !(Live(r.slots[a], r.now) && Live(r.slots[b], r.now))
  {
    Reachable(s0, events);
    var s := Run(s0, events);
    if a in s.rows.slots && b in s.rows.slots { assert Exclusive(s, a, b); }
  }

  predicate ClaimsSlot(s: State, w: nat, a: Action, id: nat)
    requires s.rows.Scoped() && w in s.workers
  {
    a.Claim? && s.workers[w].slot == id && s.workers[w].pc.Screened?
    && MayClaim(s.rows, id, s.workers[w].verify, s.workers[w].reconcile, a.facts)
  }

  predicate HaltsSlot(s: State, h: nat, id: nat)
    requires h in s.halters && id in s.rows.slots
  {
    s.halters[h].pc.HaltGated? && s.halters[h].preview == s.rows.slots[id].preview
    && HaltApplies(s.rows, s.halters[h].preview, s.halters[h].revoke) && s.rows.slots[id].state != Stopped
  }

  lemma ActAdvances(s: State, w: nat, a: Action, id: nat)
    requires s.rows.Scoped() && WorkerInv(s, w) && id in s.rows.slots
    ensures id in Acted(s, w, a).rows.slots
    ensures Acted(s, w, a).rows.slots[id].epoch == s.rows.slots[id].epoch + (if ClaimsSlot(s, w, a, id) then 1 else 0)
    ensures Acted(s, w, a).rows.slots[id].attempts == s.rows.slots[id].attempts + (if ClaimsSlot(s, w, a, id) then 1 else 0)
  {
    TransactRows(s, w, a, id);
  }

  lemma QuietAdvances(s: State, e: Event, id: nat)
    requires s.rows.Scoped() && !e.Act? && id in s.rows.slots
    requires e.HaltCommit? && e.halter in s.halters ==> HalterInv(s, e.halter)
    ensures id in Next(s, e).rows.slots
    ensures Next(s, e).rows.slots[id].epoch == s.rows.slots[id].epoch
                                               + (if e.HaltCommit? && e.halter in s.halters && HaltsSlot(s, e.halter, id) then 1 else 0)
    ensures Next(s, e).rows.slots[id].attempts == s.rows.slots[id].attempts
  {
  }

  /**
   When a slot's lease epoch advances: at every claim, and at a stop or revoke that finds the
   slot in a state other than stopped. Nothing else moves it, and never by more than one. The
   attempts count the claims.
   */
  lemma EpochAdvancesExactly(s: State, e: Event, id: nat)
    requires Inv(s) && id in s.rows.slots
    ensures id in Next(s, e).rows.slots
    ensures var advanced :=
              || (e.Act? && e.worker in s.workers && ClaimsSlot(s, e.worker, e.action, id))
              || (e.HaltCommit? && e.halter in s.halters && HaltsSlot(s, e.halter, id));
            Next(s, e).rows.slots[id].epoch == s.rows.slots[id].epoch + (if advanced then 1 else 0)
    ensures var claimed := e.Act? && e.worker in s.workers && ClaimsSlot(s, e.worker, e.action, id);
            Next(s, e).rows.slots[id].attempts == s.rows.slots[id].attempts + (if claimed then 1 else 0)
  {
    if !e.Act? {
      assert e.HaltCommit? && e.halter in s.halters ==> HalterInv(s, e.halter);
      QuietAdvances(s, e, id);
    } else if e.worker in s.workers {
      assert WorkerInv(s, e.worker);
      ActAdvances(s, e.worker, e.action, id);
    }
  }

  /** After a stop or revoke every remaining lease is an observer's: it can neither send nor discharge. */
  lemma {:induction false} OnlyObserversOutliveHalt(s0: State, events: seq<Event>, id: nat)
    requires Initial(s0) && id in Run(s0, events).rows.slots
    ensures var s := Run(s0, events); var x := s.rows.slots[id];
            s.rows.previews[x.preview].Halted() ==>
              && x.state == Stopped
              && (x.lease.Some? ==> && x.lease.value.worker in s.workers && s.workers[x.lease.value.worker].reconcile
                                    && !s.workers[x.lease.value.worker].pc.Probed?)
  {
    Reachable(s0, events);
    var s := Run(s0, events);
    assert SlotInv(s, id);
    if s.rows.slots[id].lease.Some? { assert WorkerInv(s, s.rows.slots[id].lease.value.worker); }
  }
}
