/**
 Every interleaving of the removal handlers (runRotationRemovalSlot), the stop and
 revoke handlers, the clock, lost database sessions and crashes.

 A handler is a program counter over its steps; each short transaction is one
 atomic step on the rows. The workspace advisory lock is the map `gate`. A step
 that is not enabled leaves the state alone, so a run is any sequence of events.
 */
module RemovalProtocol {
  import opened Common
  import opened RemovalTables

  /** Position of a removal handler; the names say what has just happened. */
  datatype Pc =
    | Waiting | Gated | Screened | Claimed | Reading
    | Ready | Armed | Reserved | Probed | Sent(accepted: bool) | Receipted | Failing | Verifying
    | Seen(absent: bool) | Committing(absent: bool) | Finished

  /** `alive`: the physical session that carries the advisory locks still exists. */
  datatype Worker = Worker(slot: nat, verify: bool, reconcile: bool, pc: Pc, alive: bool, epoch: nat, requested: bool)

  datatype HaltPc = HaltWaiting | HaltGated | HaltFinished
  datatype Halter = Halter(preview: nat, revoke: bool, pc: HaltPc, alive: bool)

  /**
   One DELETE on the wire: whether a stop or revoke of its authorization had already committed, and
   whether its sender's session still existed.
   */
  datatype Send = Send(slot: nat, worker: nat, request: Option<nat>, afterHalt: bool, alive: bool)

  /** `lapsed`: the authorizations whose stop or revoke committed after its own session had died. */
  datatype State = State(
    rows: Rows, gate: map<nat, nat>, workers: map<nat, Worker>, halters: map<nat, Halter>,
    sends: seq<Send>, lapsed: set<nat>)

  datatype Action =
    | Lock | Unlock | Screen | Claim(limit: int, facts: bool) | Snapshot(absent: bool)
    | Reserve(facts: bool) | Probe | Dispatch(accepted: bool) | Receipt(facts: bool)
    | Fail | Commit(facts: bool) | Quit

  datatype Event =
    | Tick(d: nat)
    | Drift(preview: nat)
    | Spawn(worker: nat, slot: nat, verify: bool)
    | Act(worker: nat, action: Action)
    | SessionLost(actor: nat)
    | SpawnHalt(halter: nat, preview: nat, revoke: bool)
    | HaltLock(halter: nat)
    | HaltCommit(halter: nat)
    | HaltClose(halter: nat)

  function TicketOf(s: State, w: nat): Ticket
    requires w in s.workers
  {
    Ticket(w, s.workers[w].slot, s.workers[w].epoch, s.workers[w].reconcile)
  }

  function Released(gate: map<nat, nat>, ws: nat, actor: nat): map<nat, nat> {
    if ws in gate && gate[ws] == actor then gate - {ws} else gate
  }

  function AfterLock(pc: Pc): Option<Pc> {
    match pc
    case Waiting => Some(Gated)
    case Ready => Some(Armed)
    case Seen(absent) => Some(Committing(absent))
    case _ => None
  }

  function AfterUnlock(pc: Pc): Option<Pc> {
    match pc
    case Claimed => Some(Reading)
    case Receipted => Some(Verifying)
    case _ => None
  }

  /** A complete, checked roster: before the request the target must still be there. */
  function AfterSnapshot(k: Worker, absent: bool): Option<Pc> {
    match k.pc
    case Reading => if k.requested then Some(Seen(absent)) else if absent then None else Some(Ready)
    case Verifying => Some(Seen(absent))
    case _ => None
  }

  predicate MayFail(pc: Pc) { pc.Reading? || pc.Reserved? || pc.Failing? || pc.Verifying? }

  function Move(s: State, w: nat, pc: Pc): State
    requires w in s.workers
  {
    s.(workers := s.workers[w := s.workers[w].(pc := pc)])
  }

  function Finish(s: State, w: nat, ws: nat): State
    requires w in s.workers
  {
    Move(s, w, Finished).(gate := Released(s.gate, ws, w))
  }

  /** Steps that touch no row. */
  function Stride(s: State, w: nat, a: Action): (s': State)
    requires s.rows.Scoped() && w in s.workers && s.workers[w].slot in s.rows.slots
    ensures s'.rows == s.rows
  {
    var k := s.workers[w];
    var ws := s.rows.Workspace(k.slot);
    match a
    case Lock =>
      var pc := AfterLock(k.pc);
      if pc.Some? && k.alive && ws !in s.gate then Move(s, w, pc.value).(gate := s.gate[ws := w]) else s
    case Unlock =>
      var pc := AfterUnlock(k.pc);
      if pc.Some? && k.alive then Move(s, w, pc.value).(gate := Released(s.gate, ws, w)) else s
    case Screen =>
      if k.pc != Gated then s
      else s.(workers := s.workers[w := k.(pc := Screened,
                                           reconcile := k.verify && ObservationOnly(s.rows, s.rows.slots[k.slot].preview))])
    case Snapshot(absent) =>
      var pc := AfterSnapshot(k, absent);
      if pc.Some? then Move(s, w, pc.value) else s
    case Probe =>
      if k.pc == Reserved && k.alive then Move(s, w, Probed) else s
    case Dispatch(accepted) =>
      if k.pc != Probed then s
      else Move(s, w, Sent(accepted)).(sends := s.sends + [Send(k.slot, w, s.rows.slots[k.slot].request,
                                                                s.rows.previews[s.rows.slots[k.slot].preview].Halted(), k.alive)])
    case Quit => Finish(s, w, ws)
    case _ => s
  }

  /** Steps that are one transaction on the rows. */
  function Transact(s: State, w: nat, a: Action): (s': State)
    requires s.rows.Scoped() && w in s.workers && s.workers[w].slot in s.rows.slots
    ensures s'.rows.Scoped() && s'.sends == s.sends && s'.halters == s.halters
  {
    var k := s.workers[w];
    var t := TicketOf(s, w);
    var ws := s.rows.Workspace(k.slot);
    match a
    case Claim(limit, facts) =>
      if k.pc != Screened || !MayClaim(s.rows, k.slot, k.verify, k.reconcile, facts) then s
      else s.(rows := ClaimTx(s.rows, w, k.slot, k.verify, k.reconcile, limit, facts),
              workers := s.workers[w := k.(pc := Claimed, epoch := s.rows.slots[k.slot].epoch + 1,
                                           requested := s.rows.slots[k.slot].request.Some?)])
    case Reserve(facts) =>
      if k.pc == Armed && MayReserve(s.rows, t, facts) then Move(s, w, Reserved).(rows := ReserveTx(s.rows, t, facts)) else s
    case Receipt(facts) =>
      if !k.pc.Sent? || !LeaseTx(s.rows, t, facts) then s
      else Move(s, w, if k.pc.accepted then Receipted else Failing).(rows := ReceiptTx(s.rows, t, k.pc.accepted, facts))
    case Fail =>
      if MayFail(k.pc) && LeaseCurrent(s.rows, t) then Finish(s, w, ws).(rows := FailTx(s.rows, t)) else s
    case Commit(facts) =>
      if !k.pc.Committing? || !LeaseTx(s.rows, t, facts) then s
      else Finish(s, w, ws).(rows := CommitTx(s.rows, t, k.pc.absent, facts))
    case _ => s
  }

  predicate Transactional(a: Action) { a.Claim? || a.Reserve? || a.Receipt? || a.Fail? || a.Commit? }

  function Acted(s: State, w: nat, a: Action): (s': State)
    requires s.rows.Scoped() && w in s.workers && s.workers[w].slot in s.rows.slots
    ensures s'.rows.Scoped()
  {
    if Transactional(a) then Transact(s, w, a) else Stride(s, w, a)
  }

  /** A dead session drops its advisory locks; its handler learns of it only at its next statement on it. */
  function LoseSession(s: State, a: nat): State
    requires s.rows.Scoped()
  {
    if a in s.workers && s.workers[a].slot in s.rows.slots then
      s.(workers := s.workers[a := s.workers[a].(alive := false)],
         gate := Released(s.gate, s.rows.Workspace(s.workers[a].slot), a))
    else if a in s.halters && s.halters[a].preview in s.rows.previews then
      s.(gate := Released(s.gate, s.rows.previews[s.halters[a].preview].workspace, a),
         halters := s.halters[a := s.halters[a].(alive := false)])
    else s
  }

  function HalterNext(s: State, e: Event): (s': State)
    requires s.rows.Scoped() && (e.HaltLock? || e.HaltCommit? || e.HaltClose?)
    requires e.halter in s.halters && s.halters[e.halter].preview in s.rows.previews
    ensures s'.rows.Scoped()
  {
    var h := s.halters[e.halter];
    var ws := s.rows.previews[h.preview].workspace;
    match e
    case HaltLock(a) =>
      if h.pc == HaltWaiting && h.alive && ws !in s.gate
      then s.(gate := s.gate[ws := a], halters := s.halters[a := h.(pc := HaltGated)]) else s
    case HaltCommit(a) =>
      if h.pc == HaltGated
      then s.(rows := HaltTx(s.rows, h.preview, h.revoke), halters := s.halters[a := h.(pc := HaltFinished)],
              lapsed := if !h.alive && HaltApplies(s.rows, h.preview, h.revoke) then s.lapsed + {h.preview} else s.lapsed)
      else s
    case HaltClose(a) =>
      s.(gate := Released(s.gate, ws, a), halters := s.halters[a := h.(pc := HaltFinished)])
  }

  function Next(s: State, e: Event): (s': State)
    requires s.rows.Scoped()
    ensures s'.rows.Scoped()
  {
    match e
    case Tick(d) => s.(rows := s.rows.(now := s.rows.now + d))
    case Drift(p) =>
      if p !in s.rows.previews then s
      else s.(rows := s.rows.(previews := s.rows.previews[p := s.rows.previews[p].(drifted := true)]))
    case Spawn(w, slot, verify) =>
      if w in s.workers || w in s.halters || slot !in s.rows.slots then s
      else s.(workers := s.workers[w := Worker(slot, verify, false, Waiting, true, 0, false)])
    case Act(w, a) =>
      if w !in s.workers || s.workers[w].slot !in s.rows.slots then s
      else Acted(s, w, a)
    case SessionLost(a) => LoseSession(s, a)
    case SpawnHalt(h, p, revoke) =>
      if h in s.workers || h in s.halters || p !in s.rows.previews then s
      else s.(halters := s.halters[h := Halter(p, revoke, HaltWaiting, true)])
    case _ =>
      if e.halter in s.halters && s.halters[e.halter].preview in s.rows.previews then HalterNext(s, e) else s
  }

  function Run(s: State, events: seq<Event>): (s': State)
    requires s.rows.Scoped()
    ensures s'.rows.Scoped()
  {
    if events == [] then s else Next(Run(s, events[..|events| - 1]), events[|events| - 1])
  }

  ghost predicate Initial(s: State) {
    && s.rows.Scoped()
    && (forall id :: id in s.rows.slots ==> s.rows.slots[id] == Slot(s.rows.slots[id].preview, Pending, None, false, 0, None, 0))
    && (forall p :: p in s.rows.previews ==> !s.rows.previews[p].Halted())
    && s.gate == map[] && s.workers == map[] && s.halters == map[]
    && s.sends == [] && s.rows.evidence == [] && s.lapsed == {}
  }

  // ----- invariants, element by element

  predicate Holding(pc: Pc) {
    pc.Gated? || pc.Screened? || pc.Claimed? || pc.Armed? || pc.Reserved? || pc.Probed? || pc.Sent? || pc.Receipted?
    || pc.Failing? || pc.Committing?
  }

  /** A worker in one of these positions is past the only place that sends. */
  predicate PastSend(k: Worker) {
    k.pc.Sent? || k.pc.Receipted? || k.pc.Failing? || k.pc.Verifying? || k.pc.Finished? || ((k.pc.Seen? || k.pc.Committing?) && !k.requested)
  }

  predicate GateIs(s: State, ws: nat, actor: nat) { ws in s.gate && s.gate[ws] == actor }

  ghost predicate WorkerInv(s: State, w: nat)
    requires s.rows.Scoped()
  {
    w in s.workers && s.workers[w].slot in s.rows.slots && w !in s.halters &&
    var k := s.workers[w];
    var x := s.rows.slots[k.slot];
    && k.epoch <= x.epoch
    && (k.alive && Holding(k.pc) ==> GateIs(s, s.rows.Workspace(k.slot), w))
    && (k.alive && (k.pc.Reserved? || k.pc.Probed?) ==> !s.rows.previews[x.preview].Halted() || x.preview in s.lapsed)
    && (k.pc.Reserved? || k.pc.Probed? ==> x.request == Some(w))
    && (k.requested || k.pc.Verifying? || k.pc.Sent? || k.pc.Receipted? || k.pc.Seen? || k.pc.Committing? ==> x.request.Some?)
    && (k.requested ==> k.pc.Claimed? || k.pc.Reading? || k.pc.Seen? || k.pc.Committing? || k.pc.Finished?)
    && (k.reconcile ==> k.pc.Screened? || k.pc.Finished? || k.requested)
  }

  ghost predicate HalterInv(s: State, h: nat)
    requires s.rows.Scoped()
  {
    h in s.halters && s.halters[h].preview in s.rows.previews && h !in s.workers &&
    (s.halters[h].alive && s.halters[h].pc.HaltGated? ==> GateIs(s, s.rows.previews[s.halters[h].preview].workspace, h))
  }

  ghost predicate SendInv(s: State, i: nat)
    requires s.rows.Scoped()
  {
    i < |s.sends| &&
    var d := s.sends[i];
    && d.worker in s.workers && s.workers[d.worker].slot == d.slot && PastSend(s.workers[d.worker])
    && d.slot in s.rows.slots && d.request == Some(d.worker) == s.rows.slots[d.slot].request
    && (d.afterHalt && d.alive ==> s.rows.slots[d.slot].preview in s.lapsed)
  }

  ghost function Latest(evidence: seq<Evidence>, slot: nat): Option<Evidence> {
    if evidence == [] then None
    else if evidence[|evidence| - 1].slot == slot then Some(evidence[|evidence| - 1])
    else Latest(evidence[..|evidence| - 1], slot)
  }

  predicate Unclaimed(pc: Pc) { pc.Waiting? || pc.Gated? || pc.Screened? }

  ghost predicate SlotInv(s: State, id: nat)
    requires s.rows.Scoped()
  {
    id in s.rows.slots &&
    var x := s.rows.slots[id];
    && (x.uncertain ==> x.request.Some?)
    && (x.request.Some? && !x.uncertain ==> Latest(s.rows.evidence, id).Some? && Latest(s.rows.evidence, id).value.absent)
    && (x.state == AbsentVerified ==> x.request.Some? && !x.uncertain && x.lease.None?)
    && (s.rows.previews[x.preview].Halted() ==> x.state == Stopped)
    && (x.lease.Some? ==>
          var w := x.lease.value.worker;
          && w in s.workers && s.workers[w].slot == id && s.workers[w].epoch == x.epoch && !Unclaimed(s.workers[w].pc)
          && (s.workers[w].reconcile <==> x.state == Stopped))
  }

  ghost predicate Exclusive(s: State, a: nat, b: nat)
    requires s.rows.Scoped() && a in s.rows.slots && b in s.rows.slots
  {
    a != b && s.rows.Workspace(a) == s.rows.Workspace(b) ==> !(Live(s.rows.slots[a], s.rows.now) && Live(s.rows.slots[b], s.rows.now))
  }

  ghost predicate ActorsInv(s: State)
    requires s.rows.Scoped()
  {
    && (forall w {:trigger WorkerInv(s, w)} :: w in s.workers ==> WorkerInv(s, w))
    && (forall h {:trigger HalterInv(s, h)} :: h in s.halters ==> HalterInv(s, h))
  }

  ghost predicate RowsInv(s: State)
    requires s.rows.Scoped()
  {
    && (forall id {:trigger SlotInv(s, id)} :: id in s.rows.slots ==> SlotInv(s, id))
    && (forall a, b {:trigger Exclusive(s, a, b)} :: a in s.rows.slots && b in s.rows.slots ==> Exclusive(s, a, b))
  }

  ghost predicate SendsInv(s: State)
    requires s.rows.Scoped()
  {
    && (forall i: nat {:trigger SendInv(s, i)} :: i < |s.sends| ==> SendInv(s, i))
    && (forall i: nat, j: nat :: i < j < |s.sends| ==> s.sends[i].worker != s.sends[j].worker)
  }

  ghost predicate Inv(s: State) { s.rows.Scoped() && ActorsInv(s) && RowsInv(s) && SendsInv(s) }

  // ----- one step of a handler

  /**
   What a step may do to the row it works on: keep its preview and request, never lower its epoch,
   and give a lease only under a higher one.
   */
  ghost predicate RowMoves(s: State, id: nat, x: Slot, y: Slot)
    requires s.rows.Scoped() && id in s.rows.slots
  {
    && y.preview == x.preview && x.epoch <= y.epoch && x.attempts <= y.attempts
    && (x.epoch == y.epoch ==> y.lease == x.lease || y.lease.None?)
    && (x.request.Some? ==> y.request == x.request) && (x.state == Stopped ==> y.state == Stopped)
    && (Live(y, s.rows.now) ==> Live(x, s.rows.now) || !WorkspaceBusy(s.rows, s.rows.Workspace(id), id))
  }

  /** All that a step of worker `w` can change: its own position, row, lock, evidence and sends. */
  ghost predicate OwnStep(s: State, s': State, w: nat)
    requires s.rows.Scoped() && w in s.workers && s.workers[w].slot in s.rows.slots
  {
    var k := s.workers[w];
    var ws := s.rows.Workspace(k.slot);
    && s'.rows.Scoped() && s'.halters == s.halters && s'.lapsed == s.lapsed && s.sends <= s'.sends
    && w in s'.workers && s'.workers == s.workers[w := s'.workers[w]] && s'.workers[w].slot == k.slot
    && (PastSend(k) ==> PastSend(s'.workers[w]))
    && s'.workers[w].alive == k.alive && (s'.workers[w].pc.Probed? ==> k.pc.Probed? || k.alive)
    && s'.rows.previews == s.rows.previews && s'.rows.now == s.rows.now
    && k.slot in s'.rows.slots && s'.rows.slots == s.rows.slots[k.slot := s'.rows.slots[k.slot]]
    && RowMoves(s, k.slot, s.rows.slots[k.slot], s'.rows.slots[k.slot])
    && s.rows.evidence <= s'.rows.evidence && |s'.rows.evidence| <= |s.rows.evidence| + 1
    && (|s'.rows.evidence| > |s.rows.evidence| ==> s'.rows.evidence[|s.rows.evidence|].slot == k.slot)
    && (s'.gate == s.gate || s'.gate == Released(s.gate, ws, w) || (ws !in s.gate && s'.gate == s.gate[ws := w]))
  }

  ghost predicate Sound(s: State, s': State, w: nat)
    requires s.rows.Scoped() && WorkerInv(s, w)
  {
    OwnStep(s, s', w) && WorkerInv(s', w)
  }

  lemma LockIsSound(s: State, w: nat)
    requires s.rows.Scoped() && WorkerInv(s, w)
    ensures Sound(s, Acted(s, w, Lock), w)
  {
  }

  lemma UnlockIsSound(s: State, w: nat)
    requires s.rows.Scoped() && WorkerInv(s, w)
    ensures Sound(s, Acted(s, w, Unlock), w)
  {
  }

  lemma ScreenIsSound(s: State, w: nat)
    requires s.rows.Scoped() && WorkerInv(s, w)
    ensures Sound(s, Acted(s, w, Screen), w)
  {
  }

  lemma SnapshotIsSound(s: State, w: nat, absent: bool)
    requires s.rows.Scoped() && WorkerInv(s, w)
    ensures Sound(s, Acted(s, w, Snapshot(absent)), w)
  {
    var pc := AfterSnapshot(s.workers[w], absent);
    if pc.Some? { assert Acted(s, w, Snapshot(absent)) == Move(s, w, pc.value); } else { assert Acted(s, w, Snapshot(absent)) == s; }
  }

  lemma ProbeIsSound(s: State, w: nat)
    requires s.rows.Scoped() && WorkerInv(s, w)
    ensures Sound(s, Acted(s, w, Probe), w)
  {
  }

  lemma DispatchIsSound(s: State, w: nat, accepted: bool)
    requires s.rows.Scoped() && WorkerInv(s, w)
    ensures Sound(s, Acted(s, w, Dispatch(accepted)), w)
  {
  }

  lemma QuitIsSound(s: State, w: nat)
    requires s.rows.Scoped() && WorkerInv(s, w)
    ensures Sound(s, Acted(s, w, Quit), w)
  {
  }

  lemma ClaimIsSound(s: State, w: nat, limit: int, facts: bool)
    requires s.rows.Scoped() && WorkerInv(s, w)
    ensures Sound(s, Acted(s, w, Action.Claim(limit, facts)), w)
  {
  }

  lemma ReserveIsSound(s: State, w: nat, facts: bool)
    requires s.rows.Scoped() && WorkerInv(s, w)
    ensures Sound(s, Acted(s, w, Action.Reserve(facts)), w)
  {
  }

  lemma ReceiptIsSound(s: State, w: nat, facts: bool)
    requires s.rows.Scoped() && WorkerInv(s, w)
    ensures Sound(s, Acted(s, w, Action.Receipt(facts)), w)
  {
  }

  lemma FailIsSound(s: State, w: nat)
    requires s.rows.Scoped() && WorkerInv(s, w)
    ensures Sound(s, Acted(s, w, Fail), w)
  {
    var k := s.workers[w];
    if MayFail(k.pc) && LeaseCurrent(s.rows, TicketOf(s, w)) {
      assert Acted(s, w, Fail) == Finish(s, w, s.rows.Workspace(k.slot)).(rows := FailTx(s.rows, TicketOf(s, w)));
    } else {
      assert Acted(s, w, Fail) == s;
    }
  }

  lemma CommitIsSound(s: State, w: nat, facts: bool)
    requires s.rows.Scoped() && WorkerInv(s, w)
    ensures Sound(s, Acted(s, w, Action.Commit(facts)), w)
  {
  }

  lemma ActIsSound(s: State, w: nat, a: Action)
    requires s.rows.Scoped() && WorkerInv(s, w)
    ensures Sound(s, Acted(s, w, a), w)
  {
    match a
    case Lock => LockIsSound(s, w);
    case Unlock => UnlockIsSound(s, w);
    case Screen => ScreenIsSound(s, w);
    case Claim(limit, facts) => ClaimIsSound(s, w, limit, facts);
    case Snapshot(absent) => SnapshotIsSound(s, w, absent);
    case Reserve(facts) => ReserveIsSound(s, w, facts);
    case Probe => ProbeIsSound(s, w);
    case Dispatch(accepted) => DispatchIsSound(s, w, accepted);
    case Receipt(facts) => ReceiptIsSound(s, w, facts);
    case Fail => FailIsSound(s, w);
    case Commit(facts) => CommitIsSound(s, w, facts);
    case Quit => QuitIsSound(s, w);
  }

  /** What an action of worker `w` can do to a row. */
  lemma TransactRows(s: State, w: nat, a: Action, id: nat)
    requires s.rows.Scoped() && WorkerInv(s, w) && id in s.rows.slots
    ensures var s' := Acted(s, w, a);
            && s'.rows.slots.Keys == s.rows.slots.Keys && s'.rows.previews == s.rows.previews && s'.rows.now == s.rows.now
            && s'.workers.Keys == s.workers.Keys && s.rows.evidence <= s'.rows.evidence
            && (id != s.workers[w].slot ==> s'.rows.slots[id] == s.rows.slots[id])
            && RowMoves(s, id, s.rows.slots[id], s'.rows.slots[id])
  {
    ActIsSound(s, w, a);
  }

  // ----- what one step leaves of everything else

  lemma StepKeepsWorker(s: State, s': State, w: nat, x: nat)
    requires s.rows.Scoped() && WorkerInv(s, w) && OwnStep(s, s', w) && WorkerInv(s, x) && x != w
    ensures WorkerInv(s', x)
  {
  }

  lemma StepKeepsHalter(s: State, s': State, w: nat, h: nat)
    requires s.rows.Scoped() && WorkerInv(s, w) && OwnStep(s, s', w) && HalterInv(s, h)
    ensures HalterInv(s', h)
  {
  }

  lemma StepKeepsOtherSlot(s: State, s': State, w: nat, id: nat)
    requires s.rows.Scoped() && WorkerInv(s, w) && OwnStep(s, s', w) && SlotInv(s, id) && id != s.workers[w].slot
    ensures SlotInv(s', id)
  {
    LatestKept(s.rows.evidence, s'.rows.evidence, id);
  }

  lemma LatestKept(a: seq<Evidence>, b: seq<Evidence>, id: nat)
    requires a <= b && |b| <= |a| + 1 && (|b| > |a| ==> b[|a|].slot != id)
    ensures Latest(b, id) == Latest(a, id)
  {
    if |b| == |a| { assert b == a; } else { assert b[..|b| - 1] == a; }
  }

  lemma StepKeepsSend(s: State, s': State, w: nat, i: nat)
    requires s.rows.Scoped() && WorkerInv(s, w) && OwnStep(s, s', w) && SendInv(s, i)
    ensures SendInv(s', i)
  {
  }

  lemma StepKeepsExclusive(s: State, s': State, w: nat, x: nat, y: nat)
    requires s.rows.Scoped() && WorkerInv(s, w) && OwnStep(s, s', w)
    requires x in s.rows.slots && y in s.rows.slots && Exclusive(s, x, y)
    ensures x in s'.rows.slots && y in s'.rows.slots && Exclusive(s', x, y)
  {
  }

  // ----- the row of the step itself

  lemma StrideKeepsMode(s: State, w: nat, a: Action)
    requires s.rows.Scoped() && WorkerInv(s, w) && !Transactional(a)
    ensures var s' := Acted(s, w, a);
            s'.rows == s.rows && w in s'.workers && SameMode(s.workers[w], s'.workers[w])
  {
  }

  /** A claimed worker keeps its epoch and its mode, and never becomes unclaimed again. */
  predicate SameMode(k: Worker, k': Worker) {
    k'.epoch == k.epoch && (!Unclaimed(k.pc) ==> !Unclaimed(k'.pc) && k'.reconcile == k.reconcile)
  }

  lemma StrideKeepsOwnSlot(s: State, s': State, w: nat)
    requires s.rows.Scoped() && WorkerInv(s, w) && OwnStep(s, s', w) && SlotInv(s, s.workers[w].slot)
    requires s'.rows == s.rows && SameMode(s.workers[w], s'.workers[w])
    ensures SlotInv(s', s.workers[w].slot)
  {
  }

  lemma ClaimKeepsOwnSlot(s: State, w: nat, limit: int, facts: bool)
    requires s.rows.Scoped() && WorkerInv(s, w) && SlotInv(s, s.workers[w].slot)
    ensures SlotInv(Acted(s, w, Action.Claim(limit, facts)), s.workers[w].slot)
  {
  }

  lemma ReserveKeepsOwnSlot(s: State, w: nat, facts: bool)
    requires s.rows.Scoped() && WorkerInv(s, w) && SlotInv(s, s.workers[w].slot)
    ensures SlotInv(Acted(s, w, Action.Reserve(facts)), s.workers[w].slot)
  {
  }

  lemma ReceiptKeepsOwnSlot(s: State, w: nat, facts: bool)
    requires s.rows.Scoped() && WorkerInv(s, w) && SlotInv(s, s.workers[w].slot)
    ensures SlotInv(Acted(s, w, Action.Receipt(facts)), s.workers[w].slot)
  {
  }

  lemma FailKeepsOwnSlot(s: State, w: nat)
    requires s.rows.Scoped() && WorkerInv(s, w) && SlotInv(s, s.workers[w].slot)
    ensures SlotInv(Acted(s, w, Fail), s.workers[w].slot)
  {
  }

  lemma CommitKeepsOwnSlot(s: State, w: nat, facts: bool)
    requires s.rows.Scoped() && WorkerInv(s, w) && SlotInv(s, s.workers[w].slot)
    ensures SlotInv(Acted(s, w, Action.Commit(facts)), s.workers[w].slot)
  {
  }

  lemma ActKeepsOwnSlot(s: State, w: nat, a: Action)
    requires s.rows.Scoped() && WorkerInv(s, w) && SlotInv(s, s.workers[w].slot) && OwnStep(s, Acted(s, w, a), w)
    ensures SlotInv(Acted(s, w, a), s.workers[w].slot)
  {
    match a
    case Claim(limit, facts) => ClaimKeepsOwnSlot(s, w, limit, facts);
    case Reserve(facts) => ReserveKeepsOwnSlot(s, w, facts);
    case Receipt(facts) => ReceiptKeepsOwnSlot(s, w, facts);
    case Fail => FailKeepsOwnSlot(s, w);
    case Commit(facts) => CommitKeepsOwnSlot(s, w, facts);
    case _ =>
      StrideKeepsMode(s, w, a);
      StrideKeepsOwnSlot(s, Acted(s, w, a), w);
  }

  lemma ActKeepsSlot(s: State, w: nat, a: Action, id: nat)
    requires s.rows.Scoped() && WorkerInv(s, w) && SlotInv(s, id)
    ensures SlotInv(Acted(s, w, a), id)
  {
    ActIsSound(s, w, a);
    if id != s.workers[w].slot { StepKeepsOtherSlot(s, Acted(s, w, a), w, id); } else { ActKeepsOwnSlot(s, w, a); }
  }

  /** Only a worker that has never sent can send, and only with its own committed request. */
  lemma DispatchIsNew(s: State, w: nat, a: Action)
    requires s.rows.Scoped() && WorkerInv(s, w)
    requires forall i: nat :: i < |s.sends| ==> SendInv(s, i)
    ensures var s' := Acted(s, w, a);
            s'.sends != s.sends ==>
              && |s'.sends| == |s.sends| + 1 && s.sends <= s'.sends && SendInv(s', |s.sends|)
              && s'.sends[|s.sends|].worker == w
              && forall i: nat :: i < |s.sends| ==> s.sends[i].worker != w
  {
    forall i: nat | i < |s.sends| && a.Dispatch? && s.workers[w].pc.Probed? ensures s.sends[i].worker != w {
      assert SendInv(s, i);
    }
  }

  // ----- the other events, element by element

  lemma HaltKeepsWorker(s: State, e: Event, x: nat)
    requires s.rows.Scoped() && (e.HaltLock? || e.HaltCommit? || e.HaltClose?) && HalterInv(s, e.halter) && WorkerInv(s, x)
    ensures WorkerInv(HalterNext(s, e), x)
  {
  }

  lemma SessionLossKeepsWorker(s: State, a: nat, x: nat)
    requires s.rows.Scoped() && WorkerInv(s, x)
    requires a in s.workers ==> WorkerInv(s, a)
    requires a in s.halters ==> HalterInv(s, a)
    ensures WorkerInv(LoseSession(s, a), x)
  {
  }

  lemma HaltKeepsHalter(s: State, e: Event, h: nat)
    requires s.rows.Scoped() && (e.HaltLock? || e.HaltCommit? || e.HaltClose?) && HalterInv(s, e.halter) && HalterInv(s, h)
    ensures HalterInv(HalterNext(s, e), h)
  {
  }

  lemma SessionLossKeepsHalter(s: State, a: nat, h: nat)
    requires s.rows.Scoped() && HalterInv(s, h)
    requires a in s.workers ==> WorkerInv(s, a)
    requires a in s.halters ==> HalterInv(s, a)
    ensures HalterInv(LoseSession(s, a), h)
  {
  }

  lemma HaltKeepsSlot(s: State, e: Event, id: nat)
    requires s.rows.Scoped() && (e.HaltLock? || e.HaltCommit? || e.HaltClose?) && HalterInv(s, e.halter) && SlotInv(s, id)
    ensures SlotInv(HalterNext(s, e), id)
  {
  }

  lemma HaltKeepsSend(s: State, e: Event, i: nat)
    requires s.rows.Scoped() && (e.HaltLock? || e.HaltCommit? || e.HaltClose?) && HalterInv(s, e.halter) && SendInv(s, i)
    ensures SendInv(HalterNext(s, e), i)
  {
  }

  lemma HaltKeepsExclusive(s: State, e: Event, x: nat, y: nat)
    requires s.rows.Scoped() && (e.HaltLock? || e.HaltCommit? || e.HaltClose?) && HalterInv(s, e.halter)
    requires x in s.rows.slots && y in s.rows.slots && Exclusive(s, x, y)
    ensures x in HalterNext(s, e).rows.slots && y in HalterNext(s, e).rows.slots && Exclusive(HalterNext(s, e), x, y)
  {
  }
}
