/**
 Every interleaving of one save and any number of repairs (saveRotationJoinCredentials):
 the two remote credential actions and the publication.
 */
module JoinCredentialsProtocol {
  import opened Common
  import opened JoinCredentials

  /**
   Where a worker stands. `At(kind)`: about to look for a checkpoint; `Cleared`: it found none and
   no start; `Begun`: its start is durable; `Acted`: the remote action returned a valid value.
   */
  datatype Pc =
    | Waiting | Claimed | At(kind: Kind) | Cleared(kind: Kind) | Begun(kind: Kind)
    | Acted(kind: Kind, digest: nat, expires: int) | Complete | Finished

  datatype Worker = Worker(pc: Pc, epoch: nat)

  /** One remote credential action, and whether the web checkpoint was stored at that moment. */
  datatype Call = Call(kind: Kind, worker: nat, webStored: bool)

  datatype State = State(table: Table, workers: map<nat, Worker>, calls: seq<Call>)

  datatype Step =
    | Claim(duration: int, limit: int, repair: bool, confirmed: bool, authority: bool)
    | CheckPublished | Look(valid: bool) | Start(authority: bool)
    | Call(succeeds: bool, digest: nat, expires: int)
    | Store(authority: bool) | Review(kind: Kind, authority: bool) | Publish(valid: bool, authority: bool) | Quit

  datatype Event = Tick(d: nat) | Spawn(worker: nat) | By(worker: nat, step: Step)

  function TicketOf(s: State, w: nat): Ticket
    requires w in s.workers
  {
    Ticket(w, s.workers[w].epoch)
  }

  function Move(s: State, w: nat, pc: Pc): State
    requires w in s.workers
  {
    s.(workers := s.workers[w := s.workers[w].(pc := pc)])
  }

  function After(kind: Kind): Pc { if kind.Web? then At(OAuth) else Complete }

  function WorkerNext(s: State, w: nat, step: Step): State
    requires w in s.workers
  {
    var k := s.workers[w];
    var t := TicketOf(s, w);
    match step
    case Claim(duration, limit, repair, confirmed, authority) =>
      if k.pc != Waiting || !MayClaim(s.table, duration, repair, confirmed, authority) then s
      else s.(table := ClaimTx(s.table, w, duration, limit, repair, confirmed, authority),
              workers := s.workers[w := Worker(Claimed, s.table.epoch + 1)])
    case CheckPublished =>
      if k.pc != Claimed then s else Move(s, w, if s.table.generations == [] then At(Web) else Finished)
    case Look(valid) =>
      if !k.pc.At? then s
      else if Stored(s.table.components, k.pc.kind).Some? then (if valid then Move(s, w, After(k.pc.kind)) else s)
      else if HasStarted(s.table.events, k.pc.kind) then s
      else Move(s, w, Cleared(k.pc.kind))
    case Start(authority) =>
      if k.pc.Cleared? && Current(s.table, t, authority)
      then Move(s, w, Begun(k.pc.kind)).(table := StartTx(s.table, t, k.pc.kind, authority)) else s
    case Call(succeeds, digest, expires) =>
      if !k.pc.Begun? then s
      else Move(s, w, if succeeds then Acted(k.pc.kind, digest, expires) else Finished).(
        calls := s.calls + [Call.Call(k.pc.kind, w, Stored(s.table.components, Web).Some?)])
    case Store(authority) =>
      if k.pc.Acted? && Current(s.table, t, authority)
      then Move(s, w, After(k.pc.kind)).(table := StoreTx(s.table, t, k.pc.kind, k.pc.digest, k.pc.expires, authority)) else s
    case Review(kind, authority) =>
      if k.pc.Waiting? then s else Move(s, w, Finished).(table := ReviewTx(s.table, t, kind, authority))
    case Publish(valid, authority) =>
      if k.pc == Complete && MayPublish(s.table, t, valid, authority)
      then Move(s, w, Finished).(table := PublishTx(s.table, t, valid, authority)) else s
    case Quit => Move(s, w, Finished).(table := ReleaseTx(s.table, t))
  }

  function Next(s: State, e: Event): State {
    match e
    case Tick(d) => s.(table := s.table.(now := s.table.now + d))
    case Spawn(w) => if w in s.workers then s else s.(workers := s.workers[w := Worker(Waiting, 0)])
    case By(w, step) => if w in s.workers then WorkerNext(s, w, step) else s
  }

  function Run(s: State, events: seq<Event>): State {
    if events == [] then s else Next(Run(s, events[..|events| - 1]), events[|events| - 1])
  }

  predicate Initial(s: State) {
    s.table == Table(s.table.now, false, None, 0, [], [], []) && s.workers == map[] && s.calls == []
  }

  // ----- invariants

  predicate StartedBy(events: seq<Mark>, kind: Kind, epoch: nat) {
    exists e | e in events :: e.kind == kind && !e.review && e.epoch == epoch
  }

  /** The remote action of a kind lies behind a worker that started it. */
  predicate PastCall(pc: Pc, kind: Kind) {
    match pc
    case Acted(x, _, _) => x == kind || kind == Web
    case At(x) => x == OAuth && kind == Web
    case Cleared(x) => x == OAuth && kind == Web
    case Begun(x) => x == OAuth && kind == Web
    case Complete => true
    case Finished => true
    case _ => false
  }

  predicate PastStore(pc: Pc, kind: Kind) {
    match pc
    case Acted(x, _, _) => x == OAuth && kind == Web
    case _ => PastCall(pc, kind)
  }

  predicate NeedsWeb(pc: Pc) {
    ((pc.At? || pc.Cleared? || pc.Begun? || pc.Acted?) && pc.kind == OAuth) || pc.Complete?
  }

  /** Between the publication check and the publication. */
  predicate Pending(pc: Pc) { pc.At? || pc.Cleared? || pc.Begun? || pc.Acted? || pc.Complete? }

  ghost predicate WorkerInv(s: State, w: nat) {
    w in s.workers &&
    var k := s.workers[w];
    && (if k.pc.Waiting? then k.epoch == 0 else k.epoch > 0 || k.pc.Finished?) && k.epoch <= s.table.epoch
    && (k.pc.Cleared? && k.epoch == s.table.epoch ==> !HasStarted(s.table.events, k.pc.kind))
    && (k.pc.Begun? || k.pc.Acted? ==> StartedBy(s.table.events, k.pc.kind, k.epoch))
    && (NeedsWeb(k.pc) ==> Stored(s.table.components, Web).Some?)
    && (k.pc.Complete? ==> Stored(s.table.components, OAuth).Some?)
    && (Pending(k.pc) && k.epoch == s.table.epoch ==> s.table.generations == [])
  }

  ghost predicate Apart(s: State, a: nat, b: nat) {
    a in s.workers && b in s.workers && a != b && s.workers[a].epoch == s.workers[b].epoch ==> s.workers[a].epoch == 0
  }

  ghost predicate CallInv(s: State, i: nat) {
    i < |s.calls| &&
    var c := s.calls[i];
    && c.worker in s.workers && s.workers[c.worker].epoch > 0 && PastCall(s.workers[c.worker].pc, c.kind)
    && StartedBy(s.table.events, c.kind, s.workers[c.worker].epoch)
    && (c.kind == OAuth ==> c.webStored)
  }

  ghost predicate ComponentInv(s: State, i: nat) {
    i < |s.table.components| &&
    var c := s.table.components[i];
    && c.worker in s.workers && s.workers[c.worker].epoch == c.epoch > 0 && PastStore(s.workers[c.worker].pc, c.kind)
    && StartedBy(s.table.events, c.kind, c.epoch)
  }

  /** Starts of a kind agree: there is only one. */
  ghost predicate OneStart(events: seq<Mark>) {
    forall i: nat, j: nat :: i < j < |events| && !events[i].review && !events[j].review ==> events[i].kind != events[j].kind
  }

  ghost predicate GenerationsOk(t: Table) {
    |t.generations| <= 1 &&
    (|t.generations| == 1 ==>
       var w, o := Stored(t.components, Web), Stored(t.components, OAuth);
       && w.Some? && o.Some? && t.generations[0].web == w.value.digest && t.generations[0].oauth == o.value.digest
       && t.generations[0].expires == Min(w.value.expires, o.value.expires))
  }

  ghost predicate WorkersInv(s: State) { forall w {:trigger WorkerInv(s, w)} :: w in s.workers ==> WorkerInv(s, w) }

  ghost predicate PairsInv(s: State) { forall a, b {:trigger Apart(s, a, b)} :: Apart(s, a, b) }

  ghost predicate CallsInv(s: State) {
    && (forall i: nat {:trigger CallInv(s, i)} :: i < |s.calls| ==> CallInv(s, i))
    && (forall i: nat, j: nat :: i < j < |s.calls| ==> s.calls[i].worker != s.calls[j].worker || s.calls[i].kind != s.calls[j].kind)
  }

  ghost predicate ComponentsInv(s: State) {
    && (forall i: nat {:trigger ComponentInv(s, i)} :: i < |s.table.components| ==> ComponentInv(s, i))
    && (forall i: nat, j: nat :: i < j < |s.table.components| ==> s.table.components[i].kind != s.table.components[j].kind)
  }

  ghost predicate Inv(s: State) {
    WorkersInv(s) && PairsInv(s) && CallsInv(s) && ComponentsInv(s) && OneStart(s.table.events) && GenerationsOk(s.table)
  }

  // ----- growth

  lemma EventsSnoc(events: seq<Mark>, e: Mark)
    ensures forall kind, epoch :: StartedBy(events, kind, epoch) ==> StartedBy(events + [e], kind, epoch)
    ensures forall kind :: HasStarted(events + [e], kind) <==> HasStarted(events, kind) || (e.kind == kind && !e.review)
    ensures !e.review ==> StartedBy(events + [e], e.kind, e.epoch)
    ensures OneStart(events) && (!e.review ==> !HasStarted(events, e.kind)) ==> OneStart(events + [e])
  {
    assert forall x :: x in events + [e] <==> x in events || x == e;
    forall i: nat | i < |events| && !events[i].review && events[i].kind == e.kind ensures HasStarted(events, e.kind) {
      assert events[i] in events;
    }
  }

  lemma StartKept(events: seq<Mark>, more: seq<Mark>, kind: Kind, epoch: nat)
    requires events <= more && StartedBy(events, kind, epoch)
    ensures StartedBy(more, kind, epoch)
  {
    var e :| e in events && e.kind == kind && !e.review && e.epoch == epoch;
    assert e in more;
  }

  lemma StoredSnoc(components: seq<Component>, c: Component, kind: Kind)
    ensures Stored(components + [c], kind) ==
              if Stored(components, kind).Some? then Stored(components, kind) else if c.kind == kind then Some(c) else None
  {
    if components == [] {
      assert components + [c] == [c];
    } else {
      assert (components + [c])[1..] == components[1..] + [c];
      StoredSnoc(components[1..], c, kind);
    }
  }

  lemma SameStart(events: seq<Mark>, kind: Kind, a: nat, b: nat)
    requires OneStart(events) && StartedBy(events, kind, a) && StartedBy(events, kind, b)
    ensures a == b
  {
    var e :| e in events && e.kind == kind && !e.review && e.epoch == a;
    var f :| f in events && f.kind == kind && !f.review && f.epoch == b;
    var i :| 0 <= i < |events| && events[i] == e;
    var j :| 0 <= j < |events| && events[j] == f;
  }

  lemma EventsGrow(s: State, w: nat, step: Step, kind: Kind, epoch: nat)
    requires w in s.workers
    ensures var a, b := s.table.events, WorkerNext(s, w, step).table.events;
            a <= b && (StartedBy(a, kind, epoch) ==> StartedBy(b, kind, epoch))
  {
    var a, b := s.table.events, WorkerNext(s, w, step).table.events;
    if StartedBy(a, kind, epoch) { StartKept(a, b, kind, epoch); }
  }

  lemma ComponentsGrow(s: State, w: nat, step: Step, kind: Kind)
    requires w in s.workers
    ensures var a, b := s.table.components, WorkerNext(s, w, step).table.components;
            a <= b && (Stored(a, kind).Some? ==> Stored(b, kind) == Stored(a, kind))
  {
    var a, b := s.table.components, WorkerNext(s, w, step).table.components;
    if |b| > |a| { StoredSnoc(a, b[|a|], kind); }
  }

  /** What a step of `w` can do to the tables. */
  lemma Growth(s: State, w: nat, step: Step)
    requires w in s.workers
    ensures Later(s.table, WorkerNext(s, w, step).table)
  {
    EventsGrow(s, w, step, Web, 0);
    ComponentsGrow(s, w, step, Web);
    ComponentsGrow(s, w, step, OAuth);
  }

  // ----- one step, element by element

  lemma StartKeepsSelf(s: State, w: nat, step: Step)
    requires WorkerInv(s, w) && step.Start?
    ensures WorkerInv(WorkerNext(s, w, step), w)
  {
    var k := s.workers[w];
    if k.pc.Cleared? { EventsSnoc(s.table.events, Mark(k.pc.kind, false, k.epoch)); }
  }

  lemma StoreKeepsSelf(s: State, w: nat, step: Step)
    requires WorkerInv(s, w) && step.Store?
    ensures WorkerInv(WorkerNext(s, w, step), w)
  {
    var k := s.workers[w];
    if k.pc.Acted? {
      StoredSnoc(s.table.components, Component(k.pc.kind, k.pc.digest, k.pc.expires, w, k.epoch), Web);
      StoredSnoc(s.table.components, Component(k.pc.kind, k.pc.digest, k.pc.expires, w, k.epoch), OAuth);
    }
  }

  lemma KeepsSelf(s: State, w: nat, step: Step)
    requires WorkerInv(s, w)
    ensures WorkerInv(WorkerNext(s, w, step), w)
  {
    if step.Start? {
      StartKeepsSelf(s, w, step);
    } else if step.Store? {
      StoreKeepsSelf(s, w, step);
    }
  }

  /** Only the holder of the lease appends a start or publishes, and no other worker has its epoch. */
  lemma OwnerKeepsOther(s: State, w: nat, step: Step, x: nat)
    requires WorkerInv(s, w) && WorkerInv(s, x) && x != w && Apart(s, w, x) && (step.Start? || step.Publish?)
    ensures WorkerInv(WorkerNext(s, w, step), x)
  {
    var k := s.workers[x];
    if k.pc.Begun? || k.pc.Acted? { EventsGrow(s, w, step, k.pc.kind, k.epoch); }
  }

  lemma StoreKeepsOther(s: State, w: nat, step: Step, x: nat)
    requires WorkerInv(s, w) && WorkerInv(s, x) && x != w && step.Store?
    ensures WorkerInv(WorkerNext(s, w, step), x)
  {
    ComponentsGrow(s, w, step, Web);
    ComponentsGrow(s, w, step, OAuth);
  }

  lemma ReviewKeepsOther(s: State, w: nat, step: Step, x: nat)
    requires WorkerInv(s, w) && WorkerInv(s, x) && x != w && step.Review?
    ensures WorkerInv(WorkerNext(s, w, step), x)
  {
    var k := s.workers[x];
    if k.pc.Begun? || k.pc.Acted? { EventsGrow(s, w, step, k.pc.kind, k.epoch); }
    EventsSnoc(s.table.events, Mark(step.kind, true, s.workers[w].epoch));
  }

  lemma KeepsOther(s: State, w: nat, step: Step, x: nat)
    requires WorkerInv(s, w) && WorkerInv(s, x) && x != w && Apart(s, w, x)
    ensures WorkerInv(WorkerNext(s, w, step), x)
  {
    if step.Start? || step.Publish? {
      OwnerKeepsOther(s, w, step, x);
    } else if step.Store? {
      StoreKeepsOther(s, w, step, x);
    } else if step.Review? {
      ReviewKeepsOther(s, w, step, x);
    }
  }

  lemma KeepsApart(s: State, w: nat, step: Step, a: nat, b: nat)
    requires WorkerInv(s, w) && Apart(s, a, b)
    requires a in s.workers ==> WorkerInv(s, a)
    requires b in s.workers ==> WorkerInv(s, b)
    ensures Apart(WorkerNext(s, w, step), a, b)
  {
  }

  lemma KeepsCall(s: State, w: nat, step: Step, i: nat)
    requires WorkerInv(s, w) && CallInv(s, i)
    ensures CallInv(WorkerNext(s, w, step), i)
  {
    EventsGrow(s, w, step, s.calls[i].kind, s.workers[s.calls[i].worker].epoch);
  }

  lemma CallIsNew(s: State, w: nat, step: Step)
    requires Inv(s) && w in s.workers
    ensures var s' := WorkerNext(s, w, step);
            s'.calls != s.calls ==>
              && s.calls <= s'.calls && |s'.calls| == |s.calls| + 1 && CallInv(s', |s.calls|)
              && forall i: nat :: i < |s.calls| ==> s.calls[i].worker != w || s.calls[i].kind != s'.calls[|s.calls|].kind
  {
    assert WorkerInv(s, w);
    forall i: nat | i < |s.calls| && step.Call? && s.workers[w].pc.Begun?
      ensures s.calls[i].worker != w || s.calls[i].kind != s.workers[w].pc.kind
    {
      assert CallInv(s, i);
    }
  }

  lemma KeepsComponent(s: State, w: nat, step: Step, i: nat)
    requires WorkerInv(s, w) && ComponentInv(s, i)
    ensures ComponentInv(WorkerNext(s, w, step), i)
  {
    EventsGrow(s, w, step, s.table.components[i].kind, s.table.components[i].epoch);
    ComponentsGrow(s, w, step, Web);
  }

  /** A kind is stored by the one worker that started it, and only once. */
  lemma ComponentIsNew(s: State, w: nat, step: Step)
    requires Inv(s) && w in s.workers
    ensures var s' := WorkerNext(s, w, step);
            s'.table.components != s.table.components ==>
              && s.table.components <= s'.table.components && |s'.table.components| == |s.table.components| + 1
              && ComponentInv(s', |s.table.components|)
              && forall i: nat :: i < |s.table.components| ==> s.table.components[i].kind != s'.table.components[|s.table.components|].kind
  {
    assert WorkerInv(s, w);
    var k := s.workers[w];
    forall i: nat | i < |s.table.components| && step.Store? && k.pc.Acted? ensures s.table.components[i].kind != k.pc.kind {
      var c := s.table.components[i];
      assert ComponentInv(s, i) && Apart(s, c.worker, w);
      if c.kind == k.pc.kind { SameStart(s.table.events, c.kind, c.epoch, k.epoch); }
    }
  }

  lemma KeepsStarts(s: State, w: nat, step: Step)
    requires Inv(s) && w in s.workers
    ensures OneStart(WorkerNext(s, w, step).table.events) && GenerationsOk(WorkerNext(s, w, step).table)
  {
    assert WorkerInv(s, w);
    ComponentsGrow(s, w, step, Web);
    ComponentsGrow(s, w, step, OAuth);
    var k := s.workers[w];
    if step.Start? && k.pc.Cleared? { EventsSnoc(s.table.events, Mark(k.pc.kind, false, k.epoch)); }
    if step.Review? { EventsSnoc(s.table.events, Mark(step.kind, true, k.epoch)); }
  }

  lemma WorkersKept(s: State, w: nat, step: Step)
    requires Inv(s) && w in s.workers
    ensures WorkersInv(WorkerNext(s, w, step))
  {
    assert WorkerInv(s, w);
    forall x | x in WorkerNext(s, w, step).workers ensures WorkerInv(WorkerNext(s, w, step), x) {
      assert WorkerInv(s, x) && Apart(s, w, x);
      if x == w { KeepsSelf(s, w, step); } else { KeepsOther(s, w, step, x); }
    }
  }

  lemma PairsKept(s: State, w: nat, step: Step)
    requires Inv(s) && w in s.workers
    ensures PairsInv(WorkerNext(s, w, step))
  {
    assert WorkerInv(s, w);
    forall a, b ensures Apart(WorkerNext(s, w, step), a, b) {
      assert Apart(s, a, b) && (a in s.workers ==> WorkerInv(s, a)) && (b in s.workers ==> WorkerInv(s, b));
      KeepsApart(s, w, step, a, b);
    }
  }

  lemma CallsKept(s: State, w: nat, step: Step)
    requires Inv(s) && w in s.workers
    ensures CallsInv(WorkerNext(s, w, step))
  {
    assert WorkerInv(s, w);
    CallIsNew(s, w, step);
    forall i: nat | i < |WorkerNext(s, w, step).calls| ensures CallInv(WorkerNext(s, w, step), i) {
      if i < |s.calls| { KeepsCall(s, w, step, i); }
    }
  }

  lemma ComponentsKept(s: State, w: nat, step: Step)
    requires Inv(s) && w in s.workers
    ensures ComponentsInv(WorkerNext(s, w, step))
  {
    assert WorkerInv(s, w);
    ComponentIsNew(s, w, step);
    forall i: nat | i < |WorkerNext(s, w, step).table.components| ensures ComponentInv(WorkerNext(s, w, step), i) {
      if i < |s.table.components| { KeepsComponent(s, w, step, i); }
    }
  }

  lemma WorkerStepPreserves(s: State, w: nat, step: Step)
    requires Inv(s) && w in s.workers
    ensures Inv(WorkerNext(s, w, step))
  {
    WorkersKept(s, w, step);
    PairsKept(s, w, step);
    CallsKept(s, w, step);
    ComponentsKept(s, w, step);
    KeepsStarts(s, w, step);
  }

  /** The clock and a new worker touch no table. */
  lemma IdleStepPreserves(s: State, e: Event)
    requires Inv(s) && !e.By?
    ensures Inv(Next(s, e))
  {
    var s' := Next(s, e);
    forall x | x in s'.workers ensures WorkerInv(s', x) { assert x in s.workers ==> WorkerInv(s, x); }
    forall a, b ensures Apart(s', a, b) { assert Apart(s, a, b); }
    forall i: nat | i < |s'.calls| ensures CallInv(s', i) { assert CallInv(s, i); }
    forall i: nat | i < |s'.table.components| ensures ComponentInv(s', i) { assert ComponentInv(s, i); }
  }

  lemma StepPreserves(s: State, e: Event)
    requires Inv(s)
    ensures Inv(Next(s, e))
  {
    if !e.By? {
      IdleStepPreserves(s, e);
    } else if e.worker in s.workers {
      WorkerStepPreserves(s, e.worker, e.step);
    }
  }

  lemma {:induction false} Reachable(s0: State, events: seq<Event>)
    requires Initial(s0)
    ensures Inv(Run(s0, events))
  {
    if events != [] {
      Reachable(s0, events[..|events| - 1]);
      StepPreserves(Run(s0, events[..|events| - 1]), events[|events| - 1]);
    }
  }

  // ----- results over whole runs

  /** Over one save and any number of repairs each remote action runs at most once, oauth only after web is stored. */
  lemma {:induction false} EachActionAtMostOnce(s0: State, events: seq<Event>)
    requires Initial(s0)
    ensures var calls := Run(s0, events).calls;
            && (forall i: nat, j: nat :: i < j < |calls| ==> calls[i].kind != calls[j].kind)
            && (forall i: nat :: i < |calls| && calls[i].kind == OAuth ==> calls[i].webStored)
  {
    Reachable(s0, events);
    var s := Run(s0, events);
    forall i: nat | i < |s.calls| ensures s.calls[i].kind == OAuth ==> s.calls[i].webStored { assert CallInv(s, i); }
    forall i: nat, j: nat | i < j < |s.calls| ensures s.calls[i].kind != s.calls[j].kind {
      assert CallInv(s, i) && CallInv(s, j) && Apart(s, s.calls[i].worker, s.calls[j].worker);
      if s.calls[i].kind == s.calls[j].kind {
        SameStart(s.table.events, s.calls[i].kind, s.workers[s.calls[i].worker].epoch, s.workers[s.calls[j].worker].epoch);
      }
    }
  }

  /**
   At most one generation is published; it is exactly the pair of stored checkpoints, of which
   there is at most one per kind, and it expires with the earlier of them.
   */
  lemma {:induction false} PublishedPairIsStoredPair(s0: State, events: seq<Event>)
    requires Initial(s0)
    ensures var t := Run(s0, events).table;
            && |t.generations| <= 1
            && (forall i: nat, j: nat :: i < j < |t.components| ==> t.components[i].kind != t.components[j].kind)
            && (t.generations != [] ==>
                  exists w, o :: w in t.components && o in t.components && w.kind == Web && o.kind == OAuth
                                 && t.generations[0].web == w.digest && t.generations[0].oauth == o.digest
                                 && t.generations[0].expires == Min(w.expires, o.expires))
  {
    Reachable(s0, events);
  }

  /** At step `n` the remote action of this worker answered so. */
  ghost predicate AnsweredAt(s0: State, events: seq<Event>, n: nat, w: nat, kind: Kind, digest: nat, expires: int)
    requires n < |events|
  {
    var s := Run(s0, events[..n]);
    events[n] == By(w, Step.Call(true, digest, expires)) && w in s.workers && s.workers[w].pc == Begun(kind)
  }

  ghost predicate Answered(s0: State, events: seq<Event>, w: nat, kind: Kind, digest: nat, expires: int) {
    exists n: nat :: n < |events| && AnsweredAt(s0, events, n, w, kind, digest, expires)
  }

  lemma AnsweredLonger(s0: State, events: seq<Event>, k: nat, w: nat, kind: Kind, digest: nat, expires: int)
    requires k <= |events| && Answered(s0, events[..k], w, kind, digest, expires)
    ensures Answered(s0, events, w, kind, digest, expires)
  {
    var n: nat :| n < |events[..k]| && AnsweredAt(s0, events[..k], n, w, kind, digest, expires);
    assert events[..k][..n] == events[..n];
    assert AnsweredAt(s0, events, n, w, kind, digest, expires);
  }

  lemma ActsHere(s: State, e: Event, w: nat)
    requires w in Next(s, e).workers && Next(s, e).workers[w].pc.Acted?
    ensures var pc := Next(s, e).workers[w].pc;
            && w in s.workers
            && (s.workers[w].pc == pc || (e == By(w, Step.Call(true, pc.digest, pc.expires)) && s.workers[w].pc == Begun(pc.kind)))
  {
    if e.By? && e.worker in s.workers && e.worker != w { assert Next(s, e).workers[w] == s.workers[w]; }
  }

  lemma {:induction false} ActedWasAnswered(s0: State, events: seq<Event>, w: nat)
    requires Initial(s0) && w in Run(s0, events).workers && Run(s0, events).workers[w].pc.Acted?
    ensures var pc := Run(s0, events).workers[w].pc; Answered(s0, events, w, pc.kind, pc.digest, pc.expires)
  {
    var k, pc := |events| - 1, Run(s0, events).workers[w].pc;
    ActsHere(Run(s0, events[..k]), events[k], w);
    if Run(s0, events[..k]).workers[w].pc == pc {
      ActedWasAnswered(s0, events[..k], w);
      AnsweredLonger(s0, events, k, w, pc.kind, pc.digest, pc.expires);
    } else {
      assert AnsweredAt(s0, events, k, w, pc.kind, pc.digest, pc.expires);
    }
  }

  lemma StoresHere(s: State, e: Event, i: nat)
    requires i < |Next(s, e).table.components|
    ensures var c := Next(s, e).table.components[i];
            if i < |s.table.components| then c == s.table.components[i]
            else c.worker in s.workers && s.workers[c.worker].pc == Acted(c.kind, c.digest, c.expires)
  {
  }

  /** A stored component is exactly what the remote action of its worker answered, with that answer's own expiry. */
  lemma {:induction false} StoredAsAnswered(s0: State, events: seq<Event>, i: nat)
    requires Initial(s0) && i < |Run(s0, events).table.components|
    ensures var c := Run(s0, events).table.components[i]; Answered(s0, events, c.worker, c.kind, c.digest, c.expires)
  {
    var k, c := |events| - 1, Run(s0, events).table.components[i];
    StoresHere(Run(s0, events[..k]), events[k], i);
    if i < |Run(s0, events[..k]).table.components| {
      StoredAsAnswered(s0, events[..k], i);
    } else {
      ActedWasAnswered(s0, events[..k], c.worker);
    }
    AnsweredLonger(s0, events, k, c.worker, c.kind, c.digest, c.expires);
  }

  /** Checkpoints and publications are never altered: every table only grows, and a stored component stays the stored one. */
  ghost predicate Later(a: Table, b: Table) {
    && a.epoch <= b.epoch && a.events <= b.events && a.components <= b.components && a.generations <= b.generations
    && (a.attempt ==> b.attempt)
    && (forall kind :: Stored(a.components, kind).Some? ==> Stored(b.components, kind) == Stored(a.components, kind))
  }

  lemma StepIsLater(s: State, e: Event)
    ensures Later(s.table, Next(s, e).table)
  {
    if e.By? && e.worker in s.workers { Growth(s, e.worker, e.step); }
  }

  lemma LaterChains(a: Table, b: Table, c: Table)
    requires Later(a, b) && Later(b, c)
    ensures Later(a, c)
  {
  }

  lemma {:induction false} HistoryIsKept(s0: State, events: seq<Event>, more: seq<Event>)
    requires Initial(s0)
    ensures Later(Run(s0, events).table, Run(s0, events + more).table)
  {
    if more == [] {
      assert events + more == events;
    } else {
      var m, e := more[..|more| - 1], more[|more| - 1];
      HistoryIsKept(s0, events, m);
      assert (events + more)[..|events + more| - 1] == events + m;
      StepIsLater(Run(s0, events + m), e);
      LaterChains(Run(s0, events).table, Run(s0, events + m).table, Run(s0, events + more).table);
    }
  }

  /** A worker whose lease was superseded or has expired appends nothing. */
  lemma StaleWorkerIsHarmless(s: State, w: nat, step: Step)
    requires w in s.workers && !step.Claim? && !Current(s.table, TicketOf(s, w), true)
    ensures WorkerNext(s, w, step).table == s.table
  {
  }

  /** The worker has claimed, and its lease is gone. */
  predicate Stale(s: State, w: nat) {
    w in s.workers && !s.workers[w].pc.Waiting? && !Current(s.table, TicketOf(s, w), true)
  }

  /** A lease is only given up, or replaced under the next epoch. */
  lemma LeaseMoves(s: State, v: nat, step: Step)
    requires v in s.workers
    ensures var a, b := s.table, WorkerNext(s, v, step).table;
            b.now == a.now && if b.epoch == a.epoch then b.lease == a.lease || b.lease.None? else b.epoch == a.epoch + 1
  {
  }

  lemma OwnStepStaysStale(s: State, w: nat, step: Step)
    requires Stale(s, w)
    ensures Stale(WorkerNext(s, w, step), w) && WorkerNext(s, w, step).table == s.table
  {
    if !step.Claim? { StaleWorkerIsHarmless(s, w, step); }
  }

  lemma OtherStepStaysStale(s: State, v: nat, step: Step, w: nat)
    requires Stale(s, w) && WorkerInv(s, w) && v in s.workers && v != w
    ensures Stale(WorkerNext(s, v, step), w)
  {
    LeaseMoves(s, v, step);
    assert WorkerNext(s, v, step).workers[w] == s.workers[w];
  }

  lemma StepStaysStale(s: State, e: Event, w: nat)
    requires Stale(s, w) && WorkerInv(s, w)
    ensures Stale(Next(s, e), w)
  {
    if e.By? && e.worker in s.workers {
      if e.worker == w { OwnStepStaysStale(s, w, e.step); } else { OtherStepStaysStale(s, e.worker, e.step, w); }
    }
  }

  /** Lost once, a lease never comes back: in every continuation each step of its worker leaves the tables alone. */
  lemma {:induction false} StaleWorkerStaysHarmless(s0: State, events: seq<Event>, more: seq<Event>, w: nat, step: Step)
    requires Initial(s0) && Stale(Run(s0, events), w)
    ensures var s := Run(s0, events + more); Stale(s, w) && WorkerNext(s, w, step).table == s.table
  {
    if more == [] {
      assert events + more == events;
    } else {
      var m, e := more[..|more| - 1], more[|more| - 1];
      StaleWorkerStaysHarmless(s0, events, m, w, step);
      InitOfConcat(events, more);
      Reachable(s0, events + m);
      assert WorkerInv(Run(s0, events + m), w);
      StepStaysStale(Run(s0, events + m), e, w);
    }
    OwnStepStaysStale(Run(s0, events + more), w, step);
  }

  // ----- the opening of the attempt

  ghost predicate ConfirmedAt(events: seq<Event>, n: nat) {
    n < |events| && events[n].By? && events[n].step.Claim? && events[n].step.confirmed && events[n].step.authority
  }

  ghost predicate Confirmed(events: seq<Event>) { exists n: nat :: ConfirmedAt(events, n) }

  /** Nothing has happened yet: nobody got past its claim. */
  ghost predicate Blank(s: State) {
    && s.table == Table(s.table.now, false, None, 0, [], [], []) && s.calls == []
    && forall w :: w in s.workers ==> s.workers[w].pc.Waiting? || s.workers[w].pc.Finished?
  }

  lemma StepOpens(s: State, e: Event)
    requires Blank(s)
    ensures Blank(Next(s, e)) || ConfirmedAt([e], 0)
  {
  }

  /** In every run a first claim on confirmed evidence lies before anything else. */
  lemma {:induction false} NothingBeforeConfirmation(s0: State, events: seq<Event>)
    requires Initial(s0)
    ensures Blank(Run(s0, events)) || Confirmed(events)
  {
    if events != [] {
      var k := |events| - 1;
      NothingBeforeConfirmation(s0, events[..k]);
      if Confirmed(events[..k]) {
        var n: nat :| ConfirmedAt(events[..k], n);
        assert ConfirmedAt(events, n);
      } else {
        StepOpens(Run(s0, events[..k]), events[k]);
        if ConfirmedAt([events[k]], 0) { assert ConfirmedAt(events, k); }
      }
    }
  }
}
