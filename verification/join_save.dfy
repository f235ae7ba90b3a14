/**
 One run of saveRotationJoinCredentials (internal/runtime/rotation_join_credentials.go) behind its
 claim: per component a checkpoint is reused or a remote action is started, run and stored; then
 the pair is published; the lease is released on every way out.
 join_credentials_protocol.dfy interleaves the same transactions.
 */
module JoinSave {
  import opened Common
  import opened JoinCredentials

  /** What a remote proof of owner, identity and membership finds; only a doubtful one asks for review. */
  datatype Proof = Proven | Doubtful | Unreachable

  /**
   What the world shows the pass over one component; `answer` is the remote action's validated value.
   `proving` passes before the start is recorded, `delay` before the answer is there.
   */
  datatype Pass = Pass(
    checkpointValid: bool, proof: Proof, proving: nat, startAuthority: bool, mayAct: bool, answer: Option<(nat, int)>, delay: nat,
    route: bool, storeAuthority: bool, reviewAuthority: bool)

  datatype End = Saved | AlreadyPublished | ReviewRequired | Interrupted

  lemma EventKept(before: seq<Mark>, after: seq<Mark>, kind: Kind)
    requires before <= after && HasStarted(before, kind)
    ensures HasStarted(after, kind)
  {
    var e :| e in before && e.kind == kind && !e.review;
    assert e in after;
  }

  lemma {:induction false} StoredKept(before: seq<Component>, after: seq<Component>, kind: Kind)
    requires before <= after && Stored(before, kind).Some?
    ensures Stored(after, kind) == Stored(before, kind)
  {
    if before[0].kind != kind {
      assert before[1..] <= after[1..];
      StoredKept(before[1..], after[1..], kind);
    }
  }

  // ----- the tables behind each part of a run

  function Later(t: Table, elapsed: nat): Table { t.(now := t.now + elapsed) }

  /** A stored component that no longer validates, or an action that was started and never stored. */
  predicate Unresolved(t: Table, kind: Kind, pass: Pass) {
    if Stored(t.components, kind).Some? then !pass.checkpointValid else HasStarted(t.events, kind)
  }

  predicate Startable(t: Table, kind: Kind) { Stored(t.components, kind).None? && !HasStarted(t.events, kind) }

  /** A remote action is called exactly when it was never started or stored, and its start can be recorded. */
  predicate Callable(t: Table, k: Ticket, kind: Kind, pass: Pass) {
    Startable(t, kind) && pass.proof.Proven? && Current(Later(t, pass.proving), k, pass.startAuthority) && pass.mayAct
  }

  /** The component is there already and still valid, or is called, answered and stored while the lease holds. */
  predicate Stores(t: Table, k: Ticket, kind: Kind, pass: Pass) {
    if Stored(t.components, kind).Some? then pass.checkpointValid
    else Callable(t, k, kind, pass) && pass.answer.Some? && pass.route
         && Current(Later(t, pass.proving + pass.delay), k, pass.storeAuthority)
  }

  /** What ends a pass with a request for review. */
  predicate AsksReview(t: Table, k: Ticket, kind: Kind, pass: Pass) {
    || Unresolved(t, kind, pass)
    || (Startable(t, kind) && pass.proof.Doubtful?)
    || (Callable(t, k, kind, pass) && pass.answer.None?)
  }

  /** The request for review is recorded: the lease still holds when it is made. */
  predicate RecordsReview(t: Table, k: Ticket, kind: Kind, pass: Pass) {
    || (Unresolved(t, kind, pass) && Current(t, k, pass.reviewAuthority))
    || (Callable(t, k, kind, pass) && pass.answer.None? && Current(Later(t, pass.proving + pass.delay), k, pass.reviewAuthority))
  }

  function AnsweredTx(t: Table, k: Ticket, kind: Kind, pass: Pass): Table {
    if pass.answer.None? then ReviewTx(t, k, kind, pass.reviewAuthority)
    else if !pass.route then t
    else StoreTx(t, k, kind, pass.answer.value.0, pass.answer.value.1, pass.storeAuthority)
  }

  function ObtainedTx(t: Table, k: Ticket, kind: Kind, pass: Pass): Table {
    var proven := Later(t, pass.proving);
    if !pass.proof.Proven? then proven
    else
      var started := StartTx(proven, k, kind, pass.startAuthority);
      if Current(proven, k, pass.startAuthority) && pass.mayAct then AnsweredTx(Later(started, pass.delay), k, kind, pass) else started
  }

  function ComponentTx(t: Table, k: Ticket, kind: Kind, pass: Pass): Table {
    if Unresolved(t, kind, pass) then ReviewTx(t, k, kind, pass.reviewAuthority)
    else if Stored(t.components, kind).Some? then t
    else ObtainedTx(t, k, kind, pass)
  }

  /** The tables behind a pass that stores its component. */
  function Behind(t: Table, k: Ticket, kind: Kind, pass: Pass): Table
    requires Stores(t, k, kind, pass)
  {
    if Stored(t.components, kind).Some? then t
    else t.(now := t.now + pass.proving + pass.delay, events := t.events + [Mark(kind, false, k.epoch)],
            components := t.components + [Component(kind, pass.answer.value.0, pass.answer.value.1, k.worker, k.epoch)])
  }

  lemma ReviewIsThere(t: Table, k: Ticket, kind: Kind, authority: bool)
    ensures var q := ReviewTx(t, k, kind, authority);
            && t.events <= q.events && q.components == t.components && q.generations == t.generations
            && (Current(t, k, authority) ==> HasReview(q.events, kind))
            && (HasReview(q.events, kind) && !HasReview(t.events, kind) ==> Current(t, k, authority))
            && (HasStarted(t.events, kind) ==> HasStarted(q.events, kind))
  {
    var q := ReviewTx(t, k, kind, authority);
    if q.events != t.events { assert q.events[|t.events|] in q.events; }
    if HasStarted(t.events, kind) { EventKept(t.events, q.events, kind); }
  }

  lemma StartIsThere(t: Table, k: Ticket, kind: Kind, authority: bool)
    ensures var q := StartTx(t, k, kind, authority);
            && t.events <= q.events && q.components == t.components && q.generations == t.generations
            && (Current(t, k, authority) ==> HasStarted(q.events, kind) && q.events == t.events + [Mark(kind, false, k.epoch)])
            && (HasReview(q.events, kind) <==> HasReview(t.events, kind))
  {
    var q := StartTx(t, k, kind, authority);
    if q.events != t.events {
      assert q.events == t.events + [Mark(kind, false, k.epoch)];
      assert q.events[|t.events|] in q.events;
    }
  }

  /** What one pass leaves, told from the old tables and the world. */
  ghost predicate Told(t: Table, k: Ticket, kind: Kind, pass: Pass, q: Table) {
    && t.events <= q.events && t.components <= q.components && q.generations == t.generations
    && (Callable(t, k, kind, pass) ==> HasStarted(q.events, kind))
    && |q.components| <= |t.components| + (if Callable(t, k, kind, pass) then 1 else 0)
    && (RecordsReview(t, k, kind, pass) ==> HasReview(q.events, kind))
    && (HasReview(q.events, kind) && !HasReview(t.events, kind) ==> RecordsReview(t, k, kind, pass))
    && (Stores(t, k, kind, pass) ==> q == Behind(t, k, kind, pass) && Stored(q.components, kind).Some?)
  }

  lemma AnsweredTells(t: Table, k: Ticket, kind: Kind, pass: Pass)
    requires Callable(t, k, kind, pass)
    ensures Told(t, k, kind, pass, AnsweredTx(Later(StartTx(Later(t, pass.proving), k, kind, pass.startAuthority), pass.delay), k, kind, pass))
  {
    var started := StartTx(Later(t, pass.proving), k, kind, pass.startAuthority);
    StartIsThere(Later(t, pass.proving), k, kind, pass.startAuthority);
    var waited := Later(started, pass.delay);
    var q := AnsweredTx(waited, k, kind, pass);
    ReviewIsThere(waited, k, kind, pass.reviewAuthority);
    if |q.components| > |t.components| { assert q.components[|t.components|].kind == kind; }
  }

  lemma ComponentTells(t: Table, k: Ticket, kind: Kind, pass: Pass)
    ensures Told(t, k, kind, pass, ComponentTx(t, k, kind, pass))
  {
    if Unresolved(t, kind, pass) {
      ReviewIsThere(t, k, kind, pass.reviewAuthority);
    } else if Callable(t, k, kind, pass) {
      AnsweredTells(t, k, kind, pass);
    } else {
      StartIsThere(Later(t, pass.proving), k, kind, pass.startAuthority);
    }
  }

  // ----- one component

  /** The remote action behind a recorded start, and the storing of its answer. */
  method Act(x: CredentialTables, k: Ticket, kind: Kind, pass: Pass) returns (end: Option<End>)
    requires HasStarted(x.events, kind)
    modifies x
    ensures HasStarted(x.events, kind) && old(x.events) <= x.events && old(x.components) <= x.components
    ensures |x.components| <= |old(x.components)| + 1
    ensures end.None? ==> pass.answer.Some? && x.components == old(x.components)
                          + [Component(kind, pass.answer.value.0, pass.answer.value.1, k.worker, k.epoch)]
    ensures x.generations == old(x.generations)
    ensures x.View() == AnsweredTx(Later(old(x.View()), pass.delay), k, kind, pass)
    ensures end.None? <==> pass.answer.Some? && pass.route && Current(Later(old(x.View()), pass.delay), k, pass.storeAuthority)
    ensures end.None? ==> Stored(x.components, kind).Some?
    ensures end.Some? ==> end == Some(if pass.answer.None? then ReviewRequired else Interrupted)
  {
    ghost var before := x.View();
    x.now := x.now + pass.delay;
    assert x.View() == Later(before, pass.delay);
    if pass.answer.None? {
      var _ := x.AppendReview(k, kind, pass.reviewAuthority);
      EventKept(old(x.events), x.events, kind);
      return Some(ReviewRequired);
    }
    if !pass.route { return Some(Interrupted); }
    var stored := x.AppendComponent(k, kind, pass.answer.value.0, pass.answer.value.1, pass.storeAuthority);
    if !stored.Done? { return Some(Interrupted); }
    assert x.components[|x.components| - 1].kind == kind;
    return None;
  }

  /** The durable start, and the admission rechecked behind it. */
  method Start(x: CredentialTables, k: Ticket, kind: Kind, pass: Pass) returns (go: bool)
    modifies x
    ensures x.View() == StartTx(old(x.View()), k, kind, pass.startAuthority)
    ensures go <==> Current(old(x.View()), k, pass.startAuthority) && pass.mayAct
    ensures go ==> HasStarted(x.events, kind)
  {
    var started := x.AppendStarted(k, kind, pass.startAuthority);
    if !started.Done? || !pass.mayAct { return false; }
    assert Mark(kind, false, k.epoch) in x.events;
    return true;
  }

  /** The remote action of a component that was neither stored nor started. */
  method Obtain(x: CredentialTables, k: Ticket, kind: Kind, pass: Pass) returns (called: bool, end: Option<End>)
    requires Startable(x.View(), kind)
    modifies x
    ensures called <==> Callable(old(x.View()), k, kind, pass)
    ensures x.View() == ObtainedTx(old(x.View()), k, kind, pass)
    ensures end.None? <==> Stores(old(x.View()), k, kind, pass)
    ensures end == Some(ReviewRequired) <==> pass.proof.Doubtful? || (called && pass.answer.None?)
    ensures end.Some? ==> end.value.ReviewRequired? || end.value.Interrupted?
  {
    ghost var before := x.View();
    x.now := x.now + pass.proving;
    assert x.View() == Later(before, pass.proving);
    if pass.proof != Proven { return false, Some(if pass.proof == Doubtful then ReviewRequired else Interrupted); }
    called := Start(x, k, kind, pass);
    if !called { return false, Some(Interrupted); }
    end := Act(x, k, kind, pass);
  }

  /**
   The pass over one component. It ends the run unless the component is stored and valid; what was
   started and never stored, or is stored and no longer valid, is left to review.
   */
  method SaveComponent(x: CredentialTables, k: Ticket, kind: Kind, pass: Pass) returns (called: bool, end: Option<End>)
    modifies x
    ensures called <==> Callable(old(x.View()), k, kind, pass)
    ensures called ==> HasStarted(x.events, kind)
    ensures end.None? <==> Stores(old(x.View()), k, kind, pass)
    ensures end.None? ==> x.View() == Behind(old(x.View()), k, kind, pass)
    ensures end == Some(ReviewRequired) <==> AsksReview(old(x.View()), k, kind, pass)
    ensures RecordsReview(old(x.View()), k, kind, pass) ==> exists e :: e in x.events && e.kind == kind && e.review
    ensures x.View() == ComponentTx(old(x.View()), k, kind, pass)
    ensures old(x.events) <= x.events && old(x.components) <= x.components
    ensures x.generations == old(x.generations) && |x.components| <= |old(x.components)| + (if called then 1 else 0)
    ensures end.None? ==> Stored(x.components, kind).Some? && (called || pass.checkpointValid)
    ensures end.Some? ==> end.value.ReviewRequired? || end.value.Interrupted?
  {
    ComponentTells(x.View(), k, kind, pass);
    if Stored(x.components, kind).Some? {
      if pass.checkpointValid { return false, None; }
      var _ := x.AppendReview(k, kind, pass.reviewAuthority);
      return false, Some(ReviewRequired);
    }
    if HasStarted(x.events, kind) {
      var _ := x.AppendReview(k, kind, pass.reviewAuthority);
      return false, Some(ReviewRequired);
    }
    called, end := Obtain(x, k, kind, pass);
  }

  // ----- the run

  /** What one run has done: calls in order, each one the first of its kind, recorded before it was made. */
  ghost predicate Honest(before: Table, after: Table, calls: seq<Kind>) {
    && (calls == [] || calls == [Web] || calls == [OAuth] || calls == [Web, OAuth])
    && (forall kind :: kind in calls ==> Stored(before.components, kind).None? && !HasStarted(before.events, kind)
                                         && HasStarted(after.events, kind))
    && (OAuth in calls ==> Stored(after.components, Web).Some?)
    && before.events <= after.events && before.components <= after.components && |after.components| <= |before.components| + |calls|
  }

  lemma StartsKept(first: Table, second: Table, kind: Kind)
    requires first.events <= second.events && first.components <= second.components
    requires Stored(second.components, kind).None? && !HasStarted(second.events, kind)
    ensures Stored(first.components, kind).None? && !HasStarted(first.events, kind)
  {
    if Stored(first.components, kind).Some? { StoredKept(first.components, second.components, kind); }
    if HasStarted(first.events, kind) { EventKept(first.events, second.events, kind); }
  }

  /** The second component changes nothing the first one's honesty rests on. */
  lemma HonestTwice(first: Table, second: Table, third: Table, calls: seq<Kind>, oauth: bool)
    requires Honest(first, second, calls) && OAuth !in calls && Stored(second.components, Web).Some?
    requires second.events <= third.events && second.components <= third.components
    requires |third.components| <= |second.components| + (if oauth then 1 else 0)
    requires oauth ==> Stored(second.components, OAuth).None? && !HasStarted(second.events, OAuth) && HasStarted(third.events, OAuth)
    ensures Honest(first, third, if oauth then calls + [OAuth] else calls)
  {
    StoredKept(second.components, third.components, Web);
    if oauth { StartsKept(first, second, OAuth); }
    if Web in calls { EventKept(second.events, third.events, Web); }
  }

  /** The tables in front of the oauth pass. */
  predicate ReachesOAuth(t: Table, k: Ticket, passes: map<Kind, Pass>)
    requires Web in passes
  {
    Stores(t, k, Web, passes[Web])
  }

  function WebBehind(t: Table, k: Ticket, passes: map<Kind, Pass>): Table
    requires Web in passes && ReachesOAuth(t, k, passes)
  {
    Behind(t, k, Web, passes[Web])
  }

  predicate StoresBoth(t: Table, k: Ticket, passes: map<Kind, Pass>)
    requires Web in passes && OAuth in passes
  {
    ReachesOAuth(t, k, passes) && Stores(WebBehind(t, k, passes), k, OAuth, passes[OAuth])
  }

  function BehindBoth(t: Table, k: Ticket, passes: map<Kind, Pass>): Table
    requires Web in passes && OAuth in passes && StoresBoth(t, k, passes)
  {
    Behind(WebBehind(t, k, passes), k, OAuth, passes[OAuth])
  }

  function PairTx(t: Table, k: Ticket, passes: map<Kind, Pass>): Table
    requires Web in passes && OAuth in passes
  {
    if ReachesOAuth(t, k, passes) then ComponentTx(WebBehind(t, k, passes), k, OAuth, passes[OAuth])
    else ComponentTx(t, k, Web, passes[Web])
  }

  /** The remote actions of the two passes. */
  function PairCalls(t: Table, k: Ticket, passes: map<Kind, Pass>): seq<Kind>
    requires Web in passes && OAuth in passes
  {
    (if Callable(t, k, Web, passes[Web]) then [Web] else [])
    + (if ReachesOAuth(t, k, passes) && Callable(WebBehind(t, k, passes), k, OAuth, passes[OAuth]) then [OAuth] else [])
  }

  lemma WebIsHonest(t: Table, k: Ticket, passes: map<Kind, Pass>)
    requires Web in passes
    ensures Honest(t, ComponentTx(t, k, Web, passes[Web]), if Callable(t, k, Web, passes[Web]) then [Web] else [])
  {
    ComponentTells(t, k, Web, passes[Web]);
  }

  lemma PairIsHonest(t: Table, k: Ticket, passes: map<Kind, Pass>)
    requires Web in passes && OAuth in passes
    ensures Honest(t, PairTx(t, k, passes), PairCalls(t, k, passes))
  {
    WebIsHonest(t, k, passes);
    ComponentTells(t, k, Web, passes[Web]);
    if ReachesOAuth(t, k, passes) {
      var behind := WebBehind(t, k, passes);
      ComponentTells(behind, k, OAuth, passes[OAuth]);
      HonestTwice(t, behind, PairTx(t, k, passes), if Callable(t, k, Web, passes[Web]) then [Web] else [],
                  Callable(behind, k, OAuth, passes[OAuth]));
    }
  }

  /** One of the two passes ends the run with a request for review. */
  predicate PairAsksReview(t: Table, k: Ticket, passes: map<Kind, Pass>)
    requires Web in passes && OAuth in passes
  {
    if ReachesOAuth(t, k, passes) then AsksReview(WebBehind(t, k, passes), k, OAuth, passes[OAuth])
    else AsksReview(t, k, Web, passes[Web])
  }

  /** What the world shows around the two passes: both proofs, the time before the publication, and its checks. */
  datatype Frame = Frame(proof: Proof, publishProof: Proof, publishing: nat, valid: bool, authority: bool)

  predicate Begins(t: Table, f: Frame) { f.proof.Proven? && t.generations == [] }

  /** The tables in front of the publication. */
  function Offered(t: Table, k: Ticket, passes: map<Kind, Pass>, f: Frame): Table
    requires Web in passes && OAuth in passes
  {
    Later(PairTx(t, k, passes), f.publishing)
  }

  /** A fresh pair is published: never published before, both components stored, and the pair is valid under the lease. */
  predicate Publishes(t: Table, k: Ticket, passes: map<Kind, Pass>, f: Frame)
    requires Web in passes && OAuth in passes
  {
    && Begins(t, f) && StoresBoth(t, k, passes) && f.publishProof.Proven?
    && MayPublish(Offered(t, k, passes, f), k, f.valid, f.authority)
  }

  /** What ends a run with a request for review. */
  predicate RunAsksReview(t: Table, k: Ticket, passes: map<Kind, Pass>, f: Frame)
    requires Web in passes && OAuth in passes
  {
    || f.proof.Doubtful?
    || (f.proof.Proven? && t.generations != [] && !PairValid(t, f.valid))
    || (Begins(t, f) && PairAsksReview(t, k, passes))
    || (Begins(t, f) && StoresBoth(t, k, passes)
        && (f.publishProof.Doubtful?
            || (f.publishProof.Proven? && Current(Offered(t, k, passes, f), k, f.authority) && !PairValid(Offered(t, k, passes, f), f.valid))))
  }

  /** The last proof and the publication. */
  function FinishedTx(pair: Table, k: Ticket, f: Frame): Table {
    var offered := Later(pair, f.publishing);
    if f.publishProof.Proven? then PublishTx(offered, k, f.valid, f.authority) else offered
  }

  lemma FinishKeeps(pair: Table, k: Ticket, f: Frame)
    ensures var q := FinishedTx(pair, k, f);
            && q.events == pair.events && q.components == pair.components
            && (q.generations != pair.generations ==> f.publishProof.Proven? && MayPublish(Later(pair, f.publishing), k, f.valid, f.authority))
  {
  }

  /** The tables behind the run, before its lease is released. */
  function SavedTx(t: Table, k: Ticket, passes: map<Kind, Pass>, f: Frame): Table
    requires Web in passes && OAuth in passes
  {
    if !Begins(t, f) then t
    else if !StoresBoth(t, k, passes) then PairTx(t, k, passes)
    else FinishedTx(PairTx(t, k, passes), k, f)
  }

  method SavePair(x: CredentialTables, k: Ticket, passes: map<Kind, Pass>) returns (calls: seq<Kind>, end: Option<End>)
    requires Web in passes && OAuth in passes
    modifies x
    ensures x.View() == PairTx(old(x.View()), k, passes) && calls == PairCalls(old(x.View()), k, passes)
    ensures end.None? <==> StoresBoth(old(x.View()), k, passes)
    ensures end.None? ==> x.View() == BehindBoth(old(x.View()), k, passes)
    ensures end == Some(ReviewRequired) <==> PairAsksReview(old(x.View()), k, passes)
    ensures end.Some? ==> end.value.ReviewRequired? || end.value.Interrupted?
  {
    var web, oauth;
    web, end := SaveComponent(x, k, Web, passes[Web]);
    calls := if web then [Web] else [];
    if end.Some? { return; }
    oauth, end := SaveComponent(x, k, OAuth, passes[OAuth]);
    if oauth { calls := calls + [OAuth]; }
  }

  method SaveLeased(x: CredentialTables, k: Ticket, passes: map<Kind, Pass>, f: Frame) returns (calls: seq<Kind>, end: End)
    requires Web in passes && OAuth in passes
    modifies x
    ensures x.View() == SavedTx(old(x.View()), k, passes, f)
    ensures calls == if Begins(old(x.View()), f) then PairCalls(old(x.View()), k, passes) else []
    ensures end.AlreadyPublished? <==> f.proof.Proven? && old(x.generations) != [] && PairValid(old(x.View()), f.valid)
    ensures end.Saved? <==> Publishes(old(x.View()), k, passes, f)
    ensures end.ReviewRequired? <==> RunAsksReview(old(x.View()), k, passes, f)
  {
    ghost var t := x.View();
    if f.proof != Proven { return [], if f.proof == Doubtful then ReviewRequired else Interrupted; }
    if x.generations != [] {
      var sound := x.Validate(f.valid);
      return [], if sound then AlreadyPublished else ReviewRequired;
    }
    var ended;
    calls, ended := SavePair(x, k, passes);
    if ended.Some? { return calls, ended.value; }
    x.now := x.now + f.publishing;
    assert x.View() == Offered(t, k, passes, f);
    if f.publishProof != Proven { return calls, if f.publishProof == Doubtful then ReviewRequired else Interrupted; }
    var published := x.Publish(k, f.valid, f.authority);
    if published.Done? { return calls, Saved; }
    return calls, if published.Review? then ReviewRequired else Interrupted;
  }

  lemma PairGenerations(t: Table, k: Ticket, passes: map<Kind, Pass>)
    requires Web in passes && OAuth in passes
    ensures PairTx(t, k, passes).generations == t.generations
  {
    ComponentTells(t, k, Web, passes[Web]);
    if ReachesOAuth(t, k, passes) { ComponentTells(WebBehind(t, k, passes), k, OAuth, passes[OAuth]); }
  }

  /** Publication and release leave journal and components as the two passes left them. */
  lemma SavedAsPair(t: Table, k: Ticket, passes: map<Kind, Pass>, f: Frame)
    requires Web in passes && OAuth in passes
    ensures var q, pair := SavedTx(t, k, passes, f), if Begins(t, f) then PairTx(t, k, passes) else t;
            && q.events == pair.events && q.components == pair.components && pair.generations == t.generations
            && (!Publishes(t, k, passes, f) ==> q.generations == t.generations)
  {
    PairGenerations(t, k, passes);
    FinishKeeps(PairTx(t, k, passes), k, f);
    assert Begins(t, f) && StoresBoth(t, k, passes) ==> SavedTx(t, k, passes, f) == FinishedTx(PairTx(t, k, passes), k, f);
  }

  lemma HonestSame(before: Table, a: Table, b: Table, calls: seq<Kind>)
    requires Honest(before, a, calls) && b.events == a.events && b.components == a.components
    ensures Honest(before, b, calls)
  {
  }

  lemma SavedIsHonest(t: Table, k: Ticket, passes: map<Kind, Pass>, f: Frame)
    requires Web in passes && OAuth in passes
    ensures Honest(t, ReleaseTx(SavedTx(t, k, passes, f), k), if Begins(t, f) then PairCalls(t, k, passes) else [])
    ensures !Publishes(t, k, passes, f) ==> SavedTx(t, k, passes, f).generations == t.generations
  {
    SavedAsPair(t, k, passes, f);
    var q := ReleaseTx(SavedTx(t, k, passes, f), k);
    if Begins(t, f) {
      PairIsHonest(t, k, passes);
      HonestSame(t, PairTx(t, k, passes), q, PairCalls(t, k, passes));
    } else {
      HonestSame(t, t, q, []);
    }
  }

  /** The request for review is in the journal of the pass that made it. */
  lemma ReviewIsRecorded(t: Table, k: Ticket, passes: map<Kind, Pass>, f: Frame)
    requires Web in passes && OAuth in passes && Begins(t, f)
    ensures RecordsReview(t, k, Web, passes[Web]) ==> HasReview(SavedTx(t, k, passes, f).events, Web)
    ensures ReachesOAuth(t, k, passes) && RecordsReview(WebBehind(t, k, passes), k, OAuth, passes[OAuth]) ==>
              HasReview(SavedTx(t, k, passes, f).events, OAuth)
  {
    ComponentTells(t, k, Web, passes[Web]);
    if ReachesOAuth(t, k, passes) { ComponentTells(WebBehind(t, k, passes), k, OAuth, passes[OAuth]); }
  }

  predicate HoldsLease(t: Table, k: Ticket) {
    t.lease.Some? && t.lease.value.worker == k.worker && t.lease.value.expires > t.now && t.epoch == k.epoch
  }

  /** Nothing is called or published without this worker's unexpired lease. */
  lemma ActsUnderLease(t: Table, k: Ticket, passes: map<Kind, Pass>, f: Frame)
    requires Web in passes && OAuth in passes
    requires (Begins(t, f) && PairCalls(t, k, passes) != []) || Publishes(t, k, passes, f)
    ensures HoldsLease(t, k)
  {
  }

  lemma PublishedPair(t: Table, k: Ticket, passes: map<Kind, Pass>, f: Frame)
    requires Web in passes && OAuth in passes && Publishes(t, k, passes, f)
    ensures var q := SavedTx(t, k, passes, f);
            var w, o := Stored(q.components, Web), Stored(q.components, OAuth);
            && w.Some? && o.Some? && o.value.expires > q.now + 60
            && q.generations == [Generation(w.value.digest, o.value.digest, Min(w.value.expires, o.value.expires), k.epoch)]
  {
  }

  /**
   The run. It saves exactly when nothing was published before, both components are stored in turn
   and the pair is valid under the lease; it asks for review exactly when a proof is doubtful or a
   component or pair cannot be settled, and records that for the component that stopped it while the
   lease holds. No remote action that was ever started is called again; oauth only behind a stored
   web component; a publication is one generation of exactly the stored pair; every other end
   publishes nothing; the exact lease is gone at the end unless it was lost before.
   */
  method Save(x: CredentialTables, k: Ticket, passes: map<Kind, Pass>, f: Frame) returns (calls: seq<Kind>, end: End)
    requires Web in passes && OAuth in passes
    modifies x
    ensures Honest(old(x.View()), x.View(), calls)
    ensures Web in calls <==> Begins(old(x.View()), f) && Callable(old(x.View()), k, Web, passes[Web])
    ensures OAuth in calls <==> Begins(old(x.View()), f) && ReachesOAuth(old(x.View()), k, passes)
                                && Callable(WebBehind(old(x.View()), k, passes), k, OAuth, passes[OAuth])
    ensures end.AlreadyPublished? <==> f.proof.Proven? && old(x.generations) != [] && PairValid(old(x.View()), f.valid)
    ensures end.AlreadyPublished? ==> calls == []
    ensures calls != [] || end.Saved? ==> HoldsLease(old(x.View()), k)
    ensures end.Saved? <==> Publishes(old(x.View()), k, passes, f)
    ensures end.ReviewRequired? <==> RunAsksReview(old(x.View()), k, passes, f)
    ensures Begins(old(x.View()), f) && RecordsReview(old(x.View()), k, Web, passes[Web]) ==>
              exists e :: e in x.events && e.kind == Web && e.review
    ensures Begins(old(x.View()), f) && ReachesOAuth(old(x.View()), k, passes)
            && RecordsReview(WebBehind(old(x.View()), k, passes), k, OAuth, passes[OAuth]) ==>
              exists e :: e in x.events && e.kind == OAuth && e.review
    ensures end.Saved? ==> x.View() == ReleaseTx(PublishTx(Offered(old(x.View()), k, passes, f), k, f.valid, f.authority), k)
    ensures end.Saved? ==>
              && old(x.generations) == [] && |x.generations| == 1
              && var w, o := Stored(x.components, Web), Stored(x.components, OAuth);
              && w.Some? && o.Some? && o.value.expires > x.now + 60
              && x.generations[0] == Generation(w.value.digest, o.value.digest, Min(w.value.expires, o.value.expires), k.epoch)
    ensures !end.Saved? ==> x.generations == old(x.generations)
    ensures x.View() == ReleaseTx(SavedTx(old(x.View()), k, passes, f), k)
    ensures !Current(x.View(), k, true)
  {
    ghost var t := x.View();
    calls, end := SaveLeased(x, k, passes, f);
    SavedIsHonest(t, k, passes, f);
    if Begins(t, f) { ReviewIsRecorded(t, k, passes, f); }
    if end.Saved? { PublishedPair(t, k, passes, f); }
    if calls != [] || end.Saved? { ActsUnderLease(t, k, passes, f); }
    x.Release(k);
  }
}
