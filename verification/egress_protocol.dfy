/**
 Every interleaving of the egress manager's critical sections (internal/egress/lease.go) over
 any number of attempts: picks, failed clients, remeasurements that drift at any later time,
 and releases whose two critical sections other attempts may split.
 */
module EgressProtocol {
  import opened Common
  import opened Egress

  /**
   Where one lease stands. `Picked`: its exit is marked busy; `Checking`: its first
   remeasurement runs; `Failed`: that one drifted; `Held`: returned to its caller;
   `Releasing`: flagged as released, exit not yet freed; `Done`: freed or quarantined.
   */
  datatype Phase = Picked | Checking | Failed | Held | Releasing | Done

  /** `length` is the length of the candidate list when the exit was picked. */
  datatype Holder = Holder(candidate: Candidate, phase: Phase, length: nat)

  datatype State = State(candidates: seq<Candidate>, active: set<nat>, holders: map<nat, Holder>, barred: set<nat>)

  datatype Event =
    | Pick(lease: nat) | ClientFails(lease: nat) | ClientBuilt(lease: nat) | Verified(lease: nat)
    | Drifts(lease: nat) | FlagReleased(lease: nat) | FreeExit(lease: nat)

  /** The exit is marked busy on behalf of this lease. */
  predicate Owns(h: Holder) { h.phase != Done }

  function FirstFree(candidates: seq<Candidate>, active: set<nat>): (c: Option<Candidate>)
    ensures c.Some? ==> c.value in candidates && c.value.fingerprint !in active
    ensures c.None? ==> forall x :: x in candidates ==> x.fingerprint in active
  {
    if candidates == [] then None
    else if candidates[0].fingerprint !in active then Some(candidates[0])
    else FirstFree(candidates[1..], active)
  }

  function Advance(s: State, l: nat, phase: Phase): State
    requires l in s.holders
  {
    s.(holders := s.holders[l := s.holders[l].(phase := phase)])
  }

  function Bar(s: State, fingerprint: nat): State {
    s.(candidates := Excluding(s.candidates, fingerprint), barred := s.barred + {fingerprint})
  }

  function Free(s: State, fingerprint: nat): State { s.(active := s.active - {fingerprint}) }

  function Next(s: State, e: Event): State {
    var l := e.lease;
    if e.Pick? then
      var c := FirstFree(s.candidates, s.active);
      if l in s.holders || c.None? then s
      else s.(active := s.active + {c.value.fingerprint},
              holders := s.holders[l := Holder(c.value, Picked, |s.candidates|)])
    else if l !in s.holders then s
    else
      var h := s.holders[l];
      match e
      case Pick(_) => s
      case ClientFails(_) => if h.phase.Picked? then Bar(Free(Advance(s, l, Done), h.candidate.fingerprint), h.candidate.fingerprint) else s
      case ClientBuilt(_) => if h.phase.Picked? then Advance(s, l, Checking) else s
      case Verified(_) => if h.phase.Checking? then Advance(s, l, Held) else s
      case Drifts(_) =>
        if h.phase.Checking? then Bar(Advance(s, l, Failed), h.candidate.fingerprint)
        else if h.phase.Held? || h.phase.Releasing? || h.phase.Done? then Bar(s, h.candidate.fingerprint)
        else s
      case FlagReleased(_) => if h.phase.Failed? || h.phase.Held? then Advance(s, l, Releasing) else s
      case FreeExit(_) => if h.phase.Releasing? then Free(Advance(s, l, Done), h.candidate.fingerprint) else s
  }

  function Run(s: State, events: seq<Event>): State {
    if events == [] then s else Next(Run(s, events[..|events| - 1]), events[|events| - 1])
  }

  predicate Initial(s: State) { s.active == {} && s.holders == map[] && s.barred == {} }

  // ----- exclusion and conservation, whatever the candidate list looks like

  ghost predicate Apart(s: State, a: nat, b: nat) {
    a in s.holders && b in s.holders && a != b && Owns(s.holders[a]) && Owns(s.holders[b]) ==>
      s.holders[a].candidate.fingerprint != s.holders[b].candidate.fingerprint
  }

  ghost predicate OwnerOf(s: State, l: nat, fingerprint: nat) {
    l in s.holders && Owns(s.holders[l]) && s.holders[l].candidate.fingerprint == fingerprint
  }

  ghost predicate Exclusive(s: State) {
    && (forall a, b {:trigger Apart(s, a, b)} :: Apart(s, a, b))
    && (forall l :: l in s.holders && Owns(s.holders[l]) ==> s.holders[l].candidate.fingerprint in s.active)
    && (forall f :: f in s.active ==> exists l :: OwnerOf(s, l, f))
  }

  lemma KeepsOwners(s: State, e: Event, f: nat)
    requires Exclusive(s) && f in Next(s, e).active
    ensures exists l :: OwnerOf(Next(s, e), l, f)
  {
    var s' := Next(s, e);
    if f in s.active {
      var l :| OwnerOf(s, l, f);
      assert OwnerOf(s', l, f);
    } else {
      assert OwnerOf(s', e.lease, f);
    }
  }

  lemma StepExcludes(s: State, e: Event)
    requires Exclusive(s)
    ensures Exclusive(Next(s, e))
  {
    var s' := Next(s, e);
    forall a, b ensures Apart(s', a, b) { assert Apart(s, a, b); }
    forall l | l in s'.holders && Owns(s'.holders[l]) ensures s'.holders[l].candidate.fingerprint in s'.active {
      assert Apart(s, e.lease, l);
    }
    forall f | f in s'.active ensures exists l :: OwnerOf(s', l, f) { KeepsOwners(s, e, f); }
  }

  lemma {:induction false} Excludes(s0: State, events: seq<Event>)
    requires Initial(s0)
    ensures Exclusive(Run(s0, events))
  {
    if events != [] {
      Excludes(s0, events[..|events| - 1]);
      StepExcludes(Run(s0, events[..|events| - 1]), events[|events| - 1]);
    }
  }

  /** Two leases in callers' hands never share an exit, and both exits are marked busy. */
  lemma {:induction false} HeldExitsAreExclusive(s0: State, events: seq<Event>, a: nat, b: nat)
    requires Initial(s0)
    ensures var s := Run(s0, events);
            a != b && a in s.holders && b in s.holders && s.holders[a].phase.Held? && s.holders[b].phase.Held? ==>
              var f, g := s.holders[a].candidate.fingerprint, s.holders[b].candidate.fingerprint;
              f != g && f in s.active && g in s.active
  {
    Excludes(s0, events);
    assert Apart(Run(s0, events), a, b);
  }

  function OwnersOf(s: State): set<nat> { set l | l in s.holders && Owns(s.holders[l]) }

  lemma {:induction false} SameCount(s: State, owners: set<nat>)
    requires owners <= OwnersOf(s) && forall a, b {:trigger Apart(s, a, b)} :: Apart(s, a, b)
    ensures |set l | l in owners :: s.holders[l].candidate.fingerprint| == |owners|
  {
    if l :| l in owners {
      var rest := owners - {l};
      SameCount(s, rest);
      var some := set x | x in rest :: s.holders[x].candidate.fingerprint;
      forall x | x in rest ensures s.holders[x].candidate.fingerprint != s.holders[l].candidate.fingerprint { assert Apart(s, x, l); }
      assert (set x | x in owners :: s.holders[x].candidate.fingerprint) == some + {s.holders[l].candidate.fingerprint};
    }
  }

  /** The busy exits are exactly those of the attempts that have not given theirs back, one each. */
  lemma {:induction false} ActiveCountsOwners(s0: State, events: seq<Event>)
    requires Initial(s0)
    ensures var s := Run(s0, events);
            && s.active == (set l | l in OwnersOf(s) :: s.holders[l].candidate.fingerprint) && |s.active| == |OwnersOf(s)|
  {
    Excludes(s0, events);
    var s := Run(s0, events);
    forall f | f in s.active ensures f in set l | l in OwnersOf(s) :: s.holders[l].candidate.fingerprint {
      var l :| OwnerOf(s, l, f);
      assert l in OwnersOf(s);
    }
    SameCount(s, OwnersOf(s));
  }

  /** Releasing, once or again, never frees an exit that somebody else owns by then. */
  lemma {:induction false} ReleaseFreesOnlyItsOwn(s0: State, events: seq<Event>, l: nat, e: Event, other: nat)
    requires Initial(s0) && (e == FlagReleased(l) || e == FreeExit(l)) && other != l
    requires other in Run(s0, events).holders && Owns(Run(s0, events).holders[other])
    ensures var s := Run(s0, events);
            && Next(s, e).holders[other] == s.holders[other] && s.holders[other].candidate.fingerprint in Next(s, e).active
            && (l in s.holders && s.holders[l].phase.Done? ==> Next(s, e) == s)
  {
    Excludes(s0, events);
    assert Apart(Run(s0, events), l, other);
  }

  // ----- a barred exit stays barred

  lemma {:induction false} ExcludingKeeps(candidates: seq<Candidate>, f: nat)
    ensures |Excluding(candidates, f)| == |candidates| - if f in Fingerprints(candidates) then 1 else 0
    ensures forall c :: c in Excluding(candidates, f) ==> c in candidates
    ensures forall c :: c in candidates && c.fingerprint != f ==> c in Excluding(candidates, f)
    ensures DistinctExits(candidates) ==> DistinctExits(Excluding(candidates, f)) && f !in Fingerprints(Excluding(candidates, f))
  {
    if candidates != [] {
      ExcludingKeeps(candidates[1..], f);
      assert forall c :: c in candidates <==> c == candidates[0] || c in candidates[1..];
    }
  }

  lemma {:induction false} NoRoutes(candidates: seq<Candidate>, f: nat)
    ensures Routes(candidates, f) == 0 <==> f !in Fingerprints(candidates)
  {
    if candidates != [] {
      NoRoutes(candidates[1..], f);
      assert forall c :: c in candidates <==> c == candidates[0] || c in candidates[1..];
    }
  }

  /** Dropping the first match bars an exit for good exactly when no second route shares it. */
  lemma {:induction false} BarredIffSingle(candidates: seq<Candidate>, f: nat)
    ensures f !in Fingerprints(Excluding(candidates, f)) <==> Routes(candidates, f) <= 1
  {
    NoRoutes(candidates, f);
    if candidates != [] {
      if candidates[0].fingerprint == f {
        NoRoutes(candidates[1..], f);
      } else {
        BarredIffSingle(candidates[1..], f);
        var rest := Excluding(candidates[1..], f);
        assert Excluding(candidates, f) == [candidates[0]] + rest;
        assert forall c :: c in Excluding(candidates, f) <==> c == candidates[0] || c in rest;
      }
    }
  }

  ghost predicate HolderInv(s: State, l: nat) {
    l in s.holders &&
    var h := s.holders[l];
    && (h.candidate in s.candidates || h.candidate.fingerprint in s.barred)
    && (h.phase.Failed? ==> h.candidate.fingerprint in s.barred)
  }

  ghost predicate BarredInv(s: State) {
    && DistinctExits(s.candidates) && s.barred !! Fingerprints(s.candidates)
    && forall l {:trigger HolderInv(s, l)} :: l in s.holders ==> HolderInv(s, l)
  }

  lemma KeepsHolder(s: State, e: Event, l: nat)
    requires BarredInv(s) && HolderInv(s, l)
    ensures HolderInv(Next(s, e), l)
  {
    if e.lease in s.holders {
      assert HolderInv(s, e.lease);
      var f := s.holders[e.lease].candidate.fingerprint;
      ExcludingKeeps(s.candidates, f);
    }
  }

  lemma StepBars(s: State, e: Event)
    requires BarredInv(s)
    ensures BarredInv(Next(s, e))
  {
    var s' := Next(s, e);
    if e.lease in s.holders {
      assert HolderInv(s, e.lease);
      ExcludingKeeps(s.candidates, s.holders[e.lease].candidate.fingerprint);
    }
    forall l | l in s'.holders ensures HolderInv(s', l) {
      if l in s.holders { KeepsHolder(s, e, l); }
    }
  }

  lemma {:induction false} Bars(s0: State, events: seq<Event>)
    requires Initial(s0) && DistinctExits(s0.candidates)
    ensures BarredInv(Run(s0, events))
  {
    if events != [] {
      Bars(s0, events[..|events| - 1]);
      StepBars(Run(s0, events[..|events| - 1]), events[|events| - 1]);
    }
  }

  /** The list only shrinks, exits stay barred, and no lease is taken on a barred exit. */
  ghost predicate Later(a: State, b: State) {
    && (forall c :: c in b.candidates ==> c in a.candidates) && a.barred <= b.barred
    && (forall l :: l in a.holders ==> l in b.holders && b.holders[l].candidate == a.holders[l].candidate)
    && (forall l :: l in b.holders && l !in a.holders ==> b.holders[l].candidate.fingerprint !in a.barred)
  }

  lemma StepIsLater(s: State, e: Event)
    requires BarredInv(s)
    ensures Later(s, Next(s, e))
  {
    if e.lease in s.holders { ExcludingKeeps(s.candidates, s.holders[e.lease].candidate.fingerprint); }
  }

  lemma LaterChains(a: State, b: State, c: State)
    requires Later(a, b) && Later(b, c)
    ensures Later(a, c)
  {
  }

  lemma RunGrows(s0: State, events: seq<Event>, more: seq<Event>)
    requires more != []
    ensures Run(s0, events + more) == Next(Run(s0, events + more[..|more| - 1]), more[|more| - 1])
  {
    InitOfConcat(events, more);
  }

  /** With the distinct exits of an admission, a drifted or quarantined exit is never leased again. */
  lemma {:induction false} BarredIsNeverLeasedAgain(s0: State, events: seq<Event>, more: seq<Event>)
    requires Initial(s0) && DistinctExits(s0.candidates)
    ensures Later(Run(s0, events), Run(s0, events + more))
  {
    if more == [] {
      assert events + more == events;
    } else {
      var m := more[..|more| - 1];
      BarredIsNeverLeasedAgain(s0, events, m);
      RunGrows(s0, events, more);
      Bars(s0, events + m);
      StepIsLater(Run(s0, events + m), more[|more| - 1]);
      LaterChains(Run(s0, events), Run(s0, events + m), Run(s0, events + more));
    }
  }

  // ----- retries are bounded, whatever the candidate list looks like

  /** Since its pick either the holder's exit is still listed or the list has shrunk. */
  ghost predicate Shrinking(s: State, l: nat) {
    l in s.holders && |s.candidates| <= s.holders[l].length
    && (s.holders[l].candidate.fingerprint in Fingerprints(s.candidates) || |s.candidates| < s.holders[l].length)
  }

  lemma {:induction false} ExcludingShrinks(candidates: seq<Candidate>, f: nat)
    ensures |Excluding(candidates, f)| < |candidates| || Excluding(candidates, f) == candidates
    ensures f in Fingerprints(candidates) ==> |Excluding(candidates, f)| < |candidates|
  {
    ExcludingKeeps(candidates, f);
    if candidates != [] && candidates[0].fingerprint != f { ExcludingShrinks(candidates[1..], f); }
  }

  lemma StepShrinks(s: State, e: Event, l: nat)
    requires l in Next(s, e).holders && (l in s.holders ==> Shrinking(s, l))
    ensures Shrinking(Next(s, e), l) && |Next(s, e).candidates| <= |s.candidates|
  {
    if e.lease in s.holders { ExcludingShrinks(s.candidates, s.holders[e.lease].candidate.fingerprint); }
    if l !in s.holders { assert FirstFree(s.candidates, s.active).value in s.candidates; }
  }

  lemma {:induction false} Shrinks(s0: State, events: seq<Event>, l: nat)
    requires Initial(s0) && l in Run(s0, events).holders
    ensures Shrinking(Run(s0, events), l)
  {
    var s := Run(s0, events[..|events| - 1]);
    if l in s.holders { Shrinks(s0, events[..|events| - 1], l); }
    StepShrinks(s, events[|events| - 1], l);
  }

  /** The event ends the trial of a picked or checked exit. */
  predicate Fails(s: State, e: Event, l: nat) {
    l in s.holders
    && ((e == ClientFails(l) && s.holders[l].phase.Picked?) || (e == Drifts(l) && s.holders[l].phase.Checking?))
  }

  /** A trial that fails leaves the list shorter than it was at its pick, whatever the other attempts did meanwhile. */
  lemma {:induction false} FailedTrialShrinks(s0: State, events: seq<Event>, l: nat, e: Event)
    requires Initial(s0) && Fails(Run(s0, events), e, l)
    ensures var s := Run(s0, events);
            && |Next(s, e).candidates| < s.holders[l].length
            && s.holders[l].candidate.fingerprint in Next(s, e).barred
  {
    Shrinks(s0, events, l);
    var s := Run(s0, events);
    ExcludingKeeps(s.candidates, s.holders[l].candidate.fingerprint);
  }

  /** The state before step `n` of a run. */
  function At(s0: State, events: seq<Event>, n: nat): State
    requires n <= |events|
  {
    Run(s0, events[..n])
  }

  lemma AtNext(s0: State, events: seq<Event>, n: nat)
    requires n < |events|
    ensures At(s0, events, n + 1) == Next(At(s0, events, n), events[n])
  {
    InitOfTake(events, n);
  }

  /** A failed trial of a run: the steps of its pick and of its failure. */
  datatype Attempt = Attempt(pick: nat, fail: nat, lease: nat)

  ghost predicate AttemptOf(s0: State, events: seq<Event>, a: Attempt) {
    && a.pick < a.fail < |events| && events[a.pick] == Pick(a.lease) && a.lease !in At(s0, events, a.pick).holders
    && Fails(At(s0, events, a.fail), events[a.fail], a.lease)
  }

  predicate Before(a: Attempt, b: Attempt) { a.fail < b.pick }

  /** The failed trials of one acquisition: each picks only after the one before it failed. */
  ghost predicate OneAfterAnother(s0: State, events: seq<Event>, tries: seq<Attempt>) {
    && (forall i {:trigger AttemptOf(s0, events, tries[i])} :: 0 <= i < |tries| ==> AttemptOf(s0, events, tries[i]))
    && (forall i, j {:trigger Before(tries[i], tries[j])} :: 0 <= i < j < |tries| ==> Before(tries[i], tries[j]))
  }

  /** The list is no longer than it was, nor did a lease picked since see a longer one. */
  ghost predicate Since(a: State, b: State, l: nat) {
    |b.candidates| <= |a.candidates| && (l in b.holders && l !in a.holders ==> b.holders[l].length <= |a.candidates|)
  }

  lemma StepSince(a: State, s: State, e: Event, l: nat)
    requires Since(a, s, l)
    ensures Since(a, Next(s, e), l)
  {
    if e.lease in s.holders { ExcludingShrinks(s.candidates, s.holders[e.lease].candidate.fingerprint); }
  }

  lemma {:induction false} ListOnlyShrinks(s0: State, events: seq<Event>, m: nat, n: nat, l: nat)
    requires m <= n <= |events|
    ensures Since(At(s0, events, m), At(s0, events, n), l)
  {
    if m < n {
      ListOnlyShrinks(s0, events, m, n - 1, l);
      AtNext(s0, events, n - 1);
      StepSince(At(s0, events, m), At(s0, events, n - 1), events[n - 1], l);
    }
  }

  /** One failed trial uses up a route of the list as it was when the trial began. */
  lemma AttemptUsesRoute(s0: State, events: seq<Event>, a: Attempt)
    requires Initial(s0) && AttemptOf(s0, events, a)
    ensures |At(s0, events, a.fail + 1).candidates| < |At(s0, events, a.pick).candidates|
  {
    ListOnlyShrinks(s0, events, a.pick, a.fail, a.lease);
    FailedTrialShrinks(s0, events[..a.fail], a.lease, events[a.fail]);
    AtNext(s0, events, a.fail);
  }

  lemma TryUsesRoute(s0: State, events: seq<Event>, n: nat, a: Attempt)
    requires Initial(s0) && AttemptOf(s0, events, a) && n <= a.pick
    ensures |At(s0, events, a.fail + 1).candidates| < |At(s0, events, n).candidates|
  {
    AttemptUsesRoute(s0, events, a);
    ListOnlyShrinks(s0, events, n, a.pick, a.lease);
  }

  /** The step after the `k`-th failure. */
  function After(tries: seq<Attempt>, k: nat): nat
    requires k <= |tries|
  {
    if k == 0 then 0 else tries[k - 1].fail + 1
  }

  lemma TryFits(s0: State, events: seq<Event>, tries: seq<Attempt>, k: nat)
    requires OneAfterAnother(s0, events, tries) && k < |tries|
    ensures AttemptOf(s0, events, tries[k]) && After(tries, k) <= tries[k].pick
  {
    if k > 0 { assert Before(tries[k - 1], tries[k]); }
    assert AttemptOf(s0, events, tries[k]);
  }

  /** After `k` failed trials at least `k` routes are gone. */
  lemma {:induction false} TriesUseRoutes(s0: State, events: seq<Event>, tries: seq<Attempt>, k: nat)
    requires Initial(s0) && OneAfterAnother(s0, events, tries) && k <= |tries|
    ensures After(tries, k) <= |events| && k + |At(s0, events, After(tries, k)).candidates| <= |s0.candidates|
  {
    if k > 0 {
      TriesUseRoutes(s0, events, tries, k - 1);
      TryFits(s0, events, tries, k - 1);
      TryUsesRoute(s0, events, After(tries, k - 1), tries[k - 1]);
    }
  }

  /** No acquisition fails more often than there were routes, in any interleaving with any others. */
  lemma {:induction false} RetriesAreBounded(s0: State, events: seq<Event>, tries: seq<Attempt>)
    requires Initial(s0) && OneAfterAnother(s0, events, tries)
    ensures |tries| <= |s0.candidates|
  {
    TriesUseRoutes(s0, events, tries, |tries|);
  }

  /** Two routes behind one exit, as admission never lets in: the exit is leased again after it was barred. */
  lemma DuplicateExitReturns(one: Candidate, two: Candidate)
    requires one.fingerprint == two.fingerprint
    ensures exists s0, events, more, l ::
              && Initial(s0) && !DistinctExits(s0.candidates) && one.fingerprint in Run(s0, events).barred
              && l !in Run(s0, events).holders && l in Run(s0, events + more).holders
              && Run(s0, events + more).holders[l].candidate.fingerprint == one.fingerprint
  {
    var s0 := State([one, two], {}, map[], {});
    var e1, e2, e3 := Pick(0), ClientFails(0), Pick(1);
    var events, more := [e1, e2], [e3];
    assert Run(s0, []) == s0 && [e1][..0] == [] && events[..1] == [e1] && (events + more)[..2] == events;
    var s1 := Next(s0, e1);
    assert s0.candidates[0] == one && s0.candidates[1] == two && s1.holders[0] == Holder(one, Picked, 2);
    assert Run(s0, [e1]) == s1;
    var s2 := Next(s1, e2);
    assert Excluding([one, two], one.fingerprint) == [two];
    assert Run(s0, events) == s2 && s2.candidates == [two] && s2.active == {};
    assert Run(s0, events + more) == Next(s2, e3);
    assert 1 !in s2.holders && 1 in Next(s2, e3).holders;
  }
}
