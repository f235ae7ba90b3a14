/**
 Measured egress routes (internal/egress/egress.go, internal/egress/lease.go): admission keeps
 one route per measured exit, and the manager leases each exit to one attempt at a time.

 A fingerprint stands for the keyed digest of a measured address. What a probe or a
 transport returns is a parameter. The methods here run one at a time; egress_protocol.dfy
 interleaves their critical sections.
 */
module Egress {
  import opened Common

  datatype Mode = Direct | Required
  datatype Candidate = Candidate(id: nat, scheme: nat, fingerprint: nat, verifiedAt: int)

  /** A configured endpoint probed during admission. */
  datatype Probe = Measured(candidate: Candidate) | Unusable(id: nat)
  datatype Failure = ProbeFailed(id: nat) | DuplicateExit(id: nat)

  function Fingerprints(candidates: seq<Candidate>): set<nat> { set c | c in candidates :: c.fingerprint }

  predicate DistinctExits(candidates: seq<Candidate>) {
    forall i, j :: 0 <= i < j < |candidates| ==> candidates[i].fingerprint != candidates[j].fingerprint
  }

  predicate FirstMeasurement(probes: seq<Probe>, i: nat) {
    && i < |probes| && probes[i].Measured?
    && forall j :: 0 <= j < i && probes[j].Measured? ==> probes[j].candidate.fingerprint != probes[i].candidate.fingerprint
  }

  /** Some earlier route was measured at this exit. */
  predicate SeenExit(probes: seq<Probe>, fingerprint: nat) {
    exists p | p in probes :: p.Measured? && p.candidate.fingerprint == fingerprint
  }

  /** The routes let in, in the order of their endpoints: the first one of every exit. */
  function AdmittedOf(probes: seq<Probe>): seq<Candidate> {
    if probes == [] then []
    else
      var init, last := probes[..|probes| - 1], probes[|probes| - 1];
      AdmittedOf(init) + if last.Measured? && !SeenExit(init, last.candidate.fingerprint) then [last.candidate] else []
  }

  /** The endpoints that were not, in order, each with its reason. */
  function FailuresOf(probes: seq<Probe>): seq<Failure> {
    if probes == [] then []
    else
      var init, last := probes[..|probes| - 1], probes[|probes| - 1];
      FailuresOf(init) + if last.Unusable? then [ProbeFailed(last.id)]
                         else if SeenExit(init, last.candidate.fingerprint) then [DuplicateExit(last.candidate.id)] else []
  }

  lemma FirstMeasurementSnoc(init: seq<Probe>, last: Probe, i: nat)
    requires i < |init|
    ensures FirstMeasurement(init + [last], i) <==> FirstMeasurement(init, i)
  {
    assert forall j :: 0 <= j < |init| ==> (init + [last])[j] == init[j];
  }

  lemma LastIsFirst(init: seq<Probe>, last: Probe)
    requires last.Measured?
    ensures FirstMeasurement(init + [last], |init|) <==> !SeenExit(init, last.candidate.fingerprint)
  {
    var probes := init + [last];
    assert probes[|init|] == last && forall j :: 0 <= j < |init| ==> probes[j] == init[j];
    if SeenExit(init, last.candidate.fingerprint) {
      var p :| p in init && p.Measured? && p.candidate.fingerprint == last.candidate.fingerprint;
      var j :| 0 <= j < |init| && init[j] == p;
      assert probes[j].candidate.fingerprint == probes[|init|].candidate.fingerprint;
    } else {
      forall j | 0 <= j < |init| && probes[j].Measured? ensures probes[j].candidate.fingerprint != last.candidate.fingerprint {
        assert init[j] in init;
      }
    }
  }

  /** An exit was measured exactly when a route of it was let in; and every endpoint is let in or reported. */
  lemma {:induction false} AdmittedExits(probes: seq<Probe>)
    ensures forall f :: SeenExit(probes, f) <==> f in Fingerprints(AdmittedOf(probes))
    ensures DistinctExits(AdmittedOf(probes)) && |AdmittedOf(probes)| + |FailuresOf(probes)| == |probes|
    ensures AdmittedOf(probes) == [] <==> forall p :: p in probes ==> p.Unusable?
  {
    if probes != [] {
      var init, last := probes[..|probes| - 1], probes[|probes| - 1];
      AdmittedExits(init);
      assert probes == init + [last];
      assert forall p :: p in probes <==> p in init || p == last;
      var before, after := AdmittedOf(init), AdmittedOf(probes);
      forall f ensures SeenExit(probes, f) <==> f in Fingerprints(after) {
        assert SeenExit(probes, f) <==> SeenExit(init, f) || (last.Measured? && last.candidate.fingerprint == f);
        assert forall c :: c in after <==> c in before || (after != before && last.Measured? && c == last.candidate);
      }
    }
  }

  /** Let in are the candidates of the first measurements, and no others. */
  lemma {:induction false} AdmittedAreFirst(probes: seq<Probe>, c: Candidate)
    ensures c in AdmittedOf(probes) <==> exists i: nat :: FirstMeasurement(probes, i) && probes[i].candidate == c
  {
    if probes != [] {
      var init, last := probes[..|probes| - 1], probes[|probes| - 1];
      AdmittedAreFirst(init, c);
      assert probes == init + [last];
      if last.Measured? { LastIsFirst(init, last); }
      if c in AdmittedOf(init) {
        var i: nat :| FirstMeasurement(init, i) && init[i].candidate == c;
        FirstMeasurementSnoc(init, last, i);
        assert probes[i].candidate == c;
      } else if c in AdmittedOf(probes) {
        assert FirstMeasurement(probes, |init|) && probes[|init|].candidate == c;
      }
      forall i: nat | FirstMeasurement(probes, i) && probes[i].candidate == c ensures c in AdmittedOf(probes) {
        if i < |init| {
          FirstMeasurementSnoc(init, last, i);
          assert init[i].candidate == c;
        }
      }
    }
  }

  /** The routes keyed by the exit they were measured at. */
  ghost predicate Keyed(next: map<nat, Candidate>, admitted: seq<Candidate>) {
    next.Keys == Fingerprints(admitted) && forall c :: c in admitted ==> next[c.fingerprint] == c
  }

  lemma KeyedSnoc(next: map<nat, Candidate>, admitted: seq<Candidate>, c: Candidate)
    requires Keyed(next, admitted) && c.fingerprint !in next
    ensures Keyed(next[c.fingerprint := c], admitted + [c])
  {
    assert forall x :: x in admitted + [c] <==> x in admitted || x == c;
    forall x | x in admitted ensures x.fingerprint != c.fingerprint { assert x.fingerprint in Fingerprints(admitted); }
  }

  /** The probes of one admission, endpoint by endpoint. */
  method Measure(probes: seq<Probe>) returns (admitted: seq<Candidate>, failures: seq<Failure>, next: map<nat, Candidate>)
    ensures admitted == AdmittedOf(probes) && failures == FailuresOf(probes) && Keyed(next, admitted)
  {
    admitted, failures, next := [], [], map[];
    for i := 0 to |probes|
      invariant admitted == AdmittedOf(probes[..i]) && failures == FailuresOf(probes[..i]) && Keyed(next, admitted)
    {
      var probe := probes[i];
      InitOfTake(probes, i);
      AdmittedExits(probes[..i]);
      if probe.Unusable? {
        failures := failures + [ProbeFailed(probe.id)];
      } else if probe.candidate.fingerprint in next {
        failures := failures + [DuplicateExit(probe.candidate.id)];
      } else {
        KeyedSnoc(next, admitted, probe.candidate);
        next := next[probe.candidate.fingerprint := probe.candidate];
        admitted := admitted + [probe.candidate];
      }
    }
    assert probes[..|probes|] == probes;
  }

  class Router {
    const mode: Mode
    var candidates: map<nat, Candidate>

    constructor (mode: Mode)
      ensures this.mode == mode && candidates == map[]
    {
      this.mode, candidates := mode, map[];
    }

    /** Keeps the first route of every measured exit, and reports each of the others as a failure. */
    method Admit(probes: seq<Probe>) returns (admitted: seq<Candidate>, failures: seq<Failure>, ok: bool)
      modifies this
      ensures ok <==> mode.Direct? || exists p :: p in probes && p.Measured?
      ensures mode.Required? ==> admitted == AdmittedOf(probes) && failures == FailuresOf(probes)
      ensures mode.Direct? ==> admitted == [] && failures == [] && candidates == old(candidates)
      ensures DistinctExits(admitted)
      ensures mode.Required? ==>
                && |admitted| + |failures| == |probes|
                && (forall c :: c in admitted <==> exists i: nat :: FirstMeasurement(probes, i) && probes[i].candidate == c)
                && candidates.Keys == Fingerprints(admitted)
                && forall c :: c in admitted ==> candidates[c.fingerprint] == c
    {
      admitted, failures, ok := [], [], true;
      if mode.Direct? { return; }
      var next;
      admitted, failures, next := Measure(probes);
      AdmittedExits(probes);
      forall c ensures c in admitted <==> exists i: nat :: FirstMeasurement(probes, i) && probes[i].candidate == c { AdmittedAreFirst(probes, c); }
      candidates := next;
      // An empty set is an explicit failure; it never falls back to the direct transport.
      ok := |admitted| > 0;
    }

    method ClientFor(c: Candidate, transport: bool) returns (ok: bool)
      ensures ok <==> mode.Required? && Admitted(candidates, c) && transport
    {
      if mode != Required { return false; }
      if c.fingerprint !in candidates { return false; }
      var admitted := candidates[c.fingerprint];
      if admitted.id != c.id || admitted.scheme != c.scheme { return false; }
      return transport;
    }
  }

  /** The candidate is one the latest admission let in. */
  predicate Admitted(admitted: map<nat, Candidate>, c: Candidate) {
    c.fingerprint in admitted && admitted[c.fingerprint].id == c.id && admitted[c.fingerprint].scheme == c.scheme
  }

  /** Drops the first route of an exit. */
  function Excluding(candidates: seq<Candidate>, fingerprint: nat): seq<Candidate> {
    if candidates == [] then []
    else if candidates[0].fingerprint == fingerprint then candidates[1..]
    else [candidates[0]] + Excluding(candidates[1..], fingerprint)
  }

  lemma {:induction false} ExcludingAt(candidates: seq<Candidate>, fingerprint: nat, k: nat)
    requires k <= |candidates| && forall i :: 0 <= i < k ==> candidates[i].fingerprint != fingerprint
    requires k < |candidates| ==> candidates[k].fingerprint == fingerprint
    ensures Excluding(candidates, fingerprint) == if k < |candidates| then candidates[..k] + candidates[k + 1..] else candidates
  {
    if k > 0 { ExcludingAt(candidates[1..], fingerprint, k - 1); }
  }

  function Routes(candidates: seq<Candidate>, fingerprint: nat): nat {
    if candidates == [] then 0 else (if candidates[0].fingerprint == fingerprint then 1 else 0) + Routes(candidates[1..], fingerprint)
  }

  /** What one route turns out to be when an acquisition tries it. */
  datatype Trial = NoClient | Drifted | Good

  function TrialOf(admitted: map<nat, Candidate>, c: Candidate, transport: bool, measured: Option<nat>): Trial {
    if !Admitted(admitted, c) || !transport then NoClient
    else if measured != Some(c.fingerprint) then Drifted else Good
  }

  /** The route an acquisition ends up with: the first free one whose trial is good. */
  function Chosen(candidates: seq<Candidate>, active: set<nat>, trial: Candidate -> Trial): Option<Candidate> {
    if candidates == [] then None
    else if candidates[0].fingerprint !in active && trial(candidates[0]).Good? then Some(candidates[0])
    else Chosen(candidates[1..], active, trial)
  }

  /** The routes that stay: busy ones, the chosen one, and everything behind it. */
  function Remaining(candidates: seq<Candidate>, active: set<nat>, trial: Candidate -> Trial): seq<Candidate> {
    if candidates == [] then []
    else if candidates[0].fingerprint in active then [candidates[0]] + Remaining(candidates[1..], active, trial)
    else if trial(candidates[0]).Good? then candidates
    else Remaining(candidates[1..], active, trial)
  }

  predicate AnyDrift(candidates: seq<Candidate>, active: set<nat>, trial: Candidate -> Trial) {
    exists c | c in candidates :: c.fingerprint !in active && trial(c).Drifted?
  }

  /** Restarting behind a dropped route changes nothing: the retry loop is one pass over the list. */
  lemma {:induction false} DroppedTrial(candidates: seq<Candidate>, active: set<nat>, trial: Candidate -> Trial, k: nat)
    requires k < |candidates| && candidates[k].fingerprint !in active && !trial(candidates[k]).Good?
    requires forall i :: 0 <= i < k ==> candidates[i].fingerprint in active
    ensures var rest := Excluding(candidates, candidates[k].fingerprint);
            && rest == candidates[..k] + candidates[k + 1..]
            && Chosen(rest, active, trial) == Chosen(candidates, active, trial)
            && Remaining(rest, active, trial) == Remaining(candidates, active, trial)
            && (AnyDrift(candidates, active, trial) <==> trial(candidates[k]).Drifted? || AnyDrift(rest, active, trial))
  {
    ExcludingAt(candidates, candidates[k].fingerprint, k);
    if k > 0 {
      DroppedTrial(candidates[1..], active, trial, k - 1);
      ExcludingAt(candidates[1..], candidates[k].fingerprint, k - 1);
    }
  }

  lemma {:induction false} NothingFree(candidates: seq<Candidate>, active: set<nat>, trial: Candidate -> Trial)
    requires forall c :: c in candidates ==> c.fingerprint in active
    ensures Chosen(candidates, active, trial) == None && Remaining(candidates, active, trial) == candidates
  {
    if candidates != [] { NothingFree(candidates[1..], active, trial); }
  }

  lemma {:induction false} FirstFreeIsChosen(candidates: seq<Candidate>, active: set<nat>, trial: Candidate -> Trial, k: nat)
    requires k < |candidates| && candidates[k].fingerprint !in active && trial(candidates[k]).Good?
    requires forall i :: 0 <= i < k ==> candidates[i].fingerprint in active
    ensures Chosen(candidates, active, trial) == Some(candidates[k]) && Remaining(candidates, active, trial) == candidates
  {
    if k > 0 { FirstFreeIsChosen(candidates[1..], active, trial, k - 1); }
  }

  /**
   A leased route was free, is admitted and still has its measured exit. Over distinct exits an
   acquisition leaves no exit behind that it found broken.
   */
  lemma {:induction false} AcquisitionOutcome(candidates: seq<Candidate>, active: set<nat>, trial: Candidate -> Trial)
    ensures var r, rest := Chosen(candidates, active, trial), Remaining(candidates, active, trial);
            && (r.Some? ==> r.value in rest && r.value.fingerprint !in active && trial(r.value).Good?)
            && (r.None? <==> forall c :: c in candidates ==> c.fingerprint in active || !trial(c).Good?)
            && (forall c :: c in rest ==> c in candidates)
            && (DistinctExits(candidates) ==> DistinctExits(rest))
            && (r.None? ==> forall c :: c in rest ==> c.fingerprint in active)
  {
    if candidates != [] {
      AcquisitionOutcome(candidates[1..], active, trial);
      assert forall c :: c in candidates <==> c == candidates[0] || c in candidates[1..];
      if DistinctExits(candidates) {
        var rest := Remaining(candidates[1..], active, trial);
        assert forall i :: 0 <= i < |rest| ==> rest[i] in candidates[1..];
        assert DistinctExits([candidates[0]] + rest);
      }
    }
  }

  datatype LeaseError = CapacityExhausted | EgressDrift | LeaseReleased | NotAdmitted

  class LeaseManager {
    const router: Router
    var candidates: seq<Candidate>
    var active: set<nat>

    constructor (router: Router, admitted: seq<Candidate>)
      ensures this.router == router && active == {}
      ensures candidates == if router.mode.Required? then admitted else []
    {
      this.router, active := router, {};
      candidates := if router.mode.Required? then admitted else [];
    }

    /** excludeLocked: the slice is closed up in place over the first match. */
    method Exclude(fingerprint: nat)
      modifies this`candidates
      ensures candidates == Excluding(old(candidates), fingerprint)
    {
      var i := 0;
      while i < |candidates| && candidates[i].fingerprint != fingerprint
        invariant 0 <= i <= |candidates| && forall j :: 0 <= j < i ==> candidates[j].fingerprint != fingerprint
      {
        i := i + 1;
      }
      ExcludingAt(candidates, fingerprint, i);
      if i < |candidates| { candidates := candidates[..i] + candidates[i + 1..]; }
    }

    method Quarantine(fingerprint: nat)
      modifies this
      ensures active == old(active) - {fingerprint} && candidates == Excluding(old(candidates), fingerprint)
    {
      active := active - {fingerprint};
      Exclude(fingerprint);
    }

    method Free(fingerprint: nat)
      modifies this`active
      ensures active == old(active) - {fingerprint}
    {
      active := active - {fingerprint};
    }

    /** The first free route becomes busy. */
    method PickFree() returns (k: nat)
      modifies this`active
      ensures forall i :: 0 <= i < k <= |candidates| ==> candidates[i].fingerprint in old(active)
      ensures k <= |candidates|
      ensures k < |candidates| ==> candidates[k].fingerprint !in old(active) && active == old(active) + {candidates[k].fingerprint}
      ensures k == |candidates| ==> active == old(active)
    {
      k := 0;
      while k < |candidates|
        invariant k <= |candidates| && active == old(active)
        invariant forall i :: 0 <= i < k ==> candidates[i].fingerprint in active
      {
        if candidates[k].fingerprint !in active {
          active := active + {candidates[k].fingerprint};
          return;
        }
        k := k + 1;
      }
    }

    /**
     Leases the first free route that still works, or reports that none is left. Each failed
     trial removes its route, so the list measures the remaining work.
     */
    method Acquire(transports: Candidate -> bool, measures: Candidate -> Option<nat>,
                   now: int) returns (r: Option<Lease>, e: LeaseError)
      modifies this
      ensures router.mode.Direct? ==> r.Some? && r.value.mode.Direct? && active == old(active) && candidates == old(candidates)
      ensures router.mode.Direct? ==> r.value.candidate == Candidate(0, 0, 0, 0)
      ensures router.mode.Required? ==>
                var admitted := router.candidates;
                var trial := c => TrialOf(admitted, c, transports(c), measures(c));
                && candidates == Remaining(old(candidates), old(active), trial)
                && (r.None? <==> Chosen(old(candidates), old(active), trial).None?)
                && (r.None? ==> active == old(active)
                                && e == if AnyDrift(old(candidates), old(active), trial) then EgressDrift else CapacityExhausted)
                && (r.Some? ==> Some(r.value.candidate) == Chosen(old(candidates), old(active), trial)
                                && active == old(active) + {r.value.candidate.fingerprint}
                                && r.value.mode.Required? && r.value.verifiedAt == now)
      ensures r.Some? ==> fresh(r.value) && r.value.manager == this && !r.value.released
    {
      e := CapacityExhausted;
      if router.mode.Direct? {
        var direct := new Lease(this, Candidate(0, 0, 0, 0), Direct);
        return Some(direct), e;
      }
      ghost var admitted := router.candidates;
      ghost var trial := c => TrialOf(admitted, c, transports(c), measures(c));
      var drifted := false;
      while true
        invariant active == old(active)
        invariant Remaining(candidates, active, trial) == Remaining(old(candidates), old(active), trial)
        invariant Chosen(candidates, active, trial) == Chosen(old(candidates), old(active), trial)
        invariant AnyDrift(old(candidates), old(active), trial) <==> drifted || AnyDrift(candidates, active, trial)
        decreases |candidates|
      {
        label Trying:
        var k := PickFree();
        if k == |candidates| {
          NothingFree(candidates, old(active), trial);
          return None, if drifted then EgressDrift else CapacityExhausted;
        }
        var selected := candidates[k];
        var client := router.ClientFor(selected, transports(selected));
        if !client {
          DroppedTrial(candidates, old(active), trial, k);
          Quarantine(selected.fingerprint);
          continue;
        }
        var lease := new Lease(this, selected, Required);
        var drift := lease.Remeasure(measures(selected), now);
        if drift.Some? {
          drifted := true;
          DroppedTrial(old@Trying(candidates), old(active), trial, k);
          lease.Release();
          continue;
        }
        FirstFreeIsChosen(candidates, old(active), trial, k);
        return Some(lease), e;
      }
    }
  }

  class Lease {
    const manager: LeaseManager
    const candidate: Candidate
    const mode: Mode
    var verifiedAt: int
    var released: bool

    constructor (manager: LeaseManager, candidate: Candidate, mode: Mode)
      ensures this.manager == manager && this.candidate == candidate && this.mode == mode
      ensures verifiedAt == candidate.verifiedAt && !released
    {
      this.manager, this.candidate, this.mode := manager, candidate, mode;
      verifiedAt, released := candidate.verifiedAt, false;
    }

    /** Returns the exit exactly once: a second call changes nothing, whoever holds the exit by then. */
    method Release()
      modifies this`released, manager`active
      ensures released
      ensures manager.active == if old(released) || mode.Direct? then old(manager.active)
                                else old(manager.active) - {candidate.fingerprint}
    {
      if released { return; }
      released := true;
      if mode.Required? { manager.Free(candidate.fingerprint); }
    }

    /** A route whose exit moved is dropped for good; only an unmoved one is stamped. */
    method Remeasure(measured: Option<nat>, now: int) returns (e: Option<LeaseError>)
      modifies this`verifiedAt, manager`candidates
      ensures e == if released then Some(LeaseReleased)
                   else if mode.Required? && measured != Some(candidate.fingerprint) then Some(EgressDrift) else None
      ensures manager.candidates == if e == Some(EgressDrift) then Excluding(old(manager.candidates), candidate.fingerprint)
                                    else old(manager.candidates)
      ensures verifiedAt == if e.None? && mode.Required? then now else old(verifiedAt)
    {
      if released { return Some(LeaseReleased); }
      if mode.Direct? { return None; }
      if measured.None? {
        manager.Exclude(candidate.fingerprint);
        return Some(EgressDrift);
      }
      if measured.value != candidate.fingerprint {
        manager.Exclude(candidate.fingerprint);
        return Some(EgressDrift);
      }
      verifiedAt := now;
      return None;
    }
  }
}
