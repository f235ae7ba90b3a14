/**
 An acquisition of egress.dfy is a sequence of critical sections of egress_protocol.dfy: each route it
 tries is one lease of the protocol, picked and then failed, or picked, checked and drifted, or held.
 So everything proved of every interleaving holds of the retry loop as it is written.
 */
module EgressRefinement {
  import opened Common
  import opened Egress
  import P = EgressProtocol

  /** From `first` on the numbers of the leases are still free. */
  ghost predicate Unused(s: P.State, first: nat) { forall l :: l in s.holders ==> l < first }

  lemma {:induction false} RunContinues(s0: P.State, events: seq<P.Event>, more: seq<P.Event>)
    ensures P.Run(s0, events + more) == P.Run(P.Run(s0, events), more)
  {
    if more == [] {
      assert events + more == events;
    } else {
      InitOfConcat(events, more);
      RunContinues(s0, events, more[..|more| - 1]);
    }
  }

  /** One more event behind a sequence that led here. */
  lemma Do(s: P.State, events: seq<P.Event>, e: P.Event) returns (more: seq<P.Event>)
    ensures more == events + [e] && P.Run(s, more) == P.Next(P.Run(s, events), e)
  {
    more := events + [e];
    assert more[..|more| - 1] == events;
  }

  lemma {:induction false} FirstFreeAt(candidates: seq<Candidate>, active: set<nat>) returns (k: nat)
    requires P.FirstFree(candidates, active).Some?
    ensures k < |candidates| && candidates[k] == P.FirstFree(candidates, active).value
    ensures forall i :: 0 <= i < k ==> candidates[i].fingerprint in active
  {
    k := 0;
    if candidates[0].fingerprint in active {
      k := FirstFreeAt(candidates[1..], active);
      k := k + 1;
    }
  }

  /** A picked route, with the list as it was at the pick. */
  function Picked(s: P.State, l: nat, c: Candidate, phase: P.Phase): P.State {
    s.(active := s.active + {c.fingerprint}, holders := s.holders[l := P.Holder(c, phase, |s.candidates|)])
  }

  /** A route that failed its trial: the exit is free again and barred. */
  function Dropped(s: P.State, l: nat, c: Candidate): P.State {
    P.Bar(s.(holders := s.holders[l := P.Holder(c, P.Done, |s.candidates|)]), c.fingerprint)
  }

  lemma Picks(s: P.State, l: nat, c: Candidate) returns (all: seq<P.Event>)
    requires P.FirstFree(s.candidates, s.active) == Some(c) && l !in s.holders
    ensures P.Run(s, all) == Picked(s, l, c, P.Phase.Picked)
  {
    all := Do(s, [], P.Pick(l));
  }

  /** Among these events is the failed trial of this lease. */
  ghost predicate TrialFails(s: P.State, all: seq<P.Event>, l: nat) {
    exists n: nat :: n < |all| && P.Fails(P.Run(s, all[..n]), all[n], l)
  }

  /** A client that cannot be built quarantines its exit. */
  lemma FailsClient(s: P.State, l: nat, c: Candidate) returns (all: seq<P.Event>)
    requires P.FirstFree(s.candidates, s.active) == Some(c) && l !in s.holders
    ensures P.Run(s, all) == Dropped(s, l, c) && TrialFails(s, all, l)
  {
    var picked := Picks(s, l, c);
    all := Do(s, picked, P.ClientFails(l));
    assert all[..|picked|] == picked && P.Fails(P.Run(s, all[..|picked|]), all[|picked|], l);
    assert s.active + {c.fingerprint} - {c.fingerprint} == s.active;
  }

  /** An exit that moved is barred under its lease, which is then released in its two critical sections. */
  lemma Drifts(s: P.State, l: nat, c: Candidate) returns (all: seq<P.Event>)
    requires P.FirstFree(s.candidates, s.active) == Some(c) && l !in s.holders
    ensures P.Run(s, all) == Dropped(s, l, c) && TrialFails(s, all, l)
  {
    var picked := Picks(s, l, c);
    var built := Do(s, picked, P.ClientBuilt(l));
    all := Do(s, built, P.Drifts(l));
    all := Do(s, all, P.FlagReleased(l));
    all := Do(s, all, P.FreeExit(l));
    assert all[..|built|] == built && P.Fails(P.Run(s, all[..|built|]), all[|built|], l);
    assert s.active + {c.fingerprint} - {c.fingerprint} == s.active;
  }

  lemma Holds(s: P.State, l: nat, c: Candidate) returns (all: seq<P.Event>)
    requires P.FirstFree(s.candidates, s.active) == Some(c) && l !in s.holders
    ensures P.Run(s, all) == Picked(s, l, c, P.Held)
  {
    all := Picks(s, l, c);
    all := Do(s, all, P.ClientBuilt(l));
    all := Do(s, all, P.Verified(l));
  }

  /** The protocol has run to the outcome of the acquisition: its list, its busy exits, and its lease, if any, in number `l`. */
  ghost predicate Acquired(s: P.State, trial: Candidate -> Trial, s': P.State, l: nat) {
    var chosen := Chosen(s.candidates, s.active, trial);
    && s'.candidates == Remaining(s.candidates, s.active, trial)
    && s'.active == (if chosen.Some? then s.active + {chosen.value.fingerprint} else s.active)
    && (forall o :: o in s.holders ==> o in s'.holders && s'.holders[o] == s.holders[o])
    && (forall o :: o in s'.holders && o !in s.holders && s'.holders[o].phase.Held? ==> chosen.Some? && o == l)
    && (chosen.Some? ==> l in s'.holders && l !in s.holders && s'.holders[l].candidate == chosen.value && s'.holders[l].phase.Held?)
  }

  /** Every acquisition is a sequence of protocol events with the very same outcome. */
  lemma {:induction false} AcquisitionIsProtocolRun(s: P.State, first: nat, trial: Candidate -> Trial) returns (all: seq<P.Event>, l: nat)
    requires Unused(s, first)
    ensures Acquired(s, trial, P.Run(s, all), l)
    decreases |s.candidates|
  {
    all, l := [], first;
    if P.FirstFree(s.candidates, s.active).None? {
      NothingFree(s.candidates, s.active, trial);
      return;
    }
    var k := FirstFreeAt(s.candidates, s.active);
    var c := s.candidates[k];
    match trial(c)
    case Good =>
      all := Holds(s, first, c);
      FirstFreeIsChosen(s.candidates, s.active, trial, k);
    case NoClient =>
      all := FailsClient(s, first, c);
      all, l := GoesOn(s, first, c, k, trial, all);
    case Drifted =>
      all := Drifts(s, first, c);
      all, l := GoesOn(s, first, c, k, trial, all);
  }

  /** Behind a failed trial the acquisition starts over on the shorter list. */
  lemma {:induction false} GoesOn(s: P.State, first: nat, c: Candidate, k: nat, trial: Candidate -> Trial, events: seq<P.Event>)
    returns (all: seq<P.Event>, l: nat)
    requires Unused(s, first) && P.Run(s, events) == Dropped(s, first, c)
    requires k < |s.candidates| && s.candidates[k] == c && c.fingerprint !in s.active && !trial(c).Good?
    requires forall i :: 0 <= i < k ==> s.candidates[i].fingerprint in s.active
    ensures Acquired(s, trial, P.Run(s, all), l)
    decreases |s.candidates|, 0
  {
    DroppedTrial(s.candidates, s.active, trial, k);
    var more;
    more, l := AcquisitionIsProtocolRun(Dropped(s, first, c), first + 1, trial);
    RunContinues(s, events, more);
    all := events + more;
  }

  /** So, behind any interleaving of other attempts, the exit an acquisition ends up with is nobody else's. */
  lemma AcquisitionJoinsAnyRun(s0: P.State, events: seq<P.Event>, first: nat, trial: Candidate -> Trial) returns (all: seq<P.Event>, l: nat)
    requires P.Initial(s0) && Unused(P.Run(s0, events), first)
    ensures events <= all && Acquired(P.Run(s0, events), trial, P.Run(s0, all), l)
    ensures var s, s' := P.Run(s0, events), P.Run(s0, all);
            Chosen(s.candidates, s.active, trial).Some? ==>
              forall o :: o in s'.holders && o != l && s'.holders[o].phase.Held? ==>
                s'.holders[o].candidate.fingerprint != s'.holders[l].candidate.fingerprint
  {
    var s := P.Run(s0, events);
    var more;
    more, l := AcquisitionIsProtocolRun(s, first, trial);
    RunContinues(s0, events, more);
    all := events + more;
    if Chosen(s.candidates, s.active, trial).Some? {
      var s' := P.Run(s0, all);
      forall o | o in s'.holders && o != l && s'.holders[o].phase.Held?
        ensures s'.holders[o].candidate.fingerprint != s'.holders[l].candidate.fingerprint
      {
        P.HeldExitsAreExclusive(s0, all, o, l);
      }
    }
  }
}
