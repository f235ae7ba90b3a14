/**
 What authorization, replay and reload rely on: a ready preview can always be assigned, and
 the stored order of an assignment does not depend on the order it was requested in.
 */
module RotationPlanLaws {
  import opened Common
  import opened RotationPlan

  // ----- the order of the output

  lemma SamePermutation(a: seq<Assignment>, b: seq<Assignment>)
    requires OneToOne(a) && multiset(a) == multiset(b)
    ensures OneToOne(b) && Members(a) == Members(b) && Accounts(a) == Accounts(b)
    ensures forall x :: x in a <==> x in b
  {
    forall x ensures x in a <==> x in b { assert x in a <==> x in multiset(a); assert x in b <==> x in multiset(b); }
    forall i, j | 0 <= i < j < |b| ensures b[i].member != b[j].member && b[i].account != b[j].account {
      var s, t := b[i], b[j];
      if s == t { RepeatedTwice(b, i, j); OnceEach(a, s); }
      assert s in a && t in a;
    }
  }

  lemma {:induction false} OnceEach(a: seq<Assignment>, x: Assignment)
    requires OneToOne(a)
    ensures multiset(a)[x] <= 1
  {
    if a != [] {
      var rest, last := a[..|a| - 1], a[|a| - 1];
      OnceEach(rest, x);
      assert a == rest + [last];
      if last == x { assert x !in rest; }
    }
  }

  /** The first entry of a strictly sorted list is its least, so it is determined by the contents. */
  lemma SameFirst(a: seq<Assignment>, b: seq<Assignment>)
    requires a != [] && b != [] && Sorted(a) && Sorted(b) && OneToOne(a) && OneToOne(b)
    requires a[0] in b && b[0] in a
    ensures a[0] == b[0]
  {
    var i :| 0 <= i < |b| && b[i] == a[0];
    var j :| 0 <= j < |a| && a[j] == b[0];
    PrecedesIsTotal(a[0].member, b[0].member);
  }

  lemma TailContents(a: seq<Assignment>)
    requires a != []
    ensures multiset(a[1..]) == multiset(a) - multiset{a[0]}
  {
    assert a == [a[0]] + a[1..];
  }

  lemma {:induction false} SortedPermutationIsUnique(a: seq<Assignment>, b: seq<Assignment>)
    requires Sorted(a) && Sorted(b) && OneToOne(a) && multiset(a) == multiset(b)
    ensures a == b
  {
    assert |a| == |multiset(a)| && |b| == |multiset(b)|;
    if a != [] {
      SamePermutation(a, b);
      assert b[0] in b && a[0] in a;
      SameFirst(a, b);
      TailContents(a);
      TailContents(b);
      SortedPermutationIsUnique(a[1..], b[1..]);
    }
  }

  lemma PlanIgnoresOrder(p: Preview, r: seq<Assignment>, other: seq<Assignment>)
    requires IsPlan(p, r) && multiset(r) == multiset(other)
    ensures IsPlan(p, other)
  {
    SamePermutation(r, other);
    assert |r| == |multiset(r)| && |other| == |multiset(other)|;
  }

  /** Every ordering of a request gets the same answer, refusals included. */
  lemma {:induction false} OutcomeIgnoresOrder(p: Preview, r: seq<Assignment>, other: seq<Assignment>,
                            out: Option<seq<Assignment>>, out': Option<seq<Assignment>>)
    requires multiset(r) == multiset(other)
    ensures IsOutcome(p, r, out) && IsOutcome(p, other, out') ==> out == out'
  {
    if IsOutcome(p, r, out) && IsOutcome(p, other, out') {
      if IsPlan(p, r) {
        PlanIgnoresOrder(p, r, other);
        SamePermutation(r, out.value);
        SortedPermutationIsUnique(out.value, out'.value);
      } else if IsPlan(p, other) {
        PlanIgnoresOrder(p, other, r);
        assert false;
      }
    }
  }

  /** Checking a stored assignment again accepts it and leaves it as it is. */
  lemma {:induction false} ReapplyingChangesNothing(p: Preview, r: seq<Assignment>, stored: seq<Assignment>, again: Option<seq<Assignment>>)
    ensures IsOutcome(p, r, Some(stored)) && IsOutcome(p, stored, again) ==> again == Some(stored)
  {
    if IsOutcome(p, r, Some(stored)) && IsOutcome(p, stored, again) {
      OutcomeIgnoresOrder(p, r, stored, Some(stored), again);
    }
  }

  // ----- a ready preview can be assigned

  predicate Distinct<T(==)>(s: seq<T>) { forall i, j :: 0 <= i < j < |s| ==> s[i] != s[j] }

  lemma DistinctSnoc<T>(s: seq<T>, x: T)
    requires Distinct(s) && x !in s
    ensures Distinct(s + [x])
  {
  }

  function Pair(ids: seq<string>, accounts: seq<nat>): (r: seq<Assignment>)
    requires |ids| == |accounts|
    ensures |r| == |ids| && forall i :: 0 <= i < |r| ==> r[i] == Assignment(ids[i], accounts[i])
  {
    seq(|ids|, i requires 0 <= i < |ids| => Assignment(ids[i], accounts[i]))
  }

  lemma {:induction false} ReplacedSlots(slots: seq<Slot>)
    requires forall i, j :: 0 <= i < j < |slots| ==> slots[i].member != slots[j].member
    requires forall s :: s in slots && s.decision.Replaceable? ==> s.seat == Prolite
    ensures Distinct(Replaced(slots))
    ensures forall id :: id in Replaced(slots) <==> id in SlotSeats(slots)
    ensures forall id :: id in Replaced(slots) ==> exists i :: 0 <= i < |slots| && slots[i].member == id
    ensures forall id :: id in SlotSeats(slots) ==> SlotSeats(slots)[id] == Prolite
  {
    if slots != [] {
      var rest, last := slots[..|slots| - 1], slots[|slots| - 1];
      ReplacedSlots(rest);
      assert forall i :: 0 <= i < |rest| ==> rest[i] == slots[i];
      if last.decision.Replaceable? {
        assert last.member !in Replaced(rest);
        DistinctSnoc(Replaced(rest), last.member);
      }
    }
  }

  lemma {:induction false} JoiningCandidates(candidates: seq<Candidate>)
    requires forall i, j :: 0 <= i < j < |candidates| ==> candidates[i].account != candidates[j].account
    requires forall c :: c in candidates && c.decision.Eligible? ==> c.seat == Prolite
    ensures Distinct(Joining(candidates))
    ensures forall id :: id in Joining(candidates) <==> id in CandidateSeats(candidates)
    ensures forall id :: id in Joining(candidates) ==> exists i :: 0 <= i < |candidates| && candidates[i].account == id
    ensures forall id :: id in CandidateSeats(candidates) ==> CandidateSeats(candidates)[id] == Prolite
  {
    if candidates != [] {
      var rest, last := candidates[..|candidates| - 1], candidates[|candidates| - 1];
      JoiningCandidates(rest);
      assert forall i :: 0 <= i < |rest| ==> rest[i] == candidates[i];
      if last.decision.Eligible? {
        assert last.account !in Joining(rest);
        DistinctSnoc(Joining(rest), last.account);
      }
    }
  }

  lemma BuiltSlots(members: seq<Member>, slots: seq<Slot>)
    requires DistinctIds(members) && SlotsFit(members, slots)
    ensures forall i, j :: 0 <= i < j < |slots| ==> slots[i].member != slots[j].member
    ensures forall s :: s in slots && s.decision.Replaceable? ==> s.seat == Prolite
  {
    forall i | 0 <= i < |slots| ensures slots[i].member == members[i].id && (slots[i].decision.Replaceable? ==> slots[i].seat == Prolite) {
      assert SlotFits(members[i], slots[i]);
    }
  }

  lemma BuiltCandidates(children: seq<Child>, names: set<string>, candidates: seq<Candidate>)
    requires DistinctChildren(children) && CandidatesFit(children, names, candidates)
    ensures forall i, j :: 0 <= i < j < |candidates| ==> candidates[i].account != candidates[j].account
    ensures forall c :: c in candidates && c.decision.Eligible? ==> c.seat == Prolite && c.delivery.PendingFirstProbe?
  {
    forall i | 0 <= i < |candidates|
      ensures candidates[i].account == children[i].account
      ensures candidates[i].decision.Eligible? ==> candidates[i].seat == Prolite && candidates[i].delivery.PendingFirstProbe?
    {
      assert CandidateFits(children[i], names, candidates[i]);
    }
  }

  /** The replaceable slots and eligible candidates of a built preview: distinct, and all of the one paid seat type. */
  lemma BuiltPreview(f: Sources, e: Option<Evidence>, p: Preview)
    requires PreviewOf(f, e, p) && p.status.Ready?
    ensures Distinct(Replaced(p.slots)) && Distinct(Joining(p.candidates)) && AllPending(p.candidates)
    ensures forall id :: id in Replaced(p.slots) <==> id in SlotSeats(p.slots)
    ensures forall id :: id in Joining(p.candidates) <==> id in CandidateSeats(p.candidates)
    ensures forall id :: id in SlotSeats(p.slots) ==> SlotSeats(p.slots)[id] == Prolite
    ensures forall id :: id in CandidateSeats(p.candidates) ==> CandidateSeats(p.candidates)[id] == Prolite
  {
    BuiltSlots(f.members, p.slots);
    BuiltCandidates(f.children, Names(f.members), p.candidates);
    ReplacedSlots(p.slots);
    JoiningCandidates(p.candidates);
  }

  /** Pairing the two lists of a preview gives a plan as soon as they are equally long and not empty. */
  lemma {:induction false} PairingIsPlan(p: Preview)
    requires Distinct(Replaced(p.slots)) && Distinct(Joining(p.candidates)) && AllPending(p.candidates)
    requires forall id :: id in Replaced(p.slots) <==> id in SlotSeats(p.slots)
    requires forall id :: id in Joining(p.candidates) <==> id in CandidateSeats(p.candidates)
    requires forall id :: id in SlotSeats(p.slots) ==> SlotSeats(p.slots)[id] == Prolite
    requires forall id :: id in CandidateSeats(p.candidates) ==> CandidateSeats(p.candidates)[id] == Prolite
    requires 0 < |Replaced(p.slots)| == |Joining(p.candidates)|
    ensures IsPlan(p, Pair(Replaced(p.slots), Joining(p.candidates)))
  {
    var ids, accounts := Replaced(p.slots), Joining(p.candidates);
    var r := Pair(ids, accounts);
    forall id ensures id in Members(r) <==> id in SlotSeats(p.slots) {
      if id in ids {
        var i :| 0 <= i < |ids| && ids[i] == id;
        assert r[i] in r;
      }
    }
    forall id ensures id in Accounts(r) <==> id in CandidateSeats(p.candidates) {
      if id in accounts {
        var i :| 0 <= i < |accounts| && accounts[i] == id;
        assert r[i] in r;
      }
    }
    assert Members(r) == SlotSeats(p.slots).Keys && Accounts(r) == CandidateSeats(p.candidates).Keys;
  }

  /** Ready means assignable: some request will be accepted. */
  lemma {:induction false} ReadyIsAssignable(f: Sources, e: Option<Evidence>, p: Preview)
    requires PreviewOf(f, e, p) && p.status.Ready?
    ensures exists r :: IsPlan(p, r)
  {
    BuiltPreview(f, e, p);
    PairingIsPlan(p);
  }

  lemma OneSeatTypeMatches(p: Preview, r: seq<Assignment>)
    requires AllPending(p.candidates) && r != []
    requires forall id :: id in SlotSeats(p.slots) ==> SlotSeats(p.slots)[id] == Prolite
    requires forall id :: id in CandidateSeats(p.candidates) ==> CandidateSeats(p.candidates)[id] == Prolite
    ensures IsPlan(p, r) <==> OneToOne(r) && Members(r) == SlotSeats(p.slots).Keys && Accounts(r) == CandidateSeats(p.candidates).Keys
  {
    if Members(r) == SlotSeats(p.slots).Keys && Accounts(r) == CandidateSeats(p.candidates).Keys {
      forall a | a in r ensures SlotSeats(p.slots)[a.member] == CandidateSeats(p.candidates)[a.account] {
        assert a.member in Members(r) && a.account in Accounts(r);
      }
    }
  }

  /** In a built preview seat types never stand in the way: every complete one-to-one choice is accepted. */
  lemma {:induction false} ReadyPairsFreely(f: Sources, e: Option<Evidence>, p: Preview, r: seq<Assignment>)
    requires PreviewOf(f, e, p) && p.status.Ready?
    ensures IsPlan(p, r) <==>
              OneToOne(r) && Members(r) == (set id | id in Replaced(p.slots)) && Accounts(r) == (set id | id in Joining(p.candidates))
  {
    BuiltPreview(f, e, p);
    assert (set id | id in Replaced(p.slots)) == SlotSeats(p.slots).Keys;
    assert (set id | id in Joining(p.candidates)) == CandidateSeats(p.candidates).Keys;
    assert Replaced(p.slots)[0] in Replaced(p.slots);
    if r != [] { OneSeatTypeMatches(p, r); }
  }

  /** A protection that neither lets go of a seat nor settles that it stays. */
  predicate Open(p: Protection) {
    p.SaleReserved? || p.DeliveryPending? || p.SuspectedSold? || p.UnknownProtection? || p.Unrecognised?
  }

  /** Ready leaves nothing open: every slot is decided on valid evidence, every child on all of its proofs. */
  lemma {:induction false} ReadyIsSettled(f: Sources, e: Option<Evidence>, p: Preview)
    requires PreviewOf(f, e, p) && p.status.Ready?
    ensures f.verified && f.expired
    ensures forall s :: s in p.slots ==> !s.decision.NeedsVerification?
    ensures forall m :: m in f.members ==>
              && m.evidence && !Open(m.protection) && (m.everUsed || !m.previouslyUsed)
              && (m.verdict.Replaceable? || m.verdict.Retained?) && (m.delivered ==> !m.protection.Unprotected?)
    ensures forall c :: c in f.children ==>
              && c.evidence && c.usageProof && c.complete && c.listed && !Open(c.protection)
              && (c.everUsed || !c.previouslyUsed) && (c.invited ==> c.inviteProof) && (c.verdict.Eligible? || c.verdict.Excluded?)
  {
    forall m | m in f.members
      ensures m.evidence && !Open(m.protection) && (m.everUsed || !m.previouslyUsed)
      ensures (m.verdict.Replaceable? || m.verdict.Retained?) && (m.delivered ==> !m.protection.Unprotected?)
    {
      assert Settled(m);
    }
    forall c | c in f.children
      ensures c.evidence && c.usageProof && c.complete && c.listed && !Open(c.protection)
      ensures (c.everUsed || !c.previouslyUsed) && (c.invited ==> c.inviteProof) && (c.verdict.Eligible? || c.verdict.Excluded?)
    {
      assert ChildSettled(c, Names(f.members));
    }
    forall s | s in p.slots ensures !s.decision.NeedsVerification? {
      var i :| 0 <= i < |p.slots| && p.slots[i] == s;
      assert SlotFits(f.members[i], s) && f.members[i] in f.members;
    }
  }

  /** Ready rests on a current selection, lists of the verified sizes without a repeat, and permitted evidence for each entry. */
  lemma ReadyIsComplete(f: Sources, e: Option<Evidence>, p: Preview)
    requires PreviewOf(f, e, p) && p.status.Ready?
    ensures f.batchCurrent && f.destinationCurrent && |f.members| == f.memberCount && |f.invitations| == f.inviteCount && f.children != []
    ensures forall i, j :: 0 <= i < j < |f.members| ==> f.members[i].id != f.members[j].id && f.members[i].id != "" && f.members[j].id != ""
    ensures forall i, j :: 0 <= i < j < |f.invitations| ==> f.invitations[i] != f.invitations[j]
    ensures forall i, j :: 0 <= i < j < |f.children| ==> f.children[i].account != f.children[j].account
    ensures e.Some? && e.value.bound && e.value.permission && e.value.manage && (e.value.official ==> e.value.owner)
    ensures e.value.slots == |f.members| && e.value.candidates == |f.children| && e.value.invitations == |f.invitations|
    ensures forall k :: k in e.value.kinds ==> k.0 != NoSeat && k.1 >= 0
  {
  }

  /** Without valid evidence a slot that was never delivered is never decided, at whichever exit. */
  lemma {:induction false} UnprovedIsUndecided(f: Sources, e: Option<Evidence>, p: Preview, i: nat)
    requires PreviewOf(f, e, p) && i < |p.slots| && i < |f.members| && !f.members[i].evidence && !f.members[i].delivered
    ensures p.slots[i] == Slot(f.members[i].id, NoSeat, NeedsVerification) && !p.status.Ready?
  {
    assert f.members[i] in f.members;
    if Judged(f, e) {
      assert SlotFits(f.members[i], p.slots[i]);
      assert !Settled(f.members[i]);
    }
  }

  /** Where facts are missing nothing is decided: no slot is given away and no candidate is let in. */
  lemma UnjudgedIsUndecided(f: Sources, e: Option<Evidence>, p: Preview)
    requires PreviewOf(f, e, p) && !Judged(f, e)
    ensures forall s :: s in p.slots ==> s.seat == NoSeat && s.decision.NeedsVerification?
    ensures forall k :: k in p.candidates ==> k.seat == NoSeat && k.decision.Excluded? && k.delivery.Blocked?
    ensures !p.status.Ready? && (!f.expired ==> p.status.NotExpired? || !f.verified)
  {
  }

  /** An eligible candidate has every proof, at whichever exit. */
  lemma {:induction false} EligibleIsProved(f: Sources, e: Option<Evidence>, p: Preview, i: nat)
    requires PreviewOf(f, e, p) && i < |p.candidates| && i < |f.children| && p.candidates[i].decision.Eligible?
    ensures var c := f.children[i];
            && p.candidates[i] == Candidate(c.account, Prolite, Eligible, PendingFirstProbe)
            && c.evidence && c.usageProof && c.complete && !c.everUsed && !c.previouslyUsed && !c.delivered
            && c.protection.Unprotected? && c.invited && c.inviteProof && c.name !in Names(f.members)
  {
    if Judged(f, e) { assert CandidateFits(f.children[i], Names(f.members), p.candidates[i]); }
  }

  lemma {:induction false} CountIsListed(kinds: seq<(Seat, int)>, seat: Seat)
    ensures CountOf(kinds, seat) == 0 || (seat, CountOf(kinds, seat)) in kinds
  {
    if kinds != [] && kinds[|kinds| - 1].0 != seat { CountIsListed(kinds[..|kinds| - 1], seat); }
  }

  lemma {:induction false} AllTyped(members: seq<Member>)
    requires AllSettled(members)
    ensures Typed(members) == |members|
  {
    if members != [] {
      assert members[|members| - 1] in members;
      AllTyped(members[..|members| - 1]);
    }
  }

  lemma {:induction false} CountWithinSum(kinds: seq<(Seat, int)>, k: (Seat, int))
    requires k in kinds && forall x :: x in kinds ==> x.1 >= 0
    ensures k.1 <= Sum(kinds)
  {
    var init, last := kinds[..|kinds| - 1], kinds[|kinds| - 1];
    assert kinds == init + [last];
    SumGrows(kinds, |init|);
    if k in init {
      CountWithinSum(init, k);
    } else {
      SumGrows(init, 0);
    }
  }

  /** Ready means the one paid seat type fills the workspace: the proved count for it is the number of members. */
  lemma {:induction false} ReadySeatsArePaid(f: Sources, e: Option<Evidence>, p: Preview)
    requires PreviewOf(f, e, p) && p.status.Ready?
    ensures e.Some? && e.value.counts && e.value.paidDefault && e.value.entitlement == f.seatLimit
    ensures (Prolite, |f.members|) in e.value.kinds
  {
    AllTyped(f.members);
    var count := CountOf(e.value.kinds, Prolite);
    CountIsListed(e.value.kinds, Prolite);
    assert p.slots != [] && |f.members| == |p.slots|;
    assert count > 0;
    CountWithinSum(e.value.kinds, (Prolite, count));
  }

  lemma SlotBehind(slots: seq<Slot>, id: string) returns (i: nat)
    requires id in SlotSeats(slots)
    ensures i < |slots| && slots[i].decision.Replaceable? && slots[i].member == id
  {
    var s :| s in slots && s.decision.Replaceable? && s.member == id;
    i :| 0 <= i < |slots| && slots[i] == s;
  }

  lemma CandidateBehind(candidates: seq<Candidate>, account: nat) returns (k: nat)
    requires account in CandidateSeats(candidates)
    ensures k < |candidates| && candidates[k].decision.Eligible? && candidates[k].account == account
  {
    var c :| c in candidates && c.decision.Eligible? && c.account == account;
    k :| 0 <= k < |candidates| && candidates[k] == c;
  }

  lemma {:induction false} PlannedPair(p: Preview, r: seq<Assignment>, a: Assignment) returns (i: nat, k: nat)
    requires IsPlan(p, r) && a in r
    ensures i < |p.slots| && p.slots[i].decision.Replaceable? && p.slots[i].member == a.member
    ensures k < |p.candidates| && p.candidates[k].decision.Eligible? && p.candidates[k].account == a.account
  {
    assert a.member in Members(r) && a.account in Accounts(r);
    i := SlotBehind(p.slots, a.member);
    k := CandidateBehind(p.candidates, a.account);
  }

  /** Only a preview that was decided has anything to assign. */
  lemma PlanIsJudged(f: Sources, e: Option<Evidence>, p: Preview, i: nat)
    requires PreviewOf(f, e, p) && i < |p.slots| && p.slots[i].decision.Replaceable?
    ensures Judged(f, e)
  {
  }

  /** Whatever is emptied is a used slot whose account nobody holds: unprotected and never delivered. */
  lemma {:induction false} EmptiesOnlyUnheldSlots(f: Sources, e: Option<Evidence>, p: Preview,
                               r: seq<Assignment>, a: Assignment)
    requires PreviewOf(f, e, p)
    ensures IsPlan(p, r) && a in r ==>
              exists m :: m in f.members && m.id == a.member && m.evidence && m.usage.Used? && m.everUsed
                          && m.protection.Unprotected? && !m.delivered && m.verdict.Replaceable?
  {
    if IsPlan(p, r) && a in r {
      var i, k := PlannedPair(p, r, a);
      PlanIsJudged(f, e, p, i);
      assert SlotFits(f.members[i], p.slots[i]) && f.members[i] in f.members;
    }
  }

  /** Whoever joins was never used or delivered, is freshly invited and holds no seat of this workspace yet. */
  lemma {:induction false} AdmitsOnlyUnusedInvited(f: Sources, e: Option<Evidence>, p: Preview,
                                r: seq<Assignment>, a: Assignment)
    requires PreviewOf(f, e, p)
    ensures IsPlan(p, r) && a in r ==>
              exists c :: c in f.children && c.account == a.account && c.evidence && c.usageProof && c.complete && c.listed
                          && !c.everUsed && !c.previouslyUsed && (c.usage.NeverUsed? || c.usage.UnobservedPrejoin?)
                          && !c.delivered && c.protection.Unprotected? && c.invited && c.inviteProof && c.verdict.Eligible?
                          && forall m :: m in f.members ==> m.name != c.name
  {
    if IsPlan(p, r) && a in r {
      var i, k := PlannedPair(p, r, a);
      PlanIsJudged(f, e, p, i);
      assert CandidateFits(f.children[k], Names(f.members), p.candidates[k]) && f.children[k] in f.children;
    }
  }
}
