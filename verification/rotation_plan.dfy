/**
 The decisions that feed a rotation (internal/runtime/expiry_rotation.go): which slots may be
 emptied, which candidates may join, when the preview is ready, and which assignment of
 candidates to slots is accepted.

 A proof counts as valid or not through one boolean; the facts that each branch of the
 loops inspects are kept. Member ids are strings in byte order, names are lower-cased identifiers.
 */
module RotationPlan {
  import opened Common

  datatype Seat = NoSeat | Prolite | OtherSeat(code: nat)
  datatype Usage = Used | NeverUsed | UnobservedPrejoin | UnknownUsage
  datatype Protection = Unprotected | Delivered | CanceledRetired | SaleReserved | DeliveryPending
                      | SuspectedSold | UnknownProtection | Unrecognised
  datatype Decision = NeedsVerification | Replaceable | Retained | Eligible | Excluded | Unstated
  datatype Delivery = Blocked | PendingFirstProbe

  /**
   The stored facts of the selection. `verified`: the verification and every token behind it are the
   current ones; a child is `listed` when its membership is the chosen version and its identifier is
   nobody else's. Invitations are the lower-cased identifiers of the pending list.
   */
  datatype Sources = Sources(
    verified: bool, expired: bool, batchCurrent: bool, destinationCurrent: bool,
    members: seq<Member>, invitations: seq<string>, children: seq<Child>, memberCount: int, inviteCount: int, seatLimit: int)

  /**
   The supplied evidence as a whole. `bound`: to this workspace, owner account, verification and end date;
   `permission`, `counts`, `paidDefault`: these proofs are valid. `slots`, `candidates`, `invitations`
   are the sizes of its three tables, whose rows the members and children carry.
   */
  datatype Evidence = Evidence(
    bound: bool, permission: bool, manage: bool, official: bool, owner: bool,
    counts: bool, paidDefault: bool, entitlement: int, kinds: seq<(Seat, int)>, slots: nat, candidates: nat, invitations: nat)

  /** A frozen roster entry with the evidence supplied for it; `verdict` is what the evidence claims. */
  datatype Member = Member(
    id: string, name: string, evidence: bool, usage: Usage, everUsed: bool, protection: Protection,
    previouslyUsed: bool, verdict: Decision, delivered: bool)

  datatype Child = Child(
    account: nat, name: string, evidence: bool, usage: Usage, everUsed: bool, usageProof: bool, protection: Protection,
    previouslyUsed: bool, complete: bool, delivered: bool, invited: bool, inviteProof: bool, verdict: Decision, listed: bool)

  datatype Slot = Slot(member: string, seat: Seat, decision: Decision)
  datatype Candidate = Candidate(account: nat, seat: Seat, decision: Decision, delivery: Delivery)
  datatype Status = FactsIncomplete | NotExpired | PendingPermission | Verifying | Ready
  datatype Preview = Preview(slots: seq<Slot>, candidates: seq<Candidate>, status: Status)
  datatype Assignment = Assignment(member: string, account: nat)

  // ----- what a verdict must satisfy

  predicate Blocking(p: Protection) { p.SaleReserved? || p.DeliveryPending? || p.SuspectedSold? || p.UnknownProtection? }

  predicate Shielded(p: Protection) { p.Delivered? || p.CanceledRetired? }

  /** Seat, usage and protection proofs are valid and have the shape the usage check demands. */
  predicate Proved(m: Member) {
    m.evidence && !m.protection.Unrecognised?
    && ((m.usage.Used? && m.everUsed) || (m.usage.NeverUsed? && !m.everUsed) || m.usage.UnknownUsage?)
  }

  predicate MayReplace(m: Member) {
    Proved(m) && m.protection.Unprotected? && m.usage.Used? && m.everUsed && m.verdict.Replaceable? && !m.delivered
  }

  /** A roster entry that asks for no further verification. */
  predicate Settled(m: Member) {
    && Proved(m) && !Blocking(m.protection) && (m.everUsed || !m.previouslyUsed)
    && (if Shielded(m.protection) then m.verdict.Retained?
        else !m.delivered && (if m.usage.Used? then m.verdict.Replaceable? else m.usage.NeverUsed? && m.verdict.Retained?))
  }

  predicate AllSettled(members: seq<Member>) { forall m :: m in members ==> Settled(m) }

  predicate ChildProved(c: Child) { c.evidence && c.usageProof && !c.protection.Unrecognised? }

  /** The facts that let a candidate join: unused, unprotected, complete, freshly invited, not yet a member. */
  predicate Joinable(c: Child, memberNames: set<string>) {
    && ChildProved(c) && c.protection.Unprotected? && (c.usage.UnobservedPrejoin? || c.usage.NeverUsed?)
    && !c.everUsed && !c.previouslyUsed && c.complete && !c.delivered
    && c.invited && c.inviteProof && c.name !in memberNames
  }

  predicate MayJoin(c: Child, memberNames: set<string>) { Joinable(c, memberNames) && c.verdict.Eligible? }

  predicate ChildSettled(c: Child, memberNames: set<string>) {
    && ChildProved(c) && !Blocking(c.protection) && (c.everUsed || !c.previouslyUsed) && c.complete
    && (Shielded(c.protection) || !c.usage.UnknownUsage? || c.everUsed)
    && (c.invited ==> c.inviteProof)
    && c.verdict == if Joinable(c, memberNames) then Eligible else Excluded
  }

  predicate SlotFits(m: Member, s: Slot) {
    && s.member == m.id && s.seat == (if Proved(m) then Prolite else NoSeat)
    && s.decision == if m.delivered then Retained
                     else if !Settled(m) then NeedsVerification
                     else if MayReplace(m) then Replaceable else Retained
  }

  predicate CandidateFits(c: Child, memberNames: set<string>, k: Candidate) {
    && k.account == c.account && k.seat == (if ChildProved(c) then Prolite else NoSeat)
    && k.decision == (if MayJoin(c, memberNames) then Eligible else Excluded)
    && k.delivery == (if k.decision.Eligible? then PendingFirstProbe else Blocked)
  }

  ghost predicate SlotsFit(members: seq<Member>, slots: seq<Slot>) {
    |slots| == |members| && forall i {:trigger SlotFits(members[i], slots[i])} :: 0 <= i < |members| ==> SlotFits(members[i], slots[i])
  }

  ghost predicate CandidatesFit(children: seq<Child>, names: set<string>, candidates: seq<Candidate>) {
    && |candidates| == |children|
    && forall i {:trigger CandidateFits(children[i], names, candidates[i])} ::
         0 <= i < |children| ==> CandidateFits(children[i], names, candidates[i])
  }

  /** One pass of the slot loop: the branches in the order the code takes them. */
  method JudgeSlot(m: Member) returns (s: Slot, ready: bool)
    ensures SlotFits(m, s)
    ensures ready <==> Settled(m)
  {
    ready := true;
    var seat, decision := NoSeat, NeedsVerification;
    if m.evidence && m.protection != Unrecognised
       && ((m.usage == Used && m.everUsed) || (m.usage == NeverUsed && !m.everUsed) || m.usage == UnknownUsage)
    {
      seat := Prolite;
      if m.protection.SaleReserved? || m.protection.DeliveryPending? || m.protection.SuspectedSold? || m.protection.UnknownProtection? {
        ready := false;
      } else if m.protection.Delivered? || m.protection.CanceledRetired? {
        decision := Retained;
      } else if m.usage.Used? && m.everUsed {
        decision := Replaceable;
      } else if m.usage.NeverUsed? && !m.everUsed {
        decision := Retained;
      } else {
        ready := false;
      }
      if !m.everUsed && m.previouslyUsed { decision, ready := NeedsVerification, false; }
      if m.verdict != decision { decision, ready := NeedsVerification, false; }
    } else {
      ready := false;
    }
    if m.delivered {
      if m.protection.Unprotected? { ready := false; }
      decision := Retained;
      if seat.NoSeat? { ready := false; }
    }
    if decision.NeedsVerification? { ready := false; }
    s := Slot(m.id, seat, decision);
  }

  method JudgeCandidate(c: Child, memberNames: set<string>) returns (k: Candidate, ready: bool)
    ensures CandidateFits(c, memberNames, k)
    ensures ready <==> ChildSettled(c, memberNames)
  {
    ready := true;
    var seat, decision := NoSeat, Excluded;
    if c.evidence && c.usageProof && c.protection != Unrecognised {
      seat := Prolite;
      if c.protection.SaleReserved? || c.protection.DeliveryPending? || c.protection.SuspectedSold? || c.protection.UnknownProtection? {
        ready := false;
      } else if c.protection.Delivered? || c.protection.CanceledRetired? {
      } else if (c.usage.UnobservedPrejoin? || c.usage.NeverUsed?) && !c.everUsed && c.protection.Unprotected? {
        decision := Eligible;
      } else if c.usage.Used? || c.everUsed {
      } else {
        ready := false;
      }
      if !c.everUsed && c.previouslyUsed { decision, ready := Excluded, false; }
    } else {
      ready := false;
    }
    if !c.complete { decision, ready := Excluded, false; }
    if c.delivered { decision := Excluded; }
    if !c.invited {
      decision := Excluded;
    } else if !c.inviteProof || seat != Prolite {
      decision, ready := Excluded, false;
    }
    if c.name in memberNames { decision := Excluded; }
    if c.verdict != decision { decision, ready := Excluded, false; }
    k := Candidate(c.account, seat, decision, if decision.Eligible? then PendingFirstProbe else Blocked);
  }

  // ----- counting

  function Sum(kinds: seq<(Seat, int)>): int {
    if kinds == [] then 0 else Sum(kinds[..|kinds| - 1]) + kinds[|kinds| - 1].1
  }

  lemma {:induction false} SumGrows(kinds: seq<(Seat, int)>, i: nat)
    requires i <= |kinds| && forall k :: k in kinds ==> k.1 >= 0
    ensures Sum(kinds[..i]) <= Sum(kinds)
  {
    if i == |kinds| {
      assert kinds[..i] == kinds;
    } else {
      var rest := kinds[..|kinds| - 1];
      SumGrows(rest, i);
      assert rest[..i] == kinds[..i];
    }
  }

  /** The running bound on the seat counts amounts to: no negative count, and exactly one seat per member. */
  method SeatCountsAddUp(kinds: seq<(Seat, int)>, members: nat) returns (ok: bool)
    ensures ok <==> kinds != [] && Sum(kinds) == members && forall k :: k in kinds ==> k.0 != NoSeat && k.1 >= 0
  {
    if kinds == [] { return false; }
    var total := 0;
    for i := 0 to |kinds|
      invariant total == Sum(kinds[..i]) <= members
      invariant forall k :: k in kinds[..i] ==> k.0 != NoSeat && k.1 >= 0
    {
      assert kinds[..i + 1][..i] == kinds[..i] && kinds[..i + 1] == kinds[..i] + [kinds[i]];
      if kinds[i].0.NoSeat? || kinds[i].1 < 0 || kinds[i].1 > members - total {
        assert kinds[i] in kinds;
        if forall k :: k in kinds ==> k.1 >= 0 { SumGrows(kinds, i + 1); }
        return false;
      }
      total := total + kinds[i].1;
    }
    assert kinds[..|kinds|] == kinds;
    ok := total == members;
  }

  // ----- the preview

  predicate DistinctIds(members: seq<Member>) {
    (forall m :: m in members ==> m.id != "") && forall i, j :: 0 <= i < j < |members| ==> members[i].id != members[j].id
  }

  predicate DistinctChildren(children: seq<Child>) {
    forall i, j :: 0 <= i < j < |children| ==> children[i].account != children[j].account
  }

  function Names(members: seq<Member>): set<string> { set m | m in members :: m.name }

  function Replaced(slots: seq<Slot>): (ids: seq<string>) {
    if slots == [] then []
    else Replaced(slots[..|slots| - 1]) + (if slots[|slots| - 1].decision.Replaceable? then [slots[|slots| - 1].member] else [])
  }

  function Joining(candidates: seq<Candidate>): (ids: seq<nat>) {
    if candidates == [] then []
    else Joining(candidates[..|candidates| - 1])
         + (if candidates[|candidates| - 1].decision.Eligible? then [candidates[|candidates| - 1].account] else [])
  }

  function Typed(members: seq<Member>): nat {
    if members == [] then 0 else Typed(members[..|members| - 1]) + if Proved(members[|members| - 1]) then 1 else 0
  }

  predicate NoneTwice(s: seq<string>) { forall i, j :: 0 <= i < j < |s| ==> s[i] != s[j] }

  /** The selection is still what it was, the lists have the verified sizes and no identity twice. */
  predicate Complete(f: Sources) {
    && f.batchCurrent && f.destinationCurrent
    && DistinctIds(f.members) && |f.members| == f.memberCount
    && NoneTwice(f.invitations) && |f.invitations| == f.inviteCount && f.seatLimit >= 0
    && DistinctChildren(f.children) && f.children != [] && (forall c :: c in f.children ==> c.listed)
  }

  /** The evidence permits management, and official evidence comes from an owner. */
  predicate Permitted(e: Option<Evidence>) {
    e.Some? && e.value.bound && e.value.permission && e.value.manage && (e.value.official ==> e.value.owner)
  }

  /** Proved seat counts, one seat per member, and the paid default is the verified limit. */
  predicate Paid(f: Sources, e: Evidence) {
    && e.counts && e.paidDefault && e.entitlement == f.seatLimit && e.kinds != []
    && Sum(e.kinds) == f.memberCount && forall k :: k in e.kinds ==> k.0 != NoSeat && k.1 >= 0
  }

  /** One row of evidence for each entry. */
  predicate Supplied(f: Sources, e: Evidence) {
    e.slots == f.memberCount && e.candidates == |f.children| && e.invitations == f.inviteCount
  }

  /** Nothing is missing: the two loops run. */
  predicate Judged(f: Sources, e: Option<Evidence>) {
    f.verified && Complete(f) && Permitted(e) && Paid(f, e.value) && Supplied(f, e.value)
  }

  function CountOf(kinds: seq<(Seat, int)>, seat: Seat): int {
    if kinds == [] then 0
    else if kinds[|kinds| - 1].0 == seat then kinds[|kinds| - 1].1
    else CountOf(kinds[..|kinds| - 1], seat)
  }

  method LookUp(kinds: seq<(Seat, int)>, seat: Seat) returns (count: int)
    ensures count == CountOf(kinds, seat)
  {
    count := 0;
    for i := 0 to |kinds|
      invariant count == CountOf(kinds[..i], seat)
    {
      InitOfTake(kinds, i);
      if kinds[i].0 == seat { count := kinds[i].1; }
    }
    assert kinds[..|kinds|] == kinds;
  }

  /** What may be ready: expired, everything settled, enough paid seats, and as many joining as leaving. */
  predicate Rotates(f: Sources, e: Evidence, slots: seq<Slot>, candidates: seq<Candidate>) {
    && f.expired && AllSettled(f.members) && (forall c :: c in f.children ==> ChildSettled(c, Names(f.members)))
    && Typed(f.members) <= CountOf(e.kinds, Prolite) && 0 < |Replaced(slots)| == |Joining(candidates)|
  }

  function WhileExpired(f: Sources, s: Status): Status { if f.expired then s else NotExpired }

  /** Every entry is listed and nothing is decided. */
  predicate Undecided(f: Sources, p: Preview) {
    && |p.slots| == |f.members| && |p.candidates| == |f.children|
    && (forall i :: 0 <= i < |f.members| ==> p.slots[i] == Slot(f.members[i].id, NoSeat, NeedsVerification))
    && (forall i :: 0 <= i < |f.children| ==> p.candidates[i] == Candidate(f.children[i].account, NoSeat, Excluded, Blocked))
  }

  /** What a preview says about the facts it was built from, at whichever exit. */
  ghost predicate PreviewOf(f: Sources, e: Option<Evidence>, p: Preview) {
    if !f.verified then p == Preview([], [], FactsIncomplete)
    else if !Complete(f) then p == Preview([], [], WhileExpired(f, FactsIncomplete))
    else if !Permitted(e) then Undecided(f, p) && p.status == WhileExpired(f, PendingPermission)
    else if !Paid(f, e.value) then Undecided(f, p) && p.status == WhileExpired(f, FactsIncomplete)
    else if !Supplied(f, e.value) then Undecided(f, p) && p.status == WhileExpired(f, Verifying)
    else
      && SlotsFit(f.members, p.slots) && CandidatesFit(f.children, Names(f.members), p.candidates)
      && p.status == WhileExpired(f, if Rotates(f, e.value, p.slots, p.candidates) then Ready else Verifying)
  }

  method LoadMembers(members: seq<Member>) returns (ok: bool, names: set<string>)
    ensures ok <==> DistinctIds(members)
    ensures ok ==> names == Names(members)
  {
    var ids: set<string> := {};
    names := {};
    for i := 0 to |members|
      invariant ids == set m | m in members[..i] :: m.id
      invariant names == Names(members[..i]) && DistinctIds(members[..i])
    {
      if members[i].id == "" || members[i].id in ids {
        assert members[i] in members;
        return false, {};
      }
      assert members[..i + 1] == members[..i] + [members[i]];
      ids, names := ids + {members[i].id}, names + {members[i].name};
    }
    assert members[..|members|] == members;
    ok := true;
  }

  method LoadInvitations(invitations: seq<string>) returns (distinct: nat)
    ensures distinct <= |invitations| && (distinct == |invitations| <==> NoneTwice(invitations))
  {
    var known: set<string> := {};
    for i := 0 to |invitations|
      invariant known == (set x | x in invitations[..i]) && |known| <= i && (|known| == i <==> NoneTwice(invitations[..i]))
    {
      assert invitations[..i + 1] == invitations[..i] + [invitations[i]];
      if invitations[i] in known {
        var j :| 0 <= j < i && invitations[j] == invitations[i];
        assert invitations[..i + 1][j] == invitations[..i + 1][i];
      } else {
        InvitedOnce(invitations[..i], invitations[i]);
      }
      known := known + {invitations[i]};
    }
    assert invitations[..|invitations|] == invitations;
    distinct := |known|;
  }

  lemma InvitedOnce(s: seq<string>, x: string)
    requires x !in s
    ensures NoneTwice(s + [x]) <==> NoneTwice(s)
  {
    if NoneTwice(s + [x]) { assert forall i :: 0 <= i < |s| ==> s[i] == (s + [x])[i]; }
  }

  method LoadChildren(children: seq<Child>) returns (ok: bool)
    ensures ok <==> DistinctChildren(children) && children != [] && forall c :: c in children ==> c.listed
  {
    if children == [] { return false; }
    var seen: set<nat> := {};
    for i := 0 to |children|
      invariant seen == set c | c in children[..i] :: c.account
      invariant DistinctChildren(children[..i]) && forall c :: c in children[..i] ==> c.listed
    {
      assert children[i] in children;
      if children[i].account in seen || !children[i].listed { return false; }
      assert children[..i + 1] == children[..i] + [children[i]];
      seen := seen + {children[i].account};
    }
    assert children[..|children|] == children;
    ok := true;
  }

  lemma SettledSnoc(members: seq<Member>, i: nat)
    requires i < |members|
    ensures AllSettled(members[..i + 1]) <==> AllSettled(members[..i]) && Settled(members[i])
    ensures Typed(members[..i + 1]) == Typed(members[..i]) + if Proved(members[i]) then 1 else 0
  {
    InitOfTake(members, i);
    assert members[..i + 1] == members[..i] + [members[i]];
  }

  lemma SlotsSnoc(members: seq<Member>, i: nat, slots: seq<Slot>, s: Slot)
    requires i < |members| && SlotsFit(members[..i], slots) && SlotFits(members[i], s)
    ensures SlotsFit(members[..i + 1], slots + [s])
    ensures Replaced(slots + [s]) == Replaced(slots) + if s.decision.Replaceable? then [s.member] else []
  {
    assert (slots + [s])[..|slots|] == slots;
    forall k | 0 <= k < i + 1 ensures SlotFits(members[..i + 1][k], (slots + [s])[k]) {
      if k < i { assert SlotFits(members[..i][k], slots[k]); }
    }
  }

  method JudgeSlots(members: seq<Member>) returns (slots: seq<Slot>, ready: bool, vacated: nat, observed: nat)
    ensures SlotsFit(members, slots)
    ensures ready <==> AllSettled(members)
    ensures vacated == |Replaced(slots)| && observed == Typed(members)
  {
    slots, ready, vacated, observed := [], true, 0, 0;
    for i := 0 to |members|
      invariant SlotsFit(members[..i], slots) && (ready <==> AllSettled(members[..i]))
      invariant vacated == |Replaced(slots)| && observed == Typed(members[..i])
    {
      var slot, sound := JudgeSlot(members[i]);
      ready := ready && sound;
      if slot.decision.Replaceable? { vacated := vacated + 1; }
      if slot.seat != NoSeat { observed := observed + 1; }
      SettledSnoc(members, i);
      SlotsSnoc(members, i, slots, slot);
      slots := slots + [slot];
    }
    assert members[..|members|] == members;
  }

  lemma CandidatesSnoc(children: seq<Child>, i: nat, names: set<string>, candidates: seq<Candidate>, k: Candidate)
    requires i < |children| && CandidatesFit(children[..i], names, candidates) && CandidateFits(children[i], names, k)
    ensures CandidatesFit(children[..i + 1], names, candidates + [k])
    ensures Joining(candidates + [k]) == Joining(candidates) + if k.decision.Eligible? then [k.account] else []
    ensures (forall c :: c in children[..i + 1] ==> ChildSettled(c, names)) <==>
              (forall c :: c in children[..i] ==> ChildSettled(c, names)) && ChildSettled(children[i], names)
  {
    assert (candidates + [k])[..|candidates|] == candidates;
    assert children[..i + 1] == children[..i] + [children[i]];
    forall n | 0 <= n < i + 1 ensures CandidateFits(children[..i + 1][n], names, (candidates + [k])[n]) {
      if n < i { assert CandidateFits(children[..i][n], names, candidates[n]); }
    }
  }

  method JudgeCandidates(children: seq<Child>, names: set<string>)
    returns (candidates: seq<Candidate>, ready: bool, eligible: nat)
    ensures CandidatesFit(children, names, candidates)
    ensures ready <==> forall c :: c in children ==> ChildSettled(c, names)
    ensures eligible == |Joining(candidates)|
  {
    candidates, ready, eligible := [], true, 0;
    for i := 0 to |children|
      invariant CandidatesFit(children[..i], names, candidates)
      invariant ready <==> forall c :: c in children[..i] ==> ChildSettled(c, names)
      invariant eligible == |Joining(candidates)|
    {
      var candidate, sound := JudgeCandidate(children[i], names);
      ready := ready && sound;
      if candidate.decision.Eligible? { eligible := eligible + 1; }
      CandidatesSnoc(children, i, names, candidates, candidate);
      candidates := candidates + [candidate];
    }
    assert children[..|children|] == children;
  }

  /** The lists of a preview that cannot be decided yet. */
  method Pending(f: Sources, status: Status) returns (p: Preview)
    ensures Undecided(f, p) && p.status == status
  {
    var slots, candidates := [], [];
    for i := 0 to |f.members|
      invariant |slots| == i && forall k :: 0 <= k < i ==> slots[k] == Slot(f.members[k].id, NoSeat, NeedsVerification)
    {
      slots := slots + [Slot(f.members[i].id, NoSeat, NeedsVerification)];
    }
    for i := 0 to |f.children|
      invariant |candidates| == i
      invariant forall k :: 0 <= k < i ==> candidates[k] == Candidate(f.children[k].account, NoSeat, Excluded, Blocked)
    {
      candidates := candidates + [Candidate(f.children[i].account, NoSeat, Excluded, Blocked)];
    }
    p := Preview(slots, candidates, status);
  }

  /** The reads before the evidence is looked at. */
  method LoadSources(f: Sources) returns (ok: bool, names: set<string>)
    ensures ok <==> Complete(f)
    ensures ok ==> names == Names(f.members)
  {
    if !f.batchCurrent || !f.destinationCurrent { return false, {}; }
    ok, names := LoadMembers(f.members);
    var distinct := LoadInvitations(f.invitations);
    if !ok || |f.members| != f.memberCount || |f.invitations| != f.inviteCount || distinct != f.inviteCount
       || f.seatLimit < 0 || f.memberCount < 0
    {
      return false, {};
    }
    ok := LoadChildren(f.children);
  }

  /** The two loops and the status they lead to. */
  method Decide(f: Sources, e: Evidence, names: set<string>) returns (p: Preview)
    requires f.verified && Complete(f) && Permitted(Some(e)) && Paid(f, e) && Supplied(f, e) && names == Names(f.members)
    ensures PreviewOf(f, Some(e), p)
  {
    var slots, ready, vacated, observed := JudgeSlots(f.members);
    var candidates, sound, eligible := JudgeCandidates(f.children, names);
    ready := ready && sound;
    var paid := LookUp(e.kinds, Prolite);
    if paid < observed { ready := false; }
    if !f.expired { return Preview(slots, candidates, NotExpired); }
    return Preview(slots, candidates, if ready && vacated > 0 && eligible == vacated then Ready else Verifying);
  }

  /** Every exit of rotationFacts; in particular it is ready exactly when nothing is missing and the selection rotates. */
  method BuildPreview(f: Sources, e: Option<Evidence>) returns (p: Preview)
    ensures PreviewOf(f, e, p)
    ensures p.status.Ready? <==> Judged(f, e) && Rotates(f, e.value, p.slots, p.candidates)
  {
    if !f.verified { return Preview([], [], FactsIncomplete); }
    var status := if f.expired then FactsIncomplete else NotExpired;
    var ok, names := LoadSources(f);
    if !ok { return Preview([], [], status); }
    if e.None? || !e.value.bound || !e.value.permission || !e.value.manage || (e.value.official && !e.value.owner) {
      p := Pending(f, if status.NotExpired? then status else PendingPermission);
      return;
    }
    if !e.value.counts || !e.value.paidDefault || e.value.entitlement != f.seatLimit {
      p := Pending(f, status);
      return;
    }
    var sound := SeatCountsAddUp(e.value.kinds, |f.members|);
    if !sound {
      p := Pending(f, status);
      return;
    }
    if e.value.slots != f.memberCount || e.value.candidates != |f.children| || e.value.invitations != f.inviteCount {
      p := Pending(f, if status.NotExpired? then status else Verifying);
      return;
    }
    p := Decide(f, e.value, names);
  }

  // ----- the order of member ids

  predicate Precedes(a: string, b: string) {
    b != [] && (a == [] || a[0] < b[0] || (a[0] == b[0] && Precedes(a[1..], b[1..])))
  }

  lemma {:induction false} PrecedesIsTotal(a: string, b: string)
    ensures a != b ==> Precedes(a, b) || Precedes(b, a)
    ensures !(Precedes(a, b) && Precedes(b, a))
    ensures a == b ==> !Precedes(a, b)
  {
    if a != [] && b != [] {
      PrecedesIsTotal(a[1..], b[1..]);
      assert a == [a[0]] + a[1..] && b == [b[0]] + b[1..];
    }
  }

  lemma {:induction false} PrecedesChains(a: string, b: string, c: string)
    requires Precedes(a, b) && Precedes(b, c)
    ensures Precedes(a, c)
  {
    if a != [] && a[0] == b[0] == c[0] { PrecedesChains(a[1..], b[1..], c[1..]); }
  }

  /** The strings agree before position `k`, where the first one ends or has the lesser character. */
  ghost predicate LessAt(a: string, b: string, k: nat) {
    k <= |a| && k < |b| && (forall i :: 0 <= i < k ==> a[i] == b[i]) && (k == |a| || a[k] < b[k])
  }

  lemma LessAtTail(a: string, b: string, k: nat)
    requires a != [] && b != [] && a[0] == b[0]
    ensures LessAt(a, b, k + 1) <==> LessAt(a[1..], b[1..], k)
  {
    if LessAt(a, b, k + 1) { forall i | 0 <= i < k ensures a[1..][i] == b[1..][i] { assert a[i + 1] == b[i + 1]; } }
    if LessAt(a[1..], b[1..], k) { forall i | 0 < i < k + 1 ensures a[i] == b[i] { assert a[1..][i - 1] == b[1..][i - 1]; } }
  }

  /** The order of strings: the first difference decides, and a proper prefix comes first. */
  lemma {:induction false} PrecedesMeans(a: string, b: string)
    ensures Precedes(a, b) <==> exists k: nat :: LessAt(a, b, k)
  {
    if a != [] && b != [] && a[0] == b[0] {
      PrecedesMeans(a[1..], b[1..]);
      if Precedes(a, b) {
        var k: nat :| LessAt(a[1..], b[1..], k);
        LessAtTail(a, b, k);
      }
      forall k: nat | !Precedes(a, b) ensures !LessAt(a, b, k) {
        if k > 0 { LessAtTail(a, b, k - 1); }
      }
    } else if b != [] && Precedes(a, b) {
      assert LessAt(a, b, 0);
    }
  }

  ghost predicate Sorted(s: seq<Assignment>) {
    forall i, j :: 0 <= i < j < |s| ==> !Precedes(s[j].member, s[i].member)
  }

  /** sort.Slice by member id. */
  method SortByMember(items: seq<Assignment>) returns (sorted: seq<Assignment>)
    ensures Sorted(sorted) && multiset(sorted) == multiset(items)
  {
    sorted := [];
    for i := 0 to |items|
      invariant Sorted(sorted) && multiset(sorted) == multiset(items[..i])
    {
      sorted := Insert(sorted, items[i]);
      assert items[..i + 1] == items[..i] + [items[i]];
    }
    assert items[..|items|] == items;
  }

  lemma InsertContents(sorted: seq<Assignment>, k: nat, x: Assignment)
    requires k <= |sorted|
    ensures multiset(sorted[..k] + [x] + sorted[k..]) == multiset(sorted) + multiset{x}
  {
    assert sorted == sorted[..k] + sorted[k..];
  }

  /** Everything behind the first greater entry is greater, too. */
  lemma BehindIsGreater(sorted: seq<Assignment>, k: nat, j: nat, x: Assignment)
    requires Sorted(sorted) && k <= j < |sorted| && Precedes(x.member, sorted[k].member)
    ensures !Precedes(sorted[j].member, x.member)
  {
    PrecedesIsTotal(x.member, sorted[k].member);
    if k < j && Precedes(sorted[j].member, x.member) { PrecedesChains(sorted[j].member, x.member, sorted[k].member); }
  }

  method Insert(sorted: seq<Assignment>, x: Assignment) returns (r: seq<Assignment>)
    requires Sorted(sorted)
    ensures Sorted(r) && multiset(r) == multiset(sorted) + multiset{x}
  {
    var k := 0;
    while k < |sorted| && !Precedes(x.member, sorted[k].member)
      invariant 0 <= k <= |sorted|
      invariant forall i :: 0 <= i < k ==> !Precedes(x.member, sorted[i].member)
    {
      k := k + 1;
    }
    forall j | k <= j < |sorted| ensures !Precedes(sorted[j].member, x.member) { BehindIsGreater(sorted, k, j, x); }
    InsertContents(sorted, k, x);
    r := sorted[..k] + [x] + sorted[k..];
  }

  // ----- assignments

  function SlotSeats(slots: seq<Slot>): (seats: map<string, Seat>)
    ensures forall id :: id in seats <==> exists s | s in slots :: s.decision.Replaceable? && s.member == id
  {
    if slots == [] then map[]
    else
      var last := slots[|slots| - 1];
      var seats := SlotSeats(slots[..|slots| - 1]);
      assert forall s :: s in slots <==> s in slots[..|slots| - 1] || s == last;
      if last.decision.Replaceable? then seats[last.member := last.seat] else seats
  }

  function CandidateSeats(candidates: seq<Candidate>): (seats: map<nat, Seat>)
    ensures forall id :: id in seats <==> exists c | c in candidates :: c.decision.Eligible? && c.account == id
  {
    if candidates == [] then map[]
    else
      var last := candidates[|candidates| - 1];
      var seats := CandidateSeats(candidates[..|candidates| - 1]);
      assert forall c :: c in candidates <==> c in candidates[..|candidates| - 1] || c == last;
      if last.decision.Eligible? then seats[last.account := last.seat] else seats
  }

  function Members(r: seq<Assignment>): set<string> { set a | a in r :: a.member }
  function Accounts(r: seq<Assignment>): set<nat> { set a | a in r :: a.account }

  /** No slot is filled twice and no candidate is used twice. */
  predicate OneToOne(r: seq<Assignment>) {
    forall i, j :: 0 <= i < j < |r| ==> r[i].member != r[j].member && r[i].account != r[j].account
  }

  predicate AllPending(candidates: seq<Candidate>) {
    forall c :: c in candidates && c.decision.Eligible? ==> c.delivery.PendingFirstProbe?
  }

  /** A seat-preserving bijection from the replaceable slots onto the eligible candidates. */
  ghost predicate IsPlan(p: Preview, r: seq<Assignment>) {
    && r != [] && OneToOne(r)
    && Members(r) == SlotSeats(p.slots).Keys && Accounts(r) == CandidateSeats(p.candidates).Keys
    && (forall a :: a in r ==> SlotSeats(p.slots)[a.member] == CandidateSeats(p.candidates)[a.account])
    && AllPending(p.candidates)
  }

  ghost predicate IsOutcome(p: Preview, r: seq<Assignment>, out: Option<seq<Assignment>>) {
    && (out.Some? <==> IsPlan(p, r))
    && (out.Some? ==> Sorted(out.value) && multiset(out.value) == multiset(r))
  }

  lemma SetsSnoc(r: seq<Assignment>, a: Assignment)
    ensures Members(r + [a]) == Members(r) + {a.member} && Accounts(r + [a]) == Accounts(r) + {a.account}
  {
    assert forall x :: x in r + [a] <==> x in r || x == a;
  }

  lemma NotYet(r: seq<Assignment>, k: nat)
    requires OneToOne(r) && k < |r|
    ensures r[k].member !in Members(r[..k]) && r[k].account !in Accounts(r[..k])
  {
    forall a | a in r[..k] ensures a.member != r[k].member && a.account != r[k].account {
      var i :| 0 <= i < k && r[i] == a;
    }
  }

  lemma {:induction false} OneToOneSizes(r: seq<Assignment>, n: nat)
    requires OneToOne(r) && n <= |r|
    ensures |Members(r[..n])| == |Accounts(r[..n])| == n
  {
    if n > 0 {
      OneToOneSizes(r, n - 1);
      assert r[..n] == r[..n - 1] + [r[n - 1]];
      SetsSnoc(r[..n - 1], r[n - 1]);
      NotYet(r, n - 1);
    }
  }

  lemma SubsetOfSameSize<T>(a: set<T>, b: set<T>)
    requires a <= b && |a| == |b|
    ensures a == b
  {
    assert |b - a| == |b| - |a|;
  }

  method ReplaceableSeats(slots: seq<Slot>) returns (seats: map<string, Seat>)
    ensures seats == SlotSeats(slots)
  {
    seats := map[];
    for i := 0 to |slots|
      invariant seats == SlotSeats(slots[..i])
    {
      var s := slots[i];
      assert slots[..i + 1][..i] == slots[..i];
      if s.decision.Replaceable? { seats := seats[s.member := s.seat]; }
    }
    assert slots[..|slots|] == slots;
  }

  method EligibleSeats(candidates: seq<Candidate>) returns (seats: Option<map<nat, Seat>>)
    ensures seats.Some? <==> AllPending(candidates)
    ensures seats.Some? ==> seats.value == CandidateSeats(candidates)
  {
    var found: map<nat, Seat> := map[];
    for i := 0 to |candidates|
      invariant found == CandidateSeats(candidates[..i])
      invariant AllPending(candidates[..i])
    {
      var c := candidates[i];
      assert candidates[..i + 1] == candidates[..i] + [c] && candidates[..i + 1][..i] == candidates[..i];
      if c.decision.Eligible? {
        if c.delivery != PendingFirstProbe { return None; }
        found := found[c.account := c.seat];
      }
    }
    assert candidates[..|candidates|] == candidates;
    seats := Some(found);
  }

  /** Every request names a known slot and a known candidate of the same seat type. */
  ghost predicate SeatsMatch(slots: map<string, Seat>, candidates: map<nat, Seat>, r: seq<Assignment>) {
    forall i :: 0 <= i < |r| ==>
      r[i].member in slots && r[i].account in candidates && slots[r[i].member] == candidates[r[i].account]
  }

  method MatchRequested(slots: map<string, Seat>, candidates: map<nat, Seat>, requested: seq<Assignment>) returns (ok: bool)
    ensures ok <==> OneToOne(requested) && SeatsMatch(slots, candidates, requested)
  {
    var used: set<nat>, filled: set<string> := {}, {};
    for i := 0 to |requested|
      invariant used == Accounts(requested[..i]) && filled == Members(requested[..i])
      invariant OneToOne(requested[..i]) && SeatsMatch(slots, candidates, requested[..i])
    {
      var a := requested[i];
      if a.member !in slots || a.account !in candidates || slots[a.member] != candidates[a.account]
         || a.account in used || a.member in filled
      {
        return false;
      }
      assert requested[..i + 1] == requested[..i] + [a];
      used, filled := used + {a.account}, filled + {a.member};
    }
    assert requested[..|requested|] == requested;
    ok := true;
  }

  /** With as many requests as slots and as candidates, matching one to one is matching all of them. */
  lemma {:induction false} MatchingIsBijective(p: Preview, r: seq<Assignment>)
    requires AllPending(p.candidates)
    ensures var slots, candidates := SlotSeats(p.slots), CandidateSeats(p.candidates);
            IsPlan(p, r) <==> r != [] && |r| == |slots| == |candidates| && OneToOne(r) && SeatsMatch(slots, candidates, r)
  {
    var slots, candidates := SlotSeats(p.slots), CandidateSeats(p.candidates);
    assert r[..|r|] == r;
    if OneToOne(r) { OneToOneSizes(r, |r|); }
    if IsPlan(p, r) {
      forall i | 0 <= i < |r|
        ensures r[i].member in slots && r[i].account in candidates && slots[r[i].member] == candidates[r[i].account]
      {
        assert r[i] in r && r[i].member in Members(r) && r[i].account in Accounts(r);
      }
    } else if r != [] && |r| == |slots| == |candidates| && OneToOne(r) && SeatsMatch(slots, candidates, r) {
      SubsetOfSameSize(Members(r), slots.Keys);
      SubsetOfSameSize(Accounts(r), candidates.Keys);
      assert false;
    }
  }

  /** Accepts exactly the bijections, and returns them in member order. */
  method RotationAssignments(p: Preview, requested: seq<Assignment>) returns (out: Option<seq<Assignment>>)
    ensures IsOutcome(p, requested, out)
  {
    var slots := ReplaceableSeats(p.slots);
    var found := EligibleSeats(p.candidates);
    if found.None? { return None; }
    var candidates := found.value;
    MatchingIsBijective(p, requested);
    if |slots| == 0 || |requested| != |slots| || |candidates| != |slots| { return None; }
    var ok := MatchRequested(slots, candidates, requested);
    if !ok { return None; }
    var sorted := SortByMember(requested);
    return Some(sorted);
  }
}
