/**
 The durable rows behind one confirmed seat removal, and the short transactions
 that change them (internal/runtime/rotation_removal.go, expiry_rotation.go).

 Each transaction is given twice: as a function on row values, which the
 protocol of removal_protocol.dfy interleaves, and as a method of `RemovalTables`
 that performs it the way the SQL does, branch by branch.

 One handler invocation draws one lease owner/token pair and at most one request
 identity, all fresh UUIDs; the number of the invocation stands for all three.
 */
module RemovalTables {
  import opened Common

  datatype SlotState =
    | Pending | LeaseAcquired | RemoveRequested | ResultUncertain
    | AbsencePending | AbsentVerified | Blocked | Stopped

  datatype Lease = Lease(worker: nat, expires: int)

  datatype Slot = Slot(
    preview: nat, state: SlotState, request: Option<nat>, uncertain: bool,
    epoch: nat, lease: Option<Lease>, attempts: nat)

  /** An authorized preview together with its removal record. */
  datatype Preview = Preview(workspace: nat, expires: int, revoked: bool, stopped: bool, drifted: bool) {
    predicate Halted() { revoked || stopped }
    predicate Active(now: int) { !revoked && expires > now }
  }

  datatype Evidence = Evidence(slot: nat, epoch: nat, absent: bool)

  datatype Rows = Rows(now: int, slots: map<nat, Slot>, previews: map<nat, Preview>, evidence: seq<Evidence>) {
    predicate Scoped() {
      forall id :: id in slots ==> slots[id].preview in previews
    }

    function Workspace(id: nat): nat
      requires id in slots && slots[id].preview in previews
    {
      previews[slots[id].preview].workspace
    }
  }

  /** What a handler pins for its lifetime: its invocation, slot, lease epoch and mode. */
  datatype Ticket = Ticket(worker: nat, slot: nat, epoch: nat, reconcile: bool)

  datatype Refusal =
    | NotFound | FactsChanged | RemovalStopped | AlreadyVerified | LeaseBusy | SiblingBusy
    | NotRequested | LeaseStale | AlreadyReserved | NothingToHalt

  datatype Outcome = Done(epoch: nat) | Refused(why: Refusal)

  predicate Live(s: Slot, now: int) {
    s.lease.Some? && s.lease.value.expires > now
  }

  /** An observation-only handler needs no live authorization, every other one does. */
  predicate Authority(r: Rows, p: nat, reconcile: bool, facts: bool) {
    p in r.previews && facts && (reconcile || (r.previews[p].Active(r.now) && !r.previews[p].drifted))
  }

  /** The verify route downgrades itself to observation when the authorization no longer stands. */
  predicate ObservationOnly(r: Rows, p: nat)
    requires p in r.previews
  {
    r.previews[p].stopped || !r.previews[p].Active(r.now) || r.previews[p].drifted
  }

  // ----- claim

  predicate WorkspaceBusy(r: Rows, workspace: nat, except: nat)
    requires r.Scoped()
  {
    exists o | o in r.slots :: o != except && r.Workspace(o) == workspace && Live(r.slots[o], r.now)
  }

  predicate MayClaim(r: Rows, id: nat, verify: bool, reconcile: bool, facts: bool)
    requires r.Scoped()
  {
    && id in r.slots
    && var s := r.slots[id];
    && Authority(r, s.preview, reconcile, facts)
    && (r.previews[s.preview].stopped || s.state == Stopped ==> reconcile)
    && (s.state == AbsentVerified ==> verify)
    && !Live(s, r.now)
    && !WorkspaceBusy(r, r.Workspace(id), id)
    && (verify || reconcile ==> s.request.Some?)
  }

  /** Why a claim is refused: the first cause in the order in which it looks. */
  function ClaimRefusal(r: Rows, id: nat, verify: bool, reconcile: bool, facts: bool): (why: Option<Refusal>)
    requires r.Scoped()
    ensures why.None? <==> MayClaim(r, id, verify, reconcile, facts)
  {
    if id !in r.slots then Some(NotFound)
    else
      var s := r.slots[id];
      if !Authority(r, s.preview, reconcile, facts) then Some(FactsChanged)
      else if !reconcile && (r.previews[s.preview].stopped || s.state == Stopped) then Some(RemovalStopped)
      else if !verify && s.state == AbsentVerified then Some(AlreadyVerified)
      else if Live(s, r.now) then Some(LeaseBusy)
      else if WorkspaceBusy(r, r.Workspace(id), id) then Some(SiblingBusy)
      else if (verify || reconcile) && s.request.None? then Some(NotRequested)
      else None
  }

  /** A claim needs an authorization that stands, unless it only observes, and a workspace without a running lease. */
  lemma ClaimNeedsFreeWorkspace(r: Rows, id: nat, verify: bool, reconcile: bool, facts: bool)
    requires r.Scoped() && MayClaim(r, id, verify, reconcile, facts)
    ensures var p := r.previews[r.slots[id].preview];
            facts && (reconcile || (!p.revoked && !p.stopped && !p.drifted && p.expires > r.now))
    ensures forall o :: o in r.slots && r.previews[r.slots[o].preview].workspace == r.previews[r.slots[id].preview].workspace ==>
              r.slots[o].lease.None? || r.slots[o].lease.value.expires <= r.now
  {
    forall o | o in r.slots && r.previews[r.slots[o].preview].workspace == r.previews[r.slots[id].preview].workspace
      ensures r.slots[o].lease.None? || r.slots[o].lease.value.expires <= r.now
    {
      assert r.Workspace(o) == r.Workspace(id);
      assert o == id || !Live(r.slots[o], r.now);
    }
  }

  function ClaimedRow(s: Slot, worker: nat, expires: int, reconcile: bool): Slot {
    s.(state := if reconcile then Stopped else if s.request.None? then LeaseAcquired else AbsencePending,
       uncertain := s.request.Some?,
       lease := Some(Lease(worker, expires)),
       epoch := s.epoch + 1,
       attempts := s.attempts + 1)
  }

  function ClaimTx(r: Rows, worker: nat, id: nat, verify: bool, reconcile: bool, limit: int, facts: bool): (r': Rows)
    requires r.Scoped()
    ensures r'.Scoped()
  {
    if MayClaim(r, id, verify, reconcile, facts)
    then r.(slots := r.slots[id := ClaimedRow(r.slots[id], worker, Min(r.now + 60, limit), reconcile)])
    else r
  }

  // ----- fenced writes

  /** The compare-and-set every later write repeats: same owner, token and epoch, unexpired. */
  predicate LeaseCurrent(r: Rows, t: Ticket) {
    && t.slot in r.slots
    && var s := r.slots[t.slot];
    && Live(s, r.now) && s.lease.value.worker == t.worker && s.epoch == t.epoch
    && s.state != AbsentVerified
    && s.preview in r.previews
    && (t.reconcile || (s.state != Stopped && !r.previews[s.preview].stopped))
  }

  predicate LeaseTx(r: Rows, t: Ticket, facts: bool) {
    LeaseCurrent(r, t) && Authority(r, r.slots[t.slot].preview, t.reconcile, facts)
  }

  predicate MayReserve(r: Rows, t: Ticket, facts: bool) {
    LeaseTx(r, t, facts) && r.slots[t.slot].request.None?
  }

  function ReserveTx(r: Rows, t: Ticket, facts: bool): (r': Rows)
    ensures r.Scoped() ==> r'.Scoped()
  {
    if MayReserve(r, t, facts)
    then r.(slots := r.slots[t.slot := r.slots[t.slot].(state := RemoveRequested, request := Some(t.worker), uncertain := true)])
    else r
  }

  function ReceiptTx(r: Rows, t: Ticket, accepted: bool, facts: bool): (r': Rows)
    ensures r.Scoped() ==> r'.Scoped()
  {
    if LeaseTx(r, t, facts)
    then r.(slots := r.slots[t.slot := r.slots[t.slot].(state := if accepted then AbsencePending else ResultUncertain)])
    else r
  }

  function FailedRow(s: Slot, reconcile: bool): Slot {
    s.(state := if reconcile then s.state else if s.request.None? then Blocked else ResultUncertain, lease := None)
  }

  function FailTx(r: Rows, t: Ticket): (r': Rows)
    ensures r.Scoped() ==> r'.Scoped()
  {
    if LeaseCurrent(r, t) then r.(slots := r.slots[t.slot := FailedRow(r.slots[t.slot], t.reconcile)]) else r
  }

  function ObservedRow(s: Slot, absent: bool, reconcile: bool): Slot {
    s.(state := if reconcile then Stopped else if absent then AbsentVerified else ResultUncertain,
       uncertain := !(absent && !reconcile),
       lease := None)
  }

  function CommitTx(r: Rows, t: Ticket, absent: bool, facts: bool): (r': Rows)
    ensures r.Scoped() ==> r'.Scoped()
  {
    if LeaseTx(r, t, facts)
    then r.(slots := r.slots[t.slot := ObservedRow(r.slots[t.slot], absent, t.reconcile)],
            evidence := r.evidence + [Evidence(t.slot, t.epoch, absent)])
    else r
  }

  /** Why a fenced write is refused. */
  function LeaseRefusal(r: Rows, t: Ticket, facts: bool): (why: Option<Refusal>)
    ensures why.None? <==> LeaseTx(r, t, facts)
  {
    if t.slot !in r.slots || r.slots[t.slot].preview !in r.previews then Some(NotFound)
    else if !Authority(r, r.slots[t.slot].preview, t.reconcile, facts) then Some(FactsChanged)
    else if !LeaseCurrent(r, t) then Some(LeaseStale)
    else None
  }

  /**
   Whatever a handler writes behind its claim, the row still carries its own unexpired lease; and but
   for the failure note, the facts hold and the authorization stands unless the handler only observes.
   */
  lemma EveryWriteIsFenced(r: Rows, t: Ticket, facts: bool, accepted: bool, absent: bool)
    ensures ReserveTx(r, t, facts) != r || ReceiptTx(r, t, accepted, facts) != r || CommitTx(r, t, absent, facts) != r || FailTx(r, t) != r ==>
              && t.slot in r.slots && r.slots[t.slot].epoch == t.epoch && r.slots[t.slot].lease.Some?
              && r.slots[t.slot].lease.value.worker == t.worker && r.slots[t.slot].lease.value.expires > r.now
              && r.slots[t.slot].preview in r.previews
    ensures ReserveTx(r, t, facts) != r || ReceiptTx(r, t, accepted, facts) != r || CommitTx(r, t, absent, facts) != r ==>
              var p := r.previews[r.slots[t.slot].preview];
              facts && (t.reconcile || (!p.revoked && !p.stopped && !p.drifted && p.expires > r.now))
  {
  }

  // ----- stop and revoke

  predicate HaltApplies(r: Rows, p: nat, revoke: bool) {
    p in r.previews && (if revoke then !r.previews[p].revoked else !r.previews[p].stopped)
  }

  function HaltedRow(s: Slot): Slot {
    s.(state := Stopped, epoch := s.epoch + 1, lease := None)
  }

  function HaltSlots(slots: map<nat, Slot>, p: nat): map<nat, Slot> {
    map id | id in slots :: if slots[id].preview == p && slots[id].state != Stopped then HaltedRow(slots[id]) else slots[id]
  }

  function HaltTx(r: Rows, p: nat, revoke: bool): (r': Rows)
    ensures r.Scoped() ==> r'.Scoped()
  {
    if HaltApplies(r, p, revoke)
    then r.(previews := r.previews[p := r.previews[p].(stopped := true, revoked := revoke || r.previews[p].revoked)],
            slots := HaltSlots(r.slots, p))
    else r
  }

  // ----- the tables themselves

  class RemovalTables {
    var now: int
    var slots: map<nat, Slot>
    var previews: map<nat, Preview>
    var evidence: seq<Evidence>

    ghost function View(): Rows
      reads this
    {
      Rows(now, slots, previews, evidence)
    }

    constructor (now: int, slots: map<nat, Slot>, previews: map<nat, Preview>)
      ensures View() == Rows(now, slots, previews, [])
    {
      this.now, this.slots, this.previews, this.evidence := now, slots, previews, [];
    }

    method Claim(worker: nat, id: nat, verify: bool, reconcile: bool, limit: int, facts: bool) returns (out: Outcome)
      requires View().Scoped()
      modifies this
      ensures View() == ClaimTx(old(View()), worker, id, verify, reconcile, limit, facts)
      ensures out.Done? <==> MayClaim(old(View()), id, verify, reconcile, facts)
      ensures out.Done? ==> out.epoch == old(slots[id].epoch) + 1 == slots[id].epoch
      ensures out.Refused? ==> Some(out.why) == ClaimRefusal(old(View()), id, verify, reconcile, facts)
    {
      if id !in slots { return Refused(NotFound); }
      var s := slots[id];
      var p := previews[s.preview];
      if !facts || (!reconcile && (p.revoked || p.expires <= now || p.drifted)) { return Refused(FactsChanged); }
      if (p.stopped || s.state == Stopped) && !reconcile { return Refused(RemovalStopped); }
      if s.state == AbsentVerified && !verify { return Refused(AlreadyVerified); }
      if s.lease.Some? && s.lease.value.expires > now { return Refused(LeaseBusy); }
      var busy := exists o | o in slots ::
        o != id && previews[slots[o].preview].workspace == p.workspace && slots[o].lease.Some? && slots[o].lease.value.expires > now;
      assert busy <==> WorkspaceBusy(View(), View().Workspace(id), id) by {
        assert forall o :: o in slots ==> View().Workspace(o) == previews[slots[o].preview].workspace;
      }
      if busy { return Refused(SiblingBusy); }
      var requested := s.request.Some?;
      if (verify || reconcile) && !requested { return Refused(NotRequested); }
      var expires := Min(now + 60, limit);
      if reconcile {
        s := s.(state := Stopped);
      } else if requested {
        s := s.(state := AbsencePending);
      } else {
        s := s.(state := LeaseAcquired);
      }
      s := s.(uncertain := requested, lease := Some(Lease(worker, expires)), epoch := s.epoch + 1, attempts := s.attempts + 1);
      slots := slots[id := s];
      return Done(s.epoch);
    }

    /** Shared head of every fenced transaction. */
    method RequireLease(t: Ticket, facts: bool) returns (out: Outcome)
      ensures out.Done? <==> LeaseTx(View(), t, facts)
      ensures out.Done? ==> out.epoch == t.epoch
      ensures out.Refused? ==> Some(out.why) == LeaseRefusal(View(), t, facts)
    {
      if t.slot !in slots || slots[t.slot].preview !in previews { return Refused(NotFound); }
      var s := slots[t.slot];
      var p := previews[s.preview];
      if !facts || (!t.reconcile && (p.revoked || p.expires <= now || p.drifted)) { return Refused(FactsChanged); }
      if s.lease.None? || s.lease.value.worker != t.worker || s.epoch != t.epoch || s.lease.value.expires <= now
         || s.state == AbsentVerified || (!t.reconcile && (s.state == Stopped || p.stopped)) {
        return Refused(LeaseStale);
      }
      return Done(t.epoch);
    }

    method Reserve(t: Ticket, facts: bool) returns (out: Outcome)
      modifies this
      ensures View() == ReserveTx(old(View()), t, facts)
      ensures out.Done? <==> MayReserve(old(View()), t, facts)
      ensures out.Refused? ==>
                Some(out.why) == if LeaseTx(old(View()), t, facts) then Some(AlreadyReserved) else LeaseRefusal(old(View()), t, facts)
    {
      out := RequireLease(t, facts);
      if out.Refused? { return; }
      if slots[t.slot].request.Some? { return Refused(AlreadyReserved); }
      slots := slots[t.slot := slots[t.slot].(state := RemoveRequested, request := Some(t.worker), uncertain := true)];
    }

    method Receipt(t: Ticket, accepted: bool, facts: bool) returns (out: Outcome)
      modifies this
      ensures View() == ReceiptTx(old(View()), t, accepted, facts)
      ensures out.Done? <==> LeaseTx(old(View()), t, facts)
      ensures out.Refused? ==> Some(out.why) == LeaseRefusal(old(View()), t, facts)
    {
      out := RequireLease(t, facts);
      if out.Refused? { return; }
      var state := AbsencePending;
      if !accepted { state := ResultUncertain; }
      slots := slots[t.slot := slots[t.slot].(state := state)];
    }

    method FinishFailure(t: Ticket) returns (out: Outcome)
      modifies this
      ensures View() == FailTx(old(View()), t)
      ensures out == if LeaseCurrent(old(View()), t) then Done(t.epoch) else Refused(LeaseStale)
    {
      if t.slot !in slots || slots[t.slot].preview !in previews { return Refused(LeaseStale); }
      var s := slots[t.slot];
      if s.lease.None? || s.lease.value.worker != t.worker || s.epoch != t.epoch || s.lease.value.expires <= now
         || s.state == AbsentVerified || (!t.reconcile && (s.state == Stopped || previews[s.preview].stopped)) {
        return Refused(LeaseStale);
      }
      if !t.reconcile {
        s := s.(state := if s.request.None? then Blocked else ResultUncertain);
      }
      slots := slots[t.slot := s.(lease := None)];
      return Done(t.epoch);
    }

    method CommitEvidence(t: Ticket, absent: bool, facts: bool) returns (out: Outcome)
      modifies this
      ensures View() == CommitTx(old(View()), t, absent, facts)
      ensures out.Done? <==> LeaseTx(old(View()), t, facts)
      ensures out.Refused? ==> Some(out.why) == LeaseRefusal(old(View()), t, facts)
    {
      out := RequireLease(t, facts);
      if out.Refused? { return; }
      evidence := evidence + [Evidence(t.slot, t.epoch, absent)];
      var state := ResultUncertain;
      if absent { state := AbsentVerified; }
      if t.reconcile { state := Stopped; }
      slots := slots[t.slot := slots[t.slot].(state := state, uncertain := !(absent && !t.reconcile), lease := None)];
    }

    method Halt(p: nat, revoke: bool) returns (out: Outcome)
      modifies this
      ensures View() == HaltTx(old(View()), p, revoke)
      ensures out.Done? <==> HaltApplies(old(View()), p, revoke)
      ensures out.Refused? ==> out.why == NothingToHalt
      ensures out.Done? ==>
                p in previews && previews[p].stopped && (previews[p].revoked <==> revoke || old(previews)[p].revoked)
                && previews == old(previews)[p := old(previews)[p].(stopped := true, revoked := previews[p].revoked)]
    {
      if p !in previews || (if revoke then previews[p].revoked else previews[p].stopped) {
        return Refused(NothingToHalt);
      }
      if revoke { previews := previews[p := previews[p].(revoked := true)]; }
      previews := previews[p := previews[p].(stopped := true)];
      slots := map id | id in slots ::
        if slots[id].preview == p && slots[id].state != Stopped
        then slots[id].(state := Stopped, epoch := slots[id].epoch + 1, lease := None)
        else slots[id];
      return Done(0);
    }
  }
}
