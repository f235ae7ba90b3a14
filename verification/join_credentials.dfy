/**
 The credential checkpoints of one joined candidate
 (internal/runtime/rotation_join_credentials_store.go): one attempt per slot, a lease,
 append-only started/review events, sealed components and published generations.

 Nothing here assumes a uniqueness constraint of the database: the tables are plain
 sequences, and join_credentials_protocol.dfy proves what the fencing alone guarantees.
 `authority` stands for the local admission, the pinned personal binding and the
 authority function that every transaction rechecks.
 */
module JoinCredentials {
  import opened Common

  datatype Kind = Web | OAuth
  /** A journal row: the start of a remote action, or a request for review. */
  datatype Mark = Mark(kind: Kind, review: bool, epoch: nat)
  datatype Component = Component(kind: Kind, digest: nat, expires: int, worker: nat, epoch: nat)
  datatype Generation = Generation(web: nat, oauth: nat, expires: int, epoch: nat)
  datatype Lease = Lease(worker: nat, expires: int)

  datatype Table = Table(
    now: int, attempt: bool, lease: Option<Lease>, epoch: nat,
    events: seq<Mark>, components: seq<Component>, generations: seq<Generation>)

  datatype Ticket = Ticket(worker: nat, epoch: nat)

  predicate Live(t: Table) { t.lease.Some? && t.lease.value.expires > t.now }

  predicate Current(t: Table, k: Ticket, authority: bool) {
    authority && Live(t) && t.lease.value.worker == k.worker && t.epoch == k.epoch
  }

  predicate HasStarted(events: seq<Mark>, kind: Kind) {
    exists e | e in events :: e.kind == kind && !e.review
  }

  predicate HasReview(events: seq<Mark>, kind: Kind) {
    exists e | e in events :: e.kind == kind && e.review
  }

  /** The stored checkpoint of a kind. */
  function Stored(components: seq<Component>, kind: Kind): (c: Option<Component>)
    ensures c.Some? ==> c.value in components && c.value.kind == kind
    ensures c.None? ==> forall x :: x in components ==> x.kind != kind
  {
    if components == [] then None
    else if components[0].kind == kind then Some(components[0])
    else Stored(components[1..], kind)
  }

  /** A first save opens the attempt on fresh confirmed evidence; later ones must be repairs. */
  predicate MayClaim(t: Table, duration: int, repair: bool, confirmed: bool, authority: bool) {
    duration > 0 && authority && (if t.attempt then repair else confirmed) && !Live(t)
  }

  function ClaimTx(t: Table, worker: nat, duration: int, limit: int, repair: bool, confirmed: bool, authority: bool): Table {
    if MayClaim(t, duration, repair, confirmed, authority)
    then t.(attempt := true, lease := Some(Lease(worker, Min(t.now + duration, limit))), epoch := t.epoch + 1)
    else t
  }

  function StartTx(t: Table, k: Ticket, kind: Kind, authority: bool): Table {
    if Current(t, k, authority) then t.(events := t.events + [Mark(kind, false, k.epoch)]) else t
  }

  function ReviewTx(t: Table, k: Ticket, kind: Kind, authority: bool): Table {
    if Current(t, k, authority) && !HasReview(t.events, kind) then t.(events := t.events + [Mark(kind, true, k.epoch)]) else t
  }

  function StoreTx(t: Table, k: Ticket, kind: Kind, digest: nat, expires: int, authority: bool): Table {
    if Current(t, k, authority) then t.(components := t.components + [Component(kind, digest, expires, k.worker, k.epoch)]) else t
  }

  /** Both checkpoints exist and still validate; the oauth one with a minute to spare. */
  predicate PairValid(t: Table, valid: bool) {
    var w, o := Stored(t.components, Web), Stored(t.components, OAuth);
    valid && w.Some? && o.Some? && o.value.expires > t.now + 60
  }

  predicate MayPublish(t: Table, k: Ticket, valid: bool, authority: bool) { Current(t, k, authority) && PairValid(t, valid) }

  function PublishTx(t: Table, k: Ticket, valid: bool, authority: bool): Table {
    if !MayPublish(t, k, valid, authority) then t
    else
      var w, o := Stored(t.components, Web).value, Stored(t.components, OAuth).value;
      t.(generations := t.generations + [Generation(w.digest, o.digest, Min(w.expires, o.expires), k.epoch)])
  }

  function ReleaseTx(t: Table, k: Ticket): Table {
    if Current(t, k, true) then t.(lease := None) else t
  }

  datatype Reply = Done(epoch: nat) | RepairRequired | Busy | Stale | Review

  class CredentialTables {
    var now: int
    var attempt: bool
    var lease: Option<Lease>
    var epoch: nat
    var events: seq<Mark>
    var components: seq<Component>
    var generations: seq<Generation>

    ghost function View(): Table
      reads this
    {
      Table(now, attempt, lease, epoch, events, components, generations)
    }

    constructor (now: int)
      ensures View() == Table(now, false, None, 0, [], [], [])
    {
      this.now, attempt, lease, epoch := now, false, None, 0;
      events, components, generations := [], [], [];
    }

    method Claim(worker: nat, duration: int, limit: int, repair: bool, confirmed: bool, authority: bool) returns (r: Reply)
      modifies this
      ensures View() == ClaimTx(old(View()), worker, duration, limit, repair, confirmed, authority)
      ensures r.Done? <==> MayClaim(old(View()), duration, repair, confirmed, authority)
      ensures r.Done? ==> r.epoch == epoch == old(epoch) + 1
      ensures r.RepairRequired? <==> duration > 0 && authority && old(attempt) && !repair
      ensures r.Busy? <==> duration > 0 && authority && (if old(attempt) then repair else confirmed) && Live(old(View()))
      ensures !r.Review?
    {
      if duration <= 0 || !authority { return Stale; }
      if attempt && !repair { return RepairRequired; }
      if !attempt && !confirmed { return Stale; }
      if lease.Some? && lease.value.expires > now { return Busy; }
      attempt := true;
      epoch := epoch + 1;
      lease := Some(Lease(worker, Min(now + duration, limit)));
      return Done(epoch);
    }

    method RequireLease(k: Ticket, authority: bool) returns (ok: bool)
      ensures ok <==> Current(View(), k, authority)
    {
      ok := authority && lease.Some? && lease.value.worker == k.worker && epoch == k.epoch && lease.value.expires > now;
    }

    method AppendStarted(k: Ticket, kind: Kind, authority: bool) returns (r: Reply)
      modifies this
      ensures View() == StartTx(old(View()), k, kind, authority)
      ensures r == if Current(old(View()), k, authority) then Done(k.epoch) else Stale
    {
      var ok := RequireLease(k, authority);
      if !ok { return Stale; }
      events := events + [Mark(kind, false, epoch)];
      return Done(epoch);
    }

    method AppendReview(k: Ticket, kind: Kind, authority: bool) returns (r: Reply)
      modifies this
      ensures View() == ReviewTx(old(View()), k, kind, authority)
      ensures r.Review?
      ensures Current(old(View()), k, authority) ==> exists e :: e in events && e.kind == kind && e.review
    {
      var ok := RequireLease(k, authority);
      if ok && !(exists e | e in events :: e.kind == kind && e.review) { events := events + [Mark(kind, true, epoch)]; }
      return Review;
    }

    method AppendComponent(k: Ticket, kind: Kind, digest: nat, expires: int, authority: bool) returns (r: Reply)
      modifies this
      ensures View() == StoreTx(old(View()), k, kind, digest, expires, authority)
      ensures r == if Current(old(View()), k, authority) then Done(k.epoch) else Stale
    {
      var ok := RequireLease(k, authority);
      if !ok { return Stale; }
      components := components + [Component(kind, digest, expires, k.worker, epoch)];
      return Done(epoch);
    }

    /** validateSavedJoinCredentials; `valid` stands for the contents of the two envelopes. */
    method Validate(valid: bool) returns (ok: bool)
      ensures ok <==> PairValid(View(), valid)
    {
      var web, oauth := Stored(components, Web), Stored(components, OAuth);
      ok := web.Some? && oauth.Some? && valid && oauth.value.expires > now + 60;
    }

    method Publish(k: Ticket, valid: bool, authority: bool) returns (r: Reply)
      modifies this
      ensures View() == PublishTx(old(View()), k, valid, authority)
      ensures r.Done? <==> MayPublish(old(View()), k, valid, authority)
      ensures r.Review? <==> Current(old(View()), k, authority) && !PairValid(old(View()), valid)
      ensures r.Stale? <==> !Current(old(View()), k, authority)
    {
      var ok := RequireLease(k, authority);
      if !ok { return Stale; }
      var sound := Validate(valid);
      if !sound { return Review; }
      var web, oauth := Stored(components, Web), Stored(components, OAuth);
      var expires := oauth.value.expires;
      if web.value.expires < expires { expires := web.value.expires; }
      generations := generations + [Generation(web.value.digest, oauth.value.digest, expires, epoch)];
      return Done(epoch);
    }

    /** Cleanup releases exactly this live lease and nothing else. */
    method Release(k: Ticket)
      modifies this`lease
      ensures View() == ReleaseTx(old(View()), k)
    {
      if lease.Some? && lease.value.worker == k.worker && epoch == k.epoch && lease.value.expires > now { lease := None; }
    }
  }
}
