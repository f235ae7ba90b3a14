/**
 The roster check around the DELETE (checkRemovalSnapshot in
 internal/runtime/rotation_removal.go): the complete live roster must be the frozen
 roster minus only released slots.

 `canon` stands for trimming and lower-casing an identifier; every result holds for any such map.
 */
module RemovalRoster {
  import opened Common

  datatype Member = Member(kind: string, id: string, accountUser: string, identifier: string, role: string, seat: string)
  datatype Frozen = Frozen(id: string, identifier: string, role: string, seat: string)
  datatype Target = Target(member: string, identifier: string, seat: string)

  datatype Snapshot = Snapshot(operational: bool, complete: bool, count: Option<int>, declared: int, observed: int, members: seq<Member>) {
    /** Times in seconds; 0 is the unset time. */
    predicate Fresh(now: int) {
      && operational && complete && count == Some(|members|) && declared == |members|
      && observed != 0 && observed <= now + 1 && observed >= now - 30
    }
  }

  /** `MemberChanged`: a live entry is not the frozen one; `RosterChanged`: an entry is missing, or the target is. */
  datatype Verdict = Checked(absent: bool) | Incomplete | Conflict | MemberChanged | RosterChanged

  function Aliases(m: Member): set<string> {
    {m.id} + (if m.accountUser != "" then {m.accountUser} else {})
  }

  /** No two live members share an identifier, a member id or an account-user id, even crosswise. */
  ghost predicate Distinct(ms: seq<Member>, canon: string -> string) {
    forall i, j :: 0 <= i < j < |ms| ==> canon(ms[i].identifier) != canon(ms[j].identifier) && Aliases(ms[i]) !! Aliases(ms[j])
  }

  predicate Mentions(m: Member, t: Target, canon: string -> string) {
    m.id == t.member || m.accountUser == t.member || canon(m.identifier) == t.identifier
  }

  predicate IsTarget(m: Member, t: Target, canon: string -> string) {
    m.id == t.member && canon(m.identifier) == t.identifier && m.seat == t.seat && m.role != "owner" && m.role != "admin"
  }

  function Facts(m: Member, canon: string -> string): Frozen {
    Frozen(m.id, canon(m.identifier), m.role, m.seat)
  }

  ghost predicate UniqueIds(fs: seq<Frozen>) {
    (forall f :: f in fs ==> f.id != "") && (forall i, j :: 0 <= i < j < |fs| ==> fs[i].id != fs[j].id)
  }

  /** The frozen entries that no committed release has emptied. */
  function Kept(entries: seq<Frozen>, released: set<string>): (r: seq<Frozen>)
    ensures forall f :: f in r <==> f in entries && f.id !in released
  {
    if entries == [] then []
    else (if entries[0].id in released then [] else [entries[0]]) + Kept(entries[1..], released)
  }

  ghost predicate Admissible(m: Member, frozen: seq<Frozen>, t: Target, canon: string -> string) {
    m.kind == "member" && m.id != "" && canon(m.identifier) != "" && Facts(m, canon) in frozen
    && (Mentions(m, t, canon) ==> IsTarget(m, t, canon))
  }

  ghost predicate Present(ms: seq<Member>, t: Target, canon: string -> string) {
    exists m :: m in ms && Mentions(m, t, canon)
  }

  /** Every frozen entry is accounted for: seen, or the absent target. */
  ghost predicate Covered(frozen: seq<Frozen>, ms: seq<Member>, t: Target, absent: bool) {
    forall f :: f in frozen ==> (absent && f.id == t.member) || exists m :: m in ms && m.id == f.id
  }

  /** The live roster authorizes an action on the target and shows it present or absent. */
  ghost predicate Authorizes(frozen: seq<Frozen>, ms: seq<Member>, t: Target, allowAbsent: bool,
                             canon: string -> string, absent: bool) {
    && UniqueIds(frozen) && Distinct(ms, canon)
    && (forall m :: m in ms ==> Admissible(m, frozen, t, canon))
    && (absent <==> !Present(ms, t, canon))
    && (absent ==> allowAbsent)
    && Covered(frozen, ms, t, absent)
  }

  ghost predicate Authorizable(frozen: seq<Frozen>, ms: seq<Member>, t: Target, allowAbsent: bool, canon: string -> string) {
    exists absent :: Authorizes(frozen, ms, t, allowAbsent, canon, absent)
  }

  // ----- reading the frozen roster

  lemma {:induction false} KeptSnoc(entries: seq<Frozen>, e: Frozen, released: set<string>)
    ensures Kept(entries + [e], released) == Kept(entries, released) + (if e.id in released then [] else [e])
  {
    if entries == [] {
      assert entries + [e] == [e];
    } else {
      assert (entries + [e])[1..] == entries[1..] + [e];
      KeptSnoc(entries[1..], e, released);
    }
  }

  lemma KeptPrefix(entries: seq<Frozen>, n: nat, released: set<string>)
    requires n <= |entries|
    ensures Kept(entries[..n], released) <= Kept(entries, released)
    decreases |entries| - n
  {
    if n < |entries| {
      assert entries[..n + 1] == entries[..n] + [entries[n]];
      KeptSnoc(entries[..n], entries[n], released);
      KeptPrefix(entries, n + 1, released);
    } else {
      assert entries[..n] == entries;
    }
  }

  ghost predicate Indexes(expected: map<string, Frozen>, fs: seq<Frozen>) {
    && (forall f :: f in fs ==> f.id in expected && expected[f.id] == f)
    && (forall id :: id in expected ==> expected[id].id == id && expected[id] in fs)
  }

  lemma IndexSnoc(expected: map<string, Frozen>, fs: seq<Frozen>, f: Frozen)
    requires Indexes(expected, fs) && UniqueIds(fs)
    ensures UniqueIds(fs + [f]) <==> f.id != "" && f.id !in expected
    ensures f.id !in expected ==> Indexes(expected[f.id := f], fs + [f])
  {
    if f.id in expected && f.id != "" {
      var i :| 0 <= i < |fs| && fs[i] == expected[f.id];
      assert (fs + [f])[i].id == (fs + [f])[|fs|].id;
    }
    assert forall g :: g in fs + [f] <==> g in fs || g == f;
    if f.id == "" { assert f in fs + [f]; }
  }

  lemma UniquePrefix(a: seq<Frozen>, b: seq<Frozen>)
    requires a <= b && UniqueIds(b)
    ensures UniqueIds(a)
  {
    assert forall f :: f in a ==> f in b;
  }

  /** Reads the frozen roster into a map by member id, refusing an empty or repeated id. */
  method LoadExpected(entries: seq<Frozen>, released: set<string>) returns (ok: bool, expected: map<string, Frozen>)
    ensures ok <==> UniqueIds(Kept(entries, released))
    ensures ok ==> Indexes(expected, Kept(entries, released))
  {
    expected := map[];
    for n := 0 to |entries|
      invariant UniqueIds(Kept(entries[..n], released)) && Indexes(expected, Kept(entries[..n], released))
    {
      var f := entries[n];
      assert entries[..n + 1] == entries[..n] + [f];
      KeptSnoc(entries[..n], f, released);
      if f.id !in released {
        IndexSnoc(expected, Kept(entries[..n], released), f);
        if f.id == "" || f.id in expected {
          KeptPrefix(entries, n + 1, released);
          if UniqueIds(Kept(entries, released)) { UniquePrefix(Kept(entries[..n + 1], released), Kept(entries, released)); }
          return false, expected;
        }
        expected := expected[f.id := f];
      }
    }
    assert entries[..|entries|] == entries;
    ok := true;
  }

  // ----- walking the live roster

  /** Everything `f` extracts from the members. */
  ghost function Gather(ms: seq<Member>, f: Member -> set<string>): set<string> {
    if ms == [] then {} else Gather(ms[..|ms| - 1], f) + f(ms[|ms| - 1])
  }

  ghost function AliasesOf(ms: seq<Member>): set<string> { Gather(ms, (m: Member) => Aliases(m)) }
  ghost function NamesOf(ms: seq<Member>, canon: string -> string): set<string> { Gather(ms,
                         (m: Member) => {canon(m.identifier)}) }
  ghost function IdsOf(ms: seq<Member>): set<string> { Gather(ms, (m: Member) => {m.id}) }

  lemma {:induction false} GatherContains(ms: seq<Member>, f: Member -> set<string>, m: Member)
    requires m in ms
    ensures f(m) <= Gather(ms, f)
  {
    var init, last := ms[..|ms| - 1], ms[|ms| - 1];
    assert ms == init + [last];
    if m in init { GatherContains(init, f, m); }
  }

  lemma {:induction false} GatherSource(ms: seq<Member>, f: Member -> set<string>, x: string) returns (m: Member)
    requires x in Gather(ms, f)
    ensures m in ms && x in f(m)
  {
    var init, last := ms[..|ms| - 1], ms[|ms| - 1];
    assert ms == init + [last];
    if x in Gather(init, f) { m := GatherSource(init, f, x); } else { m := last; }
  }

  lemma NamesTell(ms: seq<Member>, canon: string -> string, x: string)
    ensures x in NamesOf(ms, canon) <==> exists m :: m in ms && canon(m.identifier) == x
  {
    var f := (m: Member) => {canon(m.identifier)};
    if x in NamesOf(ms, canon) { var m := GatherSource(ms, f, x); }
    if m :| m in ms && canon(m.identifier) == x { GatherContains(ms, f, m); assert f(m) == {x}; }
  }

  lemma AliasesTell(ms: seq<Member>, x: string)
    ensures x in AliasesOf(ms) <==> exists m :: m in ms && x in Aliases(m)
  {
    var f := (m: Member) => Aliases(m);
    if x in AliasesOf(ms) { var m := GatherSource(ms, f, x); }
    if m :| m in ms && x in Aliases(m) { GatherContains(ms, f, m); assert f(m) == Aliases(m); }
  }

  lemma IdsTell(ms: seq<Member>, x: string)
    ensures x in IdsOf(ms) <==> exists m :: m in ms && m.id == x
  {
    var f := (m: Member) => {m.id};
    if x in IdsOf(ms) { var m := GatherSource(ms, f, x); }
    if m :| m in ms && m.id == x { GatherContains(ms, f, m); assert f(m) == {x}; }
  }

  ghost predicate Walked(ms: seq<Member>, frozen: seq<Frozen>, t: Target, canon: string -> string) {
    Distinct(ms, canon) && forall m :: m in ms ==> Admissible(m, frozen, t, canon)
  }

  lemma DistinctSnoc(ms: seq<Member>, m: Member, canon: string -> string)
    requires Distinct(ms, canon)
    ensures Distinct(ms + [m], canon) <==> canon(m.identifier) !in NamesOf(ms, canon) && Aliases(m) !! AliasesOf(ms)
  {
    var all := ms + [m];
    assert all[|ms|] == m && forall i :: 0 <= i < |ms| ==> all[i] == ms[i];
    NamesTell(ms, canon, canon(m.identifier));
    if Distinct(all, canon) {
      forall x | x in Aliases(m) ensures x !in AliasesOf(ms) { AliasesTell(ms, x); }
    } else if canon(m.identifier) !in NamesOf(ms, canon) && Aliases(m) !! AliasesOf(ms) {
      forall i, j | 0 <= i < j < |all| ensures canon(all[i].identifier) != canon(all[j].identifier) && Aliases(all[i]) !! Aliases(all[j]) {
        if j == |ms| {
          assert ms[i] in ms;
          forall x | x in Aliases(ms[i]) ensures x !in Aliases(m) { AliasesTell(ms, x); }
        }
      }
    }
  }

  lemma WalkSnoc(ms: seq<Member>, m: Member, frozen: seq<Frozen>, t: Target, canon: string -> string)
    requires Walked(ms, frozen, t, canon)
    ensures Walked(ms + [m], frozen, t, canon) <==>
              && Admissible(m, frozen, t, canon) && canon(m.identifier) !in NamesOf(ms, canon) && Aliases(m) !! AliasesOf(ms)
  {
    DistinctSnoc(ms, m, canon);
    assert m in ms + [m];
    assert forall x :: x in ms + [m] <==> x in ms || x == m;
  }

  lemma WalkPrefix(ms: seq<Member>, n: nat, frozen: seq<Frozen>, t: Target, canon: string -> string)
    requires n <= |ms| && Walked(ms, frozen, t, canon)
    ensures Walked(ms[..n], frozen, t, canon)
  {
    assert forall m :: m in ms[..n] ==> m in ms;
  }

  /** What the final test of the leftover map decides. */
  lemma Leftover(frozen: seq<Frozen>, ms: seq<Member>, t: Target, absent: bool, all: map<string, Frozen>,
                 left: map<string, Frozen>)
    requires Indexes(all, frozen) && left == all - IdsOf(ms) - (if absent then {t.member} else {})
    ensures left == map[] <==> Covered(frozen, ms, t, absent)
  {
    if left == map[] {
      forall f | f in frozen ensures (absent && f.id == t.member) || exists m :: m in ms && m.id == f.id {
        assert f.id in all && f.id !in left;
        IdsTell(ms, f.id);
      }
    } else {
      var id :| id in left;
      IdsTell(ms, id);
      assert all[id] in frozen && all[id].id == id;
    }
  }

  /** One iteration, and why failing it fails the whole roster. */
  lemma Advance(ms: seq<Member>, n: nat, frozen: seq<Frozen>, t: Target, allowAbsent: bool, canon: string -> string)
    requires n < |ms| && Walked(ms[..n], frozen, t, canon)
    ensures var m := ms[n];
            && Walked(ms[..n + 1], frozen, t, canon) ==
                 (Admissible(m, frozen, t, canon) && canon(m.identifier) !in NamesOf(ms[..n], canon) && Aliases(m) !! AliasesOf(ms[..n]))
    ensures !Walked(ms[..n + 1], frozen, t, canon) ==> !Authorizable(frozen, ms, t, allowAbsent, canon)
  {
    assert ms[..n + 1] == ms[..n] + [ms[n]];
    WalkSnoc(ms[..n], ms[n], frozen, t, canon);
    if Walked(ms, frozen, t, canon) { WalkPrefix(ms, n + 1, frozen, t, canon); }
  }

  lemma AdvanceSets(ms: seq<Member>, n: nat, t: Target, canon: string -> string)
    requires n < |ms|
    ensures AliasesOf(ms[..n + 1]) == AliasesOf(ms[..n]) + Aliases(ms[n])
    ensures NamesOf(ms[..n + 1], canon) == NamesOf(ms[..n], canon) + {canon(ms[n].identifier)}
    ensures IdsOf(ms[..n + 1]) == IdsOf(ms[..n]) + {ms[n].id}
    ensures ms[n].id in IdsOf(ms[..n]) ==> ms[n].id in AliasesOf(ms[..n])
    ensures Present(ms[..n + 1], t, canon) <==> Present(ms[..n], t, canon) || Mentions(ms[n], t, canon)
  {
    assert ms[..n + 1][..n] == ms[..n] && ms[..n + 1] == ms[..n] + [ms[n]];
    IdsTell(ms[..n], ms[n].id);
    AliasesTell(ms[..n], ms[n].id);
    assert ms[n] in ms[..n + 1];
  }

  lemma Conclude(frozen: seq<Frozen>, ms: seq<Member>, t: Target, allowAbsent: bool, canon: string -> string,
                 all: map<string, Frozen>, left: map<string, Frozen>)
    requires Walked(ms, frozen, t, canon) && UniqueIds(frozen) && Indexes(all, frozen)
    requires left == all - IdsOf(ms) - (if allowAbsent && !Present(ms, t, canon) then {t.member} else {})
    ensures left == map[] && (allowAbsent || Present(ms, t, canon)) <==> Authorizable(frozen, ms, t, allowAbsent, canon)
    ensures Authorizable(frozen, ms, t, allowAbsent, canon) ==> Authorizes(frozen, ms, t, allowAbsent, canon, !Present(ms, t, canon))
  {
    Leftover(frozen, ms, t, allowAbsent && !Present(ms, t, canon), all, left);
    if left == map[] && (allowAbsent || Present(ms, t, canon)) {
      assert Authorizes(frozen, ms, t, allowAbsent, canon, !Present(ms, t, canon));
    }
  }

  /** The tests of one iteration, on the sets and the map as the loop has them. */
  ghost predicate Accepts(m: Member, seenIDs: set<string>, seenIdentifiers: set<string>, expected: map<string,
                          Frozen>, t: Target, canon: string -> string) {
    && m.kind == "member" && m.id != "" && canon(m.identifier) != "" && canon(m.identifier) !in seenIdentifiers
    && m.id !in seenIDs && (m.accountUser == "" || m.accountUser !in seenIDs)
    && m.id in expected && Facts(m, canon) == expected[m.id].(id := m.id)
    && (Mentions(m, t, canon) ==> IsTarget(m, t, canon))
  }

  lemma Decision(ms: seq<Member>, n: nat, frozen: seq<Frozen>, t: Target, allowAbsent: bool, canon: string -> string,
                 all: map<string, Frozen>)
    requires n < |ms| && Walked(ms[..n], frozen, t, canon) && Indexes(all, frozen)
    ensures Accepts(ms[n], AliasesOf(ms[..n]), NamesOf(ms[..n], canon), all - IdsOf(ms[..n]), t, canon) <==> Walked(ms[..n + 1], frozen, t, canon)
    ensures !Walked(ms[..n + 1], frozen, t, canon) ==> !Authorizable(frozen, ms, t, allowAbsent, canon)
    ensures AliasesOf(ms[..n + 1]) == AliasesOf(ms[..n]) + Aliases(ms[n])
    ensures NamesOf(ms[..n + 1], canon) == NamesOf(ms[..n], canon) + {canon(ms[n].identifier)}
    ensures all - IdsOf(ms[..n + 1]) == all - IdsOf(ms[..n]) - {ms[n].id}
    ensures Present(ms[..n + 1], t, canon) <==> Present(ms[..n], t, canon) || Mentions(ms[n], t, canon)
  {
    Advance(ms, n, frozen, t, allowAbsent, canon);
    AdvanceSets(ms, n, t, canon);
  }

  /** Why the walk stops at an entry, if it does: its own shape and identity first, then its facts, then the target. */
  ghost function Fault(prior: seq<Member>, m: Member, frozen: seq<Frozen>, t: Target, canon: string -> string): Option<Verdict> {
    if m.kind != "member" || m.id == "" || canon(m.identifier) == "" || canon(m.identifier) in NamesOf(prior, canon)
       || !(Aliases(m) !! AliasesOf(prior)) then Some(Conflict)
    else if Facts(m, canon) !in frozen then Some(MemberChanged)
    else if Mentions(m, t, canon) && !IsTarget(m, t, canon) then Some(Conflict)
    else None
  }

  /** The entries before it are in order, and this one stops the walk. */
  ghost predicate StopsAt(ms: seq<Member>, n: nat, frozen: seq<Frozen>, t: Target, canon: string -> string, v: Verdict) {
    n < |ms| && Walked(ms[..n], frozen, t, canon) && Fault(ms[..n], ms[n], frozen, t, canon) == Some(v)
  }

  /** An entry is in the map of what is still expected, with its facts, exactly when it is one of the frozen ones. */
  lemma ExpectedMeans(ms: seq<Member>, n: nat, frozen: seq<Frozen>, t: Target, canon: string -> string, all: map<string, Frozen>)
    requires n < |ms| && Walked(ms[..n], frozen, t, canon) && Indexes(all, frozen)
    ensures ms[n].id !in AliasesOf(ms[..n]) ==>
              var left := all - IdsOf(ms[..n]);
              (ms[n].id in left && Facts(ms[n], canon) == left[ms[n].id].(id := ms[n].id) <==> Facts(ms[n], canon) in frozen)
  {
    AdvanceSets(ms, n, t, canon);
  }

  /** The walk of the authorizing branch: consumes the expected map, member by member. */
  method WalkMembers(ms: seq<Member>, ghost frozen: seq<Frozen>, all: map<string, Frozen>, t: Target,
                     allowAbsent: bool, canon: string -> string)
    returns (r: Verdict)
    requires UniqueIds(frozen) && Indexes(all, frozen)
    ensures r.Conflict? || r.MemberChanged? ==> exists n: nat :: StopsAt(ms, n, frozen, t, canon, r)
    ensures r.RosterChanged? ==> Walked(ms, frozen, t, canon)
    ensures r.Checked? ==> Authorizes(frozen, ms, t, allowAbsent, canon, r.absent)
    ensures !r.Incomplete?
    ensures !r.Checked? ==> !Authorizable(frozen, ms, t, allowAbsent, canon)
  {
    var expected := all;
    var seenIDs, seenIdentifiers: set<string> := {}, {};
    var present := false;
    for n := 0 to |ms|
      invariant seenIDs == AliasesOf(ms[..n]) && seenIdentifiers == NamesOf(ms[..n], canon)
      invariant Walked(ms[..n], frozen, t, canon)
      invariant present <==> Present(ms[..n], t, canon)
      invariant expected == all - IdsOf(ms[..n])
    {
      var m := ms[n];
      Decision(ms, n, frozen, t, allowAbsent, canon, all);
      ExpectedMeans(ms, n, frozen, t, canon, all);
      var identifier := canon(m.identifier);
      if m.kind != "member" || m.id == "" || identifier == "" || identifier in seenIdentifiers || m.id in seenIDs
         || (m.accountUser != "" && m.accountUser in seenIDs) {
        assert StopsAt(ms, n, frozen, t, canon, Conflict);
        return Conflict;
      }
      if m.id !in expected || identifier != expected[m.id].identifier || m.seat != expected[m.id].seat || m.role != expected[m.id].role {
        assert StopsAt(ms, n, frozen, t, canon, MemberChanged);
        return MemberChanged;
      }
      if m.id == t.member || m.accountUser == t.member || identifier == t.identifier {
        if m.id != t.member || identifier != t.identifier || m.seat != t.seat || m.role == "owner" || m.role == "admin" {
          assert StopsAt(ms, n, frozen, t, canon, Conflict);
          return Conflict;
        }
        present := true;
      }
      seenIdentifiers := seenIdentifiers + {identifier};
      seenIDs := seenIDs + {m.id} + (if m.accountUser != "" then {m.accountUser} else {});
      expected := expected - {m.id};
    }
    assert ms[..|ms|] == ms;
    if allowAbsent && !present { expected := expected - {t.member}; }
    Conclude(frozen, ms, t, allowAbsent, canon, all, expected);
    if expected != map[] || (!allowAbsent && !present) { return RosterChanged; }
    return Checked(!present);
  }

  /** The authorizing branch: it accepts exactly the rosters that `Authorizes` describes. */
  method CheckSnapshot(entries: seq<Frozen>, released: set<string>, snapshot: Snapshot, t: Target, allowAbsent: bool,
                       now: int, canon: string -> string)
    returns (r: Verdict)
    ensures r.Incomplete? <==> !snapshot.Fresh(now)
    ensures r.Checked? ==> Authorizes(Kept(entries, released), snapshot.members, t, allowAbsent, canon, r.absent)
    ensures r.Conflict? || r.MemberChanged? || r.RosterChanged? ==>
              !Authorizable(Kept(entries, released), snapshot.members, t, allowAbsent, canon)
    ensures snapshot.Fresh(now) && !UniqueIds(Kept(entries, released)) ==> r.Conflict?
    ensures UniqueIds(Kept(entries, released)) && (r.Conflict? || r.MemberChanged?) ==>
              exists n: nat :: StopsAt(snapshot.members, n, Kept(entries, released), t, canon, r)
    ensures r.RosterChanged? ==> Walked(snapshot.members, Kept(entries, released), t, canon)
  {
    if !snapshot.operational || !snapshot.complete || snapshot.count != Some(|snapshot.members|) || snapshot.declared != |snapshot.members|
       || snapshot.observed == 0 || snapshot.observed > now + 1 || snapshot.observed < now - 30
    {
      return Incomplete;
    }
    var ok, expected := LoadExpected(entries, released);
    if !ok { return Conflict; }
    r := WalkMembers(snapshot.members, Kept(entries, released), expected, t, allowAbsent, canon);
  }

  // ----- what acceptance means

  function Expected(frozen: seq<Frozen>, t: Target, absent: bool): set<Frozen> {
    set f | f in frozen && !(absent && f.id == t.member)
  }

  function LiveFacts(ms: seq<Member>, canon: string -> string): set<Frozen> {
    set m | m in ms :: Facts(m, canon)
  }

  lemma SameId(frozen: seq<Frozen>, a: Frozen, b: Frozen)
    requires UniqueIds(frozen) && a in frozen && b in frozen && a.id == b.id
    ensures a == b
  {
    var i :| 0 <= i < |frozen| && frozen[i] == a;
    var j :| 0 <= j < |frozen| && frozen[j] == b;
  }

  lemma LiveFactIsExpected(frozen: seq<Frozen>, ms: seq<Member>, t: Target, allowAbsent: bool,
                           canon: string -> string, absent: bool, m: Member)
    requires Authorizes(frozen, ms, t, allowAbsent, canon, absent) && m in ms
    ensures Facts(m, canon) in Expected(frozen, t, absent)
  {
    assert Admissible(m, frozen, t, canon);
    if m.id == t.member { assert Mentions(m, t, canon); }
  }

  lemma ExpectedFactIsLive(frozen: seq<Frozen>, ms: seq<Member>, t: Target, allowAbsent: bool,
                           canon: string -> string, absent: bool, f: Frozen)
    requires Authorizes(frozen, ms, t, allowAbsent, canon, absent) && f in Expected(frozen, t, absent)
    ensures f in LiveFacts(ms, canon)
  {
    var m :| m in ms && m.id == f.id;
    assert Admissible(m, frozen, t, canon);
    SameId(frozen, f, Facts(m, canon));
  }

  /**
   The live facts are the frozen facts, less the target's entry when it is absent: equal as
   sets, and equal in number.
   */
  lemma LiveIsFrozen(frozen: seq<Frozen>, ms: seq<Member>, t: Target, allowAbsent: bool, canon: string -> string, absent: bool)
    requires Authorizes(frozen, ms, t, allowAbsent, canon, absent)
    ensures LiveFacts(ms, canon) == Expected(frozen, t, absent) && |ms| == |Expected(frozen, t, absent)|
  {
    forall m | m in ms ensures Facts(m, canon) in Expected(frozen, t, absent) {
      LiveFactIsExpected(frozen, ms, t, allowAbsent, canon, absent, m);
    }
    forall f | f in Expected(frozen, t, absent) ensures f in LiveFacts(ms, canon) {
      ExpectedFactIsLive(frozen, ms, t, allowAbsent, canon, absent, f);
    }
    assert LiveFacts(ms, canon) == Expected(frozen, t, absent);
    FactsAreDistinct(ms, canon);
  }

  lemma LastFactIsNew(init: seq<Member>, last: Member, canon: string -> string)
    requires Distinct(init + [last], canon)
    ensures Distinct(init, canon) && Facts(last, canon) !in LiveFacts(init, canon)
  {
    var ms := init + [last];
    assert ms[|init|] == last && forall i :: 0 <= i < |init| ==> ms[i] == init[i];
    forall m | m in init ensures Facts(m, canon) != Facts(last, canon) {
      var i :| 0 <= i < |init| && init[i] == m;
      assert canon(ms[i].identifier) != canon(ms[|init|].identifier);
    }
  }

  lemma FactsSnoc(init: seq<Member>, last: Member, canon: string -> string)
    ensures LiveFacts(init + [last], canon) == LiveFacts(init, canon) + {Facts(last, canon)}
  {
  }

  lemma {:induction false} FactsAreDistinct(ms: seq<Member>, canon: string -> string)
    requires Distinct(ms, canon)
    ensures |LiveFacts(ms, canon)| == |ms|
  {
    if ms != [] {
      var init, last := ms[..|ms| - 1], ms[|ms| - 1];
      assert ms == init + [last];
      LastFactIsNew(init, last, canon);
      FactsAreDistinct(init, canon);
      FactsSnoc(init, last, canon);
    }
  }

  // ----- the observation-only branch

  /** An entry with both names, and no alias of the target under another identifier. */
  ghost predicate Plain(m: Member, t: Target, canon: string -> string) {
    m.id != "" && canon(m.identifier) != "" && (t.member in Aliases(m) ==> canon(m.identifier) == t.identifier)
  }

  ghost predicate Observable(ms: seq<Member>, t: Target, canon: string -> string) {
    Distinct(ms, canon) && forall m :: m in ms ==> Plain(m, t, canon)
  }

  /** Present when an alias or the identifier of the target is live. */
  ghost predicate Seen(ms: seq<Member>, t: Target, canon: string -> string) {
    exists m :: m in ms && (t.member in Aliases(m) || canon(m.identifier) == t.identifier)
  }

  /** The observing check asks no more than the authorizing one, and then gives the same answer. */
  lemma {:induction false} AuthorizingIsObserving(frozen: seq<Frozen>, ms: seq<Member>, t: Target, allowAbsent: bool,
                                                  canon: string -> string, absent: bool)
    requires Authorizes(frozen, ms, t, allowAbsent, canon, absent) && t.member != ""
    ensures Observable(ms, t, canon) && (absent <==> !Seen(ms, t, canon))
  {
    forall m | m in ms
      ensures Plain(m, t, canon)
      ensures Mentions(m, t, canon) <==> t.member in Aliases(m) || canon(m.identifier) == t.identifier
    {
      assert Admissible(m, frozen, t, canon);
    }
  }

  /** The observing walk: it accepts exactly the rosters that `Observable` describes. */
  method ObserveSnapshot(snapshot: Snapshot, t: Target, now: int, canon: string -> string) returns (r: Verdict)
    ensures r.Incomplete? <==> !snapshot.Fresh(now)
    ensures r.Checked? ==> Observable(snapshot.members, t, canon) && (r.absent <==> !Seen(snapshot.members, t, canon))
    ensures r.Conflict? ==> !Observable(snapshot.members, t, canon)
    ensures !r.MemberChanged? && !r.RosterChanged?
  {
    if !snapshot.operational || !snapshot.complete || snapshot.count != Some(|snapshot.members|) || snapshot.declared != |snapshot.members|
       || snapshot.observed == 0 || snapshot.observed > now + 1 || snapshot.observed < now - 30
    {
      return Incomplete;
    }
    var ms := snapshot.members;
    var aliases, identities: set<string> := {}, {};
    var present := false;
    for n := 0 to |ms|
      invariant aliases == AliasesOf(ms[..n]) && identities == NamesOf(ms[..n], canon)
      invariant Observable(ms[..n], t, canon)
      invariant present <==> Seen(ms[..n], t, canon)
    {
      var m := ms[n];
      ObserveSnoc(ms, n, t, canon);
      var identifier := canon(m.identifier);
      assert Aliases(m) !! aliases <==> m.id !in aliases && (m.accountUser != "" ==> m.accountUser !in aliases);
      assert t.member in Aliases(m) <==> m.id == t.member || (m.accountUser != "" && m.accountUser == t.member);
      if m.id == "" || identifier == "" || identifier in identities { return Conflict; }
      identities := identities + {identifier};
      // An alias met before belongs to another member, for identifiers are distinct.
      if m.id in aliases || (m.accountUser != "" && m.accountUser in aliases) { return Conflict; }
      aliases := aliases + Aliases(m);
      if m.id == t.member || (m.accountUser != "" && m.accountUser == t.member) {
        if identifier != t.identifier { return Conflict; }
        present := true;
      }
      if identifier == t.identifier { present := true; }
    }
    assert ms[..|ms|] == ms;
    return Checked(!present);
  }

  lemma MembersSnoc(ms: seq<Member>, n: nat, t: Target, canon: string -> string)
    requires n < |ms|
    ensures (forall m :: m in ms[..n + 1] ==> Plain(m, t, canon)) <==> (forall m :: m in ms[..n] ==> Plain(m, t, canon)) && Plain(ms[n], t, canon)
    ensures Seen(ms[..n + 1], t, canon) <==> Seen(ms[..n], t, canon) || t.member in Aliases(ms[n]) || canon(ms[n].identifier) == t.identifier
  {
    assert ms[..n + 1] == ms[..n] + [ms[n]];
    assert ms[n] in ms[..n + 1];
    assert forall m :: m in ms[..n + 1] <==> m in ms[..n] || m == ms[n];
  }

  lemma ObservablePrefix(ms: seq<Member>, n: nat, t: Target, canon: string -> string)
    requires n <= |ms| && Observable(ms, t, canon)
    ensures Observable(ms[..n], t, canon)
  {
    assert forall m :: m in ms[..n] ==> m in ms;
    assert forall i :: 0 <= i < n ==> ms[..n][i] == ms[i];
  }

  lemma ObserveSnoc(ms: seq<Member>, n: nat, t: Target, canon: string -> string)
    requires n < |ms| && Observable(ms[..n], t, canon)
    ensures AliasesOf(ms[..n + 1]) == AliasesOf(ms[..n]) + Aliases(ms[n])
    ensures NamesOf(ms[..n + 1], canon) == NamesOf(ms[..n], canon) + {canon(ms[n].identifier)}
    ensures Observable(ms[..n + 1], t, canon) <==>
              && Plain(ms[n], t, canon) && canon(ms[n].identifier) !in NamesOf(ms[..n], canon) && Aliases(ms[n]) !! AliasesOf(ms[..n])
    ensures Observable(ms, t, canon) ==> Observable(ms[..n + 1], t, canon)
    ensures Seen(ms[..n + 1], t, canon) <==> Seen(ms[..n], t, canon) || t.member in Aliases(ms[n]) || canon(ms[n].identifier) == t.identifier
  {
    AdvanceSets(ms, n, t, canon);
    assert ms[..n + 1] == ms[..n] + [ms[n]];
    DistinctSnoc(ms[..n], ms[n], canon);
    MembersSnoc(ms, n, t, canon);
    if Observable(ms, t, canon) { ObservablePrefix(ms, n + 1, t, canon); }
  }
}
