/**
 Reading a roster as evidence of one candidate's join (classifyRotationMembership in
 internal/runtime/rotation_join_membership.go). `canon` stands for trimming and lower-casing.
 */
module JoinMembership {
  import opened Common

  datatype Seat = Prolite | OtherSeat(code: nat)
  datatype Status = Active | Accepted | OtherStatus
  datatype Member = Member(joined: bool, identifier: string, memberId: string, userId: string, status: Status, seat: Seat)
  datatype Verdict = Unknown | Absent | Invalid | Confirmed(memberId: string)

  /** No two entries share an identity, and every entry names one. */
  predicate Unambiguous(canon: string -> string, members: seq<Member>) {
    && (forall m :: m in members ==> canon(m.identifier) != "")
    && (forall i, j :: 0 <= i < j < |members| ==> !Clash(canon, members[i], members[j]))
  }

  predicate Clash(canon: string -> string, a: Member, b: Member) {
    || canon(a.identifier) == canon(b.identifier)
    || (a.memberId != "" && a.memberId == b.memberId) || (a.userId != "" && a.userId == b.userId)
  }

  predicate Seated(m: Member, seat: Seat) {
    m.joined && (m.status.Active? || m.status.Accepted?) && m.seat == seat && m.memberId != "" && seat.Prolite?
  }

  /** What each verdict says about the roster. */
  ghost predicate IsVerdict(canon: string -> string, readable: bool, members: seq<Member>, identifier: string,
                            seat: Seat, v: Verdict) {
    && (v.Unknown? <==> !readable || !Unambiguous(canon, members))
    && (v.Absent? <==> readable && Unambiguous(canon, members) && forall m :: m in members ==> canon(m.identifier) != canon(identifier))
    && (v.Confirmed? <==> readable && Unambiguous(canon, members)
                          && exists m :: m in members && canon(m.identifier) == canon(identifier) && Seated(m, seat))
    && (v.Confirmed? ==> exists m :: m in members && canon(m.identifier) == canon(identifier) && Seated(m, seat) && m.memberId == v.memberId)
  }

  function Names(canon: string -> string, members: seq<Member>): set<string> { set m | m in members :: canon(m.identifier) }
  function MemberIds(members: seq<Member>): set<string> { set m | m in members && m.memberId != "" :: m.memberId }
  function UserIds(members: seq<Member>): set<string> { set m | m in members && m.userId != "" :: m.userId }

  /** The entry keeps the roster unambiguous. */
  predicate Fresh(canon: string -> string, prior: seq<Member>, m: Member) {
    canon(m.identifier) != "" && canon(m.identifier) !in Names(canon, prior)
    && m.memberId !in MemberIds(prior) && m.userId !in UserIds(prior)
  }

  lemma FreshMeans(canon: string -> string, prior: seq<Member>, m: Member)
    ensures Fresh(canon, prior, m) <==> canon(m.identifier) != "" && forall x :: x in prior ==> !Clash(canon, x, m)
  {
  }

  lemma UnambiguousSnoc(canon: string -> string, prior: seq<Member>, m: Member)
    requires Unambiguous(canon, prior)
    ensures Unambiguous(canon, prior + [m]) <==> Fresh(canon, prior, m)
  {
    var all := prior + [m];
    FreshMeans(canon, prior, m);
    assert m in all && all[|prior|] == m && forall i :: 0 <= i < |prior| ==> all[i] == prior[i];
    if Unambiguous(canon, all) {
      forall x | x in prior ensures !Clash(canon, x, m) {
        var i :| 0 <= i < |prior| && prior[i] == x;
        assert !Clash(canon, all[i], all[|prior|]);
      }
    }
  }

  lemma UnambiguousPrefix(canon: string -> string, members: seq<Member>, n: nat)
    requires Unambiguous(canon, members) && n <= |members|
    ensures Unambiguous(canon, members[..n])
  {
    assert forall m :: m in members[..n] ==> m in members;
  }

  lemma SetsSnoc(canon: string -> string, prior: seq<Member>, m: Member)
    ensures Names(canon, prior + [m]) == Names(canon, prior) + {canon(m.identifier)}
    ensures MemberIds(prior + [m]) == MemberIds(prior) + (if m.memberId != "" then {m.memberId} else {})
    ensures UserIds(prior + [m]) == UserIds(prior) + (if m.userId != "" then {m.userId} else {})
  {
    assert forall x :: x in prior + [m] <==> x in prior || x == m;
  }

  /** The only entry that can answer for the identifier, if there is one. */
  ghost predicate IsMatch(canon: string -> string, members: seq<Member>, identifier: string, matches: seq<Member>) {
    if matches == [] then forall m :: m in members ==> canon(m.identifier) != canon(identifier)
    else |matches| == 1 && matches[0] in members && canon(matches[0].identifier) == canon(identifier)
  }

  /** Walks the whole roster, keeping what it has seen. */
  method Match(canon: string -> string, members: seq<Member>, identifier: string) returns (sound: bool, matches: seq<Member>)
    ensures sound <==> Unambiguous(canon, members)
    ensures sound ==> IsMatch(canon, members, identifier, matches)
  {
    var seen: set<string>, memberIds: set<string>, userIds: set<string> := {}, {}, {};
    matches := [];
    for i := 0 to |members|
      invariant Unambiguous(canon, members[..i]) && IsMatch(canon, members[..i], identifier, matches)
      invariant seen == Names(canon, members[..i]) && memberIds == MemberIds(members[..i]) && userIds == UserIds(members[..i])
    {
      var m := members[i];
      assert members[..i + 1] == members[..i] + [m];
      UnambiguousSnoc(canon, members[..i], m);
      var key := canon(m.identifier);
      if key == "" || key in seen || m.memberId in memberIds || m.userId in userIds {
        if Unambiguous(canon, members) { UnambiguousPrefix(canon, members, i + 1); }
        return false, [];
      }
      SetsSnoc(canon, members[..i], m);
      seen := seen + {key};
      if m.memberId != "" { memberIds := memberIds + {m.memberId}; }
      if m.userId != "" { userIds := userIds + {m.userId}; }
      if key == canon(identifier) {
        assert matches == [];
        matches := matches + [m];
      }
    }
    assert members[..|members|] == members;
    sound := true;
  }

  method Classify(canon: string -> string, readable: bool, members: seq<Member>, identifier: string,
                  seat: Seat) returns (v: Verdict)
    ensures IsVerdict(canon, readable, members, identifier, seat, v)
  {
    if !readable { return Unknown; }
    var sound, matches := Match(canon, members, identifier);
    if !sound { return Unknown; }
    if |matches| == 0 { return Absent; }
    var m := matches[0];
    forall x | x in members && canon(x.identifier) == canon(identifier) ensures x == m { SamePair(canon, members, x, m); }
    if !m.joined || (m.status != Active && m.status != Accepted) || m.seat != seat || m.memberId == "" { return Invalid; }
    if seat != Prolite { return Invalid; }
    return Confirmed(m.memberId);
  }

  lemma SamePair(canon: string -> string, members: seq<Member>, a: Member, b: Member)
    requires Unambiguous(canon, members) && a in members && b in members && canon(a.identifier) == canon(b.identifier)
    ensures a == b
  {
    var i :| 0 <= i < |members| && members[i] == a;
    var j :| 0 <= j < |members| && members[j] == b;
    assert i < j ==> !Clash(canon, members[i], members[j]);
    assert j < i ==> !Clash(canon, members[j], members[i]);
  }

  lemma SwapKeeps(canon: string -> string, members: seq<Member>, other: seq<Member>)
    requires Unambiguous(canon, members) && multiset(members) == multiset(other)
    ensures Unambiguous(canon, other)
  {
    forall m ensures m in members <==> m in other { assert m in multiset(members) <==> m in multiset(other); }
    forall i, j | 0 <= i < j < |other| ensures !Clash(canon, other[i], other[j]) {
      var a, b := other[i], other[j];
      assert a in members && b in members;
      var p :| 0 <= p < |members| && members[p] == a;
      var q :| 0 <= q < |members| && members[q] == b;
      if a == b { RepeatedTwice(other, i, j); Once(canon, members, a); }
      assert p < q ==> !Clash(canon, members[p], members[q]);
      assert q < p ==> !Clash(canon, members[q], members[p]);
    }
  }

  lemma {:induction false} Once(canon: string -> string, s: seq<Member>, m: Member)
    requires Unambiguous(canon, s)
    ensures multiset(s)[m] <= 1
  {
    if s != [] {
      var rest, last := s[..|s| - 1], s[|s| - 1];
      assert forall x :: x in rest ==> x in s;
      Once(canon, rest, m);
      assert s == rest + [last];
      if last == m {
        forall i | 0 <= i < |rest| ensures rest[i] != m { assert !Clash(canon, s[i], s[|s| - 1]); }
      }
    }
  }

  /** The verdict is the same for every order the roster may be listed in. */
  lemma VerdictIgnoresOrder(canon: string -> string, readable: bool, members: seq<Member>, other: seq<Member>,
                            identifier: string, seat: Seat, v: Verdict, v': Verdict)
    requires multiset(members) == multiset(other)
    requires IsVerdict(canon, readable, members, identifier, seat, v) && IsVerdict(canon, readable, other, identifier, seat, v')
    ensures v == v'
  {
    forall m ensures m in members <==> m in other { assert m in multiset(members) <==> m in multiset(other); }
    if Unambiguous(canon, members) { SwapKeeps(canon, members, other); }
    if Unambiguous(canon, other) { SwapKeeps(canon, other, members); }
    if v.Confirmed? && v'.Confirmed? {
      var a :| a in members && canon(a.identifier) == canon(identifier) && Seated(a, seat) && a.memberId == v.memberId;
      var b :| b in other && canon(b.identifier) == canon(identifier) && Seated(b, seat) && b.memberId == v'.memberId;
      SamePair(canon, members, a, b);
    }
  }
}
