/**
 Delivery destinations (internal/runtime/delivery_destination_http.go): updates, two-phase
 connection tests and the one selected destination. Each handler transaction holds the
 destination's row lock, so it is one step; the probe between the two transactions of a
 test is not.
 */
module Destinations {
  import opened Common

  datatype Connection = Connected | ConnectionFailed | ConnectionDenied | InvalidConnection
  datatype Target = TargetConnected | TargetMismatch | TargetDenied | Untested | InvalidTarget
  datatype Settings = Settings(endpoint: nat, group: nat, secret: nat)
  datatype Result = Result(connection: Connection, target: Target, revision: nat)
  datatype Row = Row(settings: Settings, enabled: bool, revision: nat, attempt: nat, result: Option<Result>)
  datatype Table = Table(rows: map<nat, Row>, selected: Option<nat>)

  /** What a probe reserved when it started. */
  datatype Reservation = Reservation(id: nat, settings: Settings, revision: nat, attempt: nat)

  function Deselect(t: Table, id: nat): Table { t.(selected := if t.selected == Some(id) then None else t.selected) }

  function UpdateTx(t: Table, id: nat, endpoint: nat, group: nat, secret: Option<nat>, enabled: bool): Table {
    if id !in t.rows then t
    else
      var d := t.rows[id];
      var kept := if secret.Some? then secret.value else d.settings.secret;
      Deselect(t, id).(rows := t.rows[id := Row(Settings(endpoint, group, kept), enabled, d.revision + 1, d.attempt, None)])
  }

  predicate MayTest(t: Table, id: nat) { id in t.rows && t.rows[id].enabled }

  function StartTx(t: Table, id: nat): Table {
    if !MayTest(t, id) then t
    else Deselect(t, id).(rows := t.rows[id := t.rows[id].(attempt := t.rows[id].attempt + 1, result := None)])
  }

  /** A probe's answer as it is stored: nonsense counts as a failed connection. */
  function Normal(c: Connection, t: Target): (Connection, Target) {
    if c.InvalidConnection? || t.InvalidTarget? || (!c.Connected? && t.TargetConnected?) then (ConnectionFailed, Untested) else (c, t)
  }

  predicate Fresh(t: Table, k: Reservation) {
    k.id in t.rows && t.rows[k.id].revision == k.revision && t.rows[k.id].attempt == k.attempt && t.rows[k.id].enabled
  }

  function StoreTx(t: Table, k: Reservation, connection: Connection, target: Target): Table {
    if !Fresh(t, k) then t
    else
      var (c, g) := Normal(connection, target);
      var stored := t.(rows := t.rows[k.id := t.rows[k.id].(result := Some(Result(c, g, t.rows[k.id].revision)))]);
      if c.Connected? && g.TargetConnected? then stored else Deselect(stored, k.id)
  }

  predicate Selectable(d: Row) {
    d.enabled && d.result.Some? && d.result.value.connection.Connected? && d.result.value.target.TargetConnected?
    && d.result.value.revision == d.revision
  }

  function SelectTx(t: Table, id: nat): Table {
    if id in t.rows && Selectable(t.rows[id]) then t.(selected := Some(id)) else t
  }

  class DestinationTables {
    var rows: map<nat, Row>
    var selected: Option<nat>

    ghost function View(): Table
      reads this
    {
      Table(rows, selected)
    }

    constructor ()
      ensures View() == Table(map[], None)
    {
      rows, selected := map[], None;
    }

    method DropSelection(id: nat)
      modifies this`selected
      ensures View() == Deselect(old(View()), id)
    {
      if selected == Some(id) { selected := None; }
    }

    method Update(id: nat, endpoint: nat, group: nat, secret: Option<nat>, enabled: bool) returns (found: bool)
      modifies this
      ensures View() == UpdateTx(old(View()), id, endpoint, group, secret, enabled)
      ensures found <==> id in old(rows)
      ensures found ==>
                && rows[id].settings.endpoint == endpoint && rows[id].settings.group == group
                && rows[id].settings.secret == (if secret.Some? then secret.value else old(rows)[id].settings.secret)
                && (rows[id].enabled <==> enabled) && rows[id].revision == old(rows)[id].revision + 1 && rows[id].result.None?
                && selected != Some(id)
    {
      if id !in rows { return false; }
      var d := rows[id];
      var kept := d.settings.secret;
      if secret.Some? { kept := secret.value; }
      rows := rows[id := Row(Settings(endpoint, group, kept), enabled, d.revision + 1, d.attempt, None)];
      DropSelection(id);
      return true;
    }

    method StartTest(id: nat) returns (k: Option<Reservation>)
      modifies this
      ensures View() == StartTx(old(View()), id)
      ensures k.Some? <==> MayTest(old(View()), id)
      ensures k.Some? ==>
                && Fresh(View(), k.value) && k.value.id == id && k.value.settings == rows[id].settings
                && rows[id] == old(rows)[id].(attempt := old(rows)[id].attempt + 1, result := None) && selected != Some(id)
    {
      if id !in rows || !rows[id].enabled { return None; }
      var d := rows[id];
      rows := rows[id := d.(attempt := d.attempt + 1, result := None)];
      DropSelection(id);
      return Some(Reservation(id, d.settings, d.revision, d.attempt + 1));
    }

    method StoreResult(k: Reservation, connection: Connection, target: Target) returns (stored: bool)
      modifies this
      ensures View() == StoreTx(old(View()), k, connection, target)
      ensures stored <==>
                && k.id in old(rows) && old(rows)[k.id].enabled
                && old(rows)[k.id].revision == k.revision && old(rows)[k.id].attempt == k.attempt
      ensures stored ==> rows[k.id].result.Some? && rows[k.id].result.value.revision == k.revision
      ensures stored && (connection.InvalidConnection? || target.InvalidTarget? || (connection != Connected && target == TargetConnected)) ==>
                rows[k.id].result == Some(Result(ConnectionFailed, Untested, k.revision))
      ensures stored && !connection.InvalidConnection? && !target.InvalidTarget? && (connection == Connected || target != TargetConnected) ==>
                rows[k.id].result == Some(Result(connection, target, k.revision))
      ensures stored && (connection, target) != (Connected, TargetConnected) ==> selected != Some(k.id)
    {
      var c, g := connection, target;
      if c.InvalidConnection? || g.InvalidTarget? || (c != Connected && g == TargetConnected) { c, g := ConnectionFailed, Untested; }
      if k.id !in rows || rows[k.id].revision != k.revision || rows[k.id].attempt != k.attempt || !rows[k.id].enabled { return false; }
      var d := rows[k.id];
      rows := rows[k.id := d.(result := Some(Result(c, g, d.revision)))];
      if c != Connected || g != TargetConnected { DropSelection(k.id); }
      return true;
    }

    method Select(id: nat) returns (ok: bool)
      modifies this`selected
      ensures View() == SelectTx(old(View()), id)
      ensures ok <==> id in rows && rows[id].enabled && rows[id].result == Some(Result(Connected, TargetConnected, rows[id].revision))
      ensures selected == if ok then Some(id) else old(selected)
    {
      if id !in rows { return false; }
      var d := rows[id];
      if !d.enabled || d.result.None? || d.result.value.connection != Connected || d.result.value.target != TargetConnected
         || d.result.value.revision != d.revision
      {
        return false;
      }
      selected := Some(id);
      return true;
    }
  }

  // ----- every interleaving

  /** A test in flight or answered; `answer` is what its probe of `reservation.settings` reported. */
  datatype Test = Test(reservation: Reservation, answer: Option<(Connection, Target)>)

  datatype State = State(table: Table, tests: map<nat, Test>)

  datatype Event =
    | Create(id: nat, settings: Settings) | Update(id: nat, endpoint: nat, group: nat, secret: Option<nat>, enabled: bool)
    | Start(test: nat, id: nat) | Answer(test: nat, connection: Connection, target: Target) | Store(test: nat) | Select(id: nat)

  function Next(s: State, e: Event): State {
    match e
    case Create(id, settings) =>
      if id in s.table.rows then s else s.(table := s.table.(rows := s.table.rows[id := Row(settings, true, 1, 0, None)]))
    case Update(id, endpoint, group, secret, enabled) => s.(table := UpdateTx(s.table, id, endpoint, group, secret, enabled))
    case Start(test, id) =>
      if test in s.tests || !MayTest(s.table, id) then s
      else
        var d := s.table.rows[id];
        State(StartTx(s.table, id), s.tests[test := Test(Reservation(id, d.settings, d.revision, d.attempt + 1), None)])
    case Answer(test, connection, target) =>
      if test in s.tests && s.tests[test].answer.None?
      then s.(tests := s.tests[test := s.tests[test].(answer := Some((connection, target)))]) else s
    case Store(test) =>
      if test in s.tests && s.tests[test].answer.Some?
      then s.(table := StoreTx(s.table, s.tests[test].reservation, s.tests[test].answer.value.0, s.tests[test].answer.value.1)) else s
    case Select(id) => s.(table := SelectTx(s.table, id))
  }

  function Run(s: State, events: seq<Event>): State {
    if events == [] then s else Next(Run(s, events[..|events| - 1]), events[|events| - 1])
  }

  const EMPTY := State(Table(map[], None), map[])

  /** A test is the latest of its destination, ran against the stored settings, and reported the visible result. */
  ghost predicate Reported(s: State, test: nat, id: nat) {
    test in s.tests && id in s.table.rows && s.table.rows[id].result.Some? &&
    var k, d := s.tests[test], s.table.rows[id];
    && k.reservation == Reservation(id, d.settings, d.revision, d.attempt) && k.answer.Some?
    && d.result.value.revision == d.revision
    && (d.result.value.connection, d.result.value.target) == Normal(k.answer.value.0, k.answer.value.1)
  }

  ghost predicate RowInv(s: State, id: nat) {
    id in s.table.rows &&
    (s.table.rows[id].result.Some? ==> s.table.rows[id].enabled && exists test :: Reported(s, test, id))
  }

  /** A reservation never runs ahead of its row, and the one at the row's revision saw its settings. */
  ghost predicate TestInv(s: State, test: nat) {
    test in s.tests &&
    var k := s.tests[test].reservation;
    && k.id in s.table.rows && k.attempt <= s.table.rows[k.id].attempt && k.revision <= s.table.rows[k.id].revision
    && (k.revision == s.table.rows[k.id].revision ==> k.settings == s.table.rows[k.id].settings)
  }

  ghost predicate Apart(s: State, a: nat, b: nat) {
    a in s.tests && b in s.tests && a != b && s.tests[a].reservation.id == s.tests[b].reservation.id ==>
      s.tests[a].reservation.attempt != s.tests[b].reservation.attempt
  }

  ghost predicate Inv(s: State) {
    && (forall id {:trigger RowInv(s, id)} :: id in s.table.rows ==> RowInv(s, id))
    && (forall t {:trigger TestInv(s, t)} :: t in s.tests ==> TestInv(s, t))
    && (forall a, b {:trigger Apart(s, a, b)} :: Apart(s, a, b))
    && (s.table.selected.Some? ==> s.table.selected.value in s.table.rows && Selectable(s.table.rows[s.table.selected.value]))
  }

  lemma KeepsRow(s: State, e: Event, id: nat)
    requires Inv(s) && id in Next(s, e).table.rows
    ensures RowInv(Next(s, e), id)
  {
    var s' := Next(s, e);
    if s'.table.rows[id].result.Some? {
      if e.Store? && e.test in s.tests && s.tests[e.test].reservation.id == id && s'.table != s.table {
        assert TestInv(s, e.test);
        assert Reported(s', e.test, id);
      } else if id in s.table.rows {
        assert RowInv(s, id);
        var test :| Reported(s, test, id);
        assert Reported(s', test, id);
      }
    }
  }

  lemma KeepsTest(s: State, e: Event, test: nat)
    requires Inv(s) && test in Next(s, e).tests
    ensures TestInv(Next(s, e), test)
  {
    if test in s.tests { assert TestInv(s, test); }
  }

  lemma KeepsApart(s: State, e: Event, a: nat, b: nat)
    requires Inv(s)
    ensures Apart(Next(s, e), a, b)
  {
    assert Apart(s, a, b) && (a in s.tests ==> TestInv(s, a)) && (b in s.tests ==> TestInv(s, b));
  }

  lemma StepPreserves(s: State, e: Event)
    requires Inv(s)
    ensures Inv(Next(s, e))
  {
    var s' := Next(s, e);
    forall id | id in s'.table.rows ensures RowInv(s', id) { KeepsRow(s, e, id); }
    forall t | t in s'.tests ensures TestInv(s', t) { KeepsTest(s, e, t); }
    forall a, b ensures Apart(s', a, b) { KeepsApart(s, e, a, b); }
  }

  lemma {:induction false} Reachable(events: seq<Event>)
    ensures Inv(Run(EMPTY, events))
  {
    if events != [] {
      Reachable(events[..|events| - 1]);
      StepPreserves(Run(EMPTY, events[..|events| - 1]), events[|events| - 1]);
    }
  }

  /**
   Whatever is selected is enabled and passed both checks at its current revision: the latest test of
   it ran against the settings stored now, and its probe reached the endpoint and found the group.
   */
  lemma {:induction false} SelectedPassedItsTest(events: seq<Event>)
    ensures var s := Run(EMPTY, events); var t := s.table;
            t.selected.Some? ==>
              && t.selected.value in t.rows && Selectable(t.rows[t.selected.value])
              && var d := t.rows[t.selected.value];
              && d.enabled
              && exists test :: test in s.tests && s.tests[test].answer == Some((Connected, TargetConnected))
                                && s.tests[test].reservation == Reservation(t.selected.value, d.settings, d.revision, d.attempt)
  {
    Reachable(events);
    var s := Run(EMPTY, events);
    if s.table.selected.Some? {
      var id := s.table.selected.value;
      assert RowInv(s, id);
      var test :| Reported(s, test, id);
      assert s.tests[test].answer == Some((Connected, TargetConnected));
    }
  }

  /** A visible result is what the latest test of the destination reported about the settings stored now. */
  lemma {:induction false} VisibleResultIsLatest(events: seq<Event>, id: nat)
    ensures var s := Run(EMPTY, events);
            id in s.table.rows && s.table.rows[id].result.Some? ==>
              exists test :: Reported(s, test, id)
                             && forall other :: other in s.tests && s.tests[other].reservation.id == id && other != test ==>
                                                  s.tests[other].reservation.attempt < s.tests[test].reservation.attempt
  {
    Reachable(events);
    var s := Run(EMPTY, events);
    if id in s.table.rows && s.table.rows[id].result.Some? {
      assert RowInv(s, id);
      var test :| Reported(s, test, id);
      forall other | other in s.tests && s.tests[other].reservation.id == id && other != test
        ensures s.tests[other].reservation.attempt < s.tests[test].reservation.attempt
      {
        assert Apart(s, other, test) && TestInv(s, other);
      }
    }
  }

  predicate Superseded(s: State, test: nat) {
    test in s.tests &&
    var k := s.tests[test].reservation;
    k.id in s.table.rows && (k.attempt < s.table.rows[k.id].attempt || k.revision < s.table.rows[k.id].revision)
  }

  /** A newer test and an update each overtake every earlier test of the destination, in every reachable state. */
  lemma NewerOvertakes(events: seq<Event>, test: nat, e: Event)
    requires var s := Run(EMPTY, events);
             && test in s.tests
             && ((e.Start? && e.id == s.tests[test].reservation.id && e.test !in s.tests && MayTest(s.table, e.id))
                 || (e.Update? && e.id == s.tests[test].reservation.id))
    ensures Superseded(Next(Run(EMPTY, events), e), test)
  {
    Reachable(events);
    assert TestInv(Run(EMPTY, events), test);
  }

  /** Once a newer test started or an update committed, the older result is never stored, in any continuation. */
  lemma {:induction false} SupersededIsNeverStored(s: State, more: seq<Event>, test: nat)
    requires Superseded(s, test)
    ensures Superseded(Run(s, more), test) && Next(Run(s, more), Store(test)).table == Run(s, more).table
  {
    if more != [] { SupersededIsNeverStored(s, more[..|more| - 1], test); }
  }
}
