/**
 The duplicate-name validators over a JSON token stream: `credentialJSON`
 (internal/platform/rotation_credentials.go) and, with a bound on the depth,
 `unambiguousMembershipJSON` (internal/platform/personal_membership.go). Both enforce at every
 depth the uniqueness that section 4 of RFC 8259 only recommends, and up to case folding.
 */
module NameValidator {
  import opened Common
  import opened NameFolding

  /** What encoding/json's decoder delivers; `Broken` stands for a syntax error. */
  datatype Token = OpenObject | CloseObject | OpenArray | CloseArray | Text(text: Name) | Literal | Broken

  datatype Value = String(text: Name) | Scalar | Object(members: Members) | Array(items: Items)
  datatype Members = NoMembers | Member(name: Name, value: Value, rest: Members)
  datatype Items = NoItems | Item(value: Value, rest: Items)

  // ----- what an unambiguous document is

  function Tokens(v: Value): (t: seq<Token>)
    ensures t != []
  {
    match v
    case String(text) => [Text(text)]
    case Scalar => [Literal]
    case Object(members) => [OpenObject] + MemberTokens(members) + [CloseObject]
    case Array(items) => [OpenArray] + ItemTokens(items) + [CloseArray]
  }

  function MemberTokens(m: Members): seq<Token> {
    if m.NoMembers? then [] else [Text(m.name)] + Tokens(m.value) + MemberTokens(m.rest)
  }

  function ItemTokens(l: Items): seq<Token> { if l.NoItems? then [] else Tokens(l.value) + ItemTokens(l.rest) }

  function Names(m: Members): seq<Name> { if m.NoMembers? then [] else [m.name] + Names(m.rest) }

  /** No object at any depth holds two names that match up to folding. */
  ghost predicate Unambiguous(fold: Rune -> Rune, v: Value) {
    match v
    case Object(members) => NoAlike(fold, Names(members)) && MembersUnambiguous(fold, members)
    case Array(items) => ItemsUnambiguous(fold, items)
    case _ => true
  }

  ghost predicate NoAlike(fold: Rune -> Rune, names: seq<Name>) {
    forall i, j :: 0 <= i < j < |names| ==> !Alike(fold, names[i], names[j])
  }

  ghost predicate MembersUnambiguous(fold: Rune -> Rune, m: Members) {
    m.Member? ==> Unambiguous(fold, m.value) && MembersUnambiguous(fold, m.rest)
  }

  ghost predicate ItemsUnambiguous(fold: Rune -> Rune, l: Items) {
    l.Item? ==> Unambiguous(fold, l.value) && ItemsUnambiguous(fold, l.rest)
  }

  function Max(a: nat, b: nat): nat { if a < b then b else a }

  /** How deep a value nests below its own level. */
  function Height(v: Value): nat {
    match v
    case Object(members) => MembersHeight(members)
    case Array(items) => ItemsHeight(items)
    case _ => 0
  }

  function MembersHeight(m: Members): nat { if m.NoMembers? then 0 else Max(Height(m.value) + 1, MembersHeight(m.rest)) }
  function ItemsHeight(l: Items): nat { if l.NoItems? then 0 else Max(Height(l.value) + 1, ItemsHeight(l.rest)) }

  /** A value at this depth stays within the bound, where there is one. */
  predicate Within(bound: Option<nat>, depth: nat, height: nat) { bound.Some? ==> depth + height <= bound.value }

  // ----- the walk, as a function of the unread tokens

  predicate TooDeep(bound: Option<nat>, depth: nat) { bound.Some? && depth > bound.value }

  /** The unread tokens behind one value, or None where the validator refuses. */
  ghost function Walk(fold: Rune -> Rune, bound: Option<nat>, depth: nat, t: seq<Token>): (rest: Option<seq<Token>>)
    requires Permutation(fold)
    ensures rest.Some? ==> |rest.value| < |t|
    decreases |t|, 1
  {
    if TooDeep(bound, depth) || t == [] then None
    else
      match t[0]
      case Text(_) => Some(t[1..])
      case Literal => Some(t[1..])
      case OpenObject => WalkMembers(fold, bound, depth, {}, t[1..])
      case OpenArray => WalkItems(fold, bound, depth, t[1..])
      case _ => None
  }

  ghost function WalkMembers(fold: Rune -> Rune, bound: Option<nat>, depth: nat, seen: set<Name>,
                             t: seq<Token>): (rest: Option<seq<Token>>)
    requires Permutation(fold)
    ensures rest.Some? ==> |rest.value| < |t|
    decreases |t|, 2
  {
    if t == [] then None
    else if t[0].CloseObject? then Some(t[1..])
    else if !t[0].Text? || KeyOf(fold, t[0].text) in seen then None
    else
      var next := Walk(fold, bound, depth + 1, t[1..]);
      if next.None? then None else WalkMembers(fold, bound, depth, seen + {KeyOf(fold, t[0].text)}, next.value)
  }

  ghost function WalkItems(fold: Rune -> Rune, bound: Option<nat>, depth: nat, t: seq<Token>): (rest: Option<seq<Token>>)
    requires Permutation(fold)
    ensures rest.Some? ==> |rest.value| < |t|
    decreases |t|, 2
  {
    if t == [] then None
    else if t[0].CloseArray? then Some(t[1..])
    else
      var next := Walk(fold, bound, depth + 1, t);
      if next.None? then None else WalkItems(fold, bound, depth, next.value)
  }

  // ----- every document

  /** The names still to come are new: unlike each other and unlike those already seen. */
  ghost predicate AllNew(fold: Rune -> Rune, seen: set<Name>, m: Members)
    requires Permutation(fold)
    decreases m
  {
    m.Member? ==> KeyOf(fold, m.name) !in seen && AllNew(fold, seen + {KeyOf(fold, m.name)}, m.rest)
  }

  lemma {:induction false} AllNewMeans(fold: Rune -> Rune, seen: set<Name>, m: Members)
    requires Permutation(fold)
    ensures AllNew(fold, seen, m) <==>
              NoAlike(fold, Names(m)) && forall n :: n in Names(m) ==> KeyOf(fold, n) !in seen
    decreases m
  {
    if m.Member? {
      var key, later := KeyOf(fold, m.name), Names(m.rest);
      AllNewMeans(fold, seen + {key}, m.rest);
      forall n | n in later ensures KeyOf(fold, n) == key <==> Alike(fold, m.name, n) {
        SameKeyIffAlike(fold, m.name, n, key, KeyOf(fold, n));
      }
      NoAlikeCons(fold, m.name, later);
    }
  }

  lemma NoAlikeCons(fold: Rune -> Rune, name: Name, later: seq<Name>)
    ensures NoAlike(fold, [name] + later) <==> NoAlike(fold, later) && forall n :: n in later ==> !Alike(fold, name, n)
  {
    var all := [name] + later;
    assert all[0] == name && forall i :: 0 < i < |all| ==> all[i] == later[i - 1];
    if NoAlike(fold, all) {
      forall i, j | 0 <= i < j < |later| ensures !Alike(fold, later[i], later[j]) { assert later[i] == all[i + 1] && later[j] == all[j + 1]; }
      forall n | n in later ensures !Alike(fold, name, n) {
        var i :| 0 <= i < |later| && later[i] == n;
        assert later[i] == all[i + 1];
      }
    }
  }

  /** The walk over one document's tokens consumes exactly them, or refuses exactly the ambiguous or too deep one. */
  lemma {:induction false} WalkOfTokens(fold: Rune -> Rune, bound: Option<nat>, depth: nat, v: Value, tail: seq<Token>)
    requires Permutation(fold)
    ensures Walk(fold, bound, depth, Tokens(v) + tail) ==
              if Unambiguous(fold, v) && Within(bound, depth, Height(v)) then Some(tail) else None
    decreases v, 1
  {
    var t := Tokens(v) + tail;
    if TooDeep(bound, depth) { return; }
    match v
    case String(text) => assert t[1..] == tail;
    case Scalar => assert t[1..] == tail;
    case Object(members) =>
      assert t[1..] == MemberTokens(members) + [CloseObject] + tail;
      WalkOfMembers(fold, bound, depth, {}, members, tail);
      AllNewMeans(fold, {}, members);
    case Array(items) =>
      assert t[1..] == ItemTokens(items) + [CloseArray] + tail;
      WalkOfItems(fold, bound, depth, items, tail);
  }

  lemma {:induction false} WalkOfMembers(fold: Rune -> Rune, bound: Option<nat>, depth: nat, seen: set<Name>,
                                         m: Members, tail: seq<Token>)
    requires Permutation(fold) && !TooDeep(bound, depth)
    ensures WalkMembers(fold, bound, depth, seen, MemberTokens(m) + [CloseObject] + tail) ==
              if AllNew(fold, seen, m) && MembersUnambiguous(fold, m) && Within(bound, depth, MembersHeight(m)) then Some(tail) else None
    decreases m, 0
  {
    var t := MemberTokens(m) + [CloseObject] + tail;
    if m.NoMembers? {
      assert t[1..] == tail;
    } else {
      var behind := MemberTokens(m.rest) + [CloseObject] + tail;
      assert t[1..] == Tokens(m.value) + behind;
      WalkOfTokens(fold, bound, depth + 1, m.value, behind);
      WalkOfMembers(fold, bound, depth, seen + {KeyOf(fold, m.name)}, m.rest, tail);
    }
  }

  lemma {:induction false} WalkOfItems(fold: Rune -> Rune, bound: Option<nat>, depth: nat, l: Items, tail: seq<Token>)
    requires Permutation(fold) && !TooDeep(bound, depth)
    ensures WalkItems(fold, bound, depth, ItemTokens(l) + [CloseArray] + tail) ==
              if ItemsUnambiguous(fold, l) && Within(bound, depth, ItemsHeight(l)) then Some(tail) else None
    decreases l, 0
  {
    var t := ItemTokens(l) + [CloseArray] + tail;
    if l.NoItems? {
      assert t[1..] == tail;
    } else {
      var behind := ItemTokens(l.rest) + [CloseArray] + tail;
      assert t == Tokens(l.value) + behind && !Tokens(l.value)[0].CloseArray?;
      WalkOfTokens(fold, bound, depth + 1, l.value, behind);
      WalkOfItems(fold, bound, depth, l.rest, tail);
    }
  }

  // ----- every token stream

  /** Whatever the walk consumes is the tokens of some document. */
  lemma {:induction false} WalkFindsValue(fold: Rune -> Rune, bound: Option<nat>, depth: nat, t: seq<Token>) returns (v: Value)
    requires Permutation(fold) && Walk(fold, bound, depth, t).Some?
    ensures t == Tokens(v) + Walk(fold, bound, depth, t).value
    decreases |t|, 1
  {
    match t[0]
    case Text(text) => v := String(text);
    case Literal => v := Scalar;
    case OpenObject =>
      var m := WalkFindsMembers(fold, bound, depth, {}, t[1..]);
      v := Object(m);
    case OpenArray =>
      var l := WalkFindsItems(fold, bound, depth, t[1..]);
      v := Array(l);
    case _ =>
  }

  lemma MemberJoins(t: seq<Token>, value: seq<Token>, others: seq<Token>, tail: seq<Token>)
    requires t != [] && t[1..] == value + (others + [CloseObject] + tail)
    ensures t == [t[0]] + value + others + [CloseObject] + tail
  {
  }

  lemma ItemJoins(t: seq<Token>, value: seq<Token>, others: seq<Token>, tail: seq<Token>)
    requires t == value + (others + [CloseArray] + tail)
    ensures t == value + others + [CloseArray] + tail
  {
  }

  lemma {:induction false} WalkFindsMembers(fold: Rune -> Rune, bound: Option<nat>, depth: nat, seen: set<Name>,
                                            t: seq<Token>) returns (m: Members)
    requires Permutation(fold) && WalkMembers(fold, bound, depth, seen, t).Some?
    ensures t == MemberTokens(m) + [CloseObject] + WalkMembers(fold, bound, depth, seen, t).value
    decreases |t|, 2
  {
    if t[0].CloseObject? {
      m := NoMembers;
    } else {
      var v := WalkFindsValue(fold, bound, depth + 1, t[1..]);
      var next := Walk(fold, bound, depth + 1, t[1..]).value;
      var rest := WalkFindsMembers(fold, bound, depth, seen + {KeyOf(fold, t[0].text)}, next);
      m := Member(t[0].text, v, rest);
      MemberJoins(t, Tokens(v), MemberTokens(rest), WalkMembers(fold, bound, depth, seen, t).value);
    }
  }

  lemma {:induction false} WalkFindsItems(fold: Rune -> Rune, bound: Option<nat>, depth: nat, t: seq<Token>) returns (l: Items)
    requires Permutation(fold) && WalkItems(fold, bound, depth, t).Some?
    ensures t == ItemTokens(l) + [CloseArray] + WalkItems(fold, bound, depth, t).value
    decreases |t|, 2
  {
    if t[0].CloseArray? {
      l := NoItems;
    } else {
      var v := WalkFindsValue(fold, bound, depth + 1, t);
      var rest := WalkFindsItems(fold, bound, depth, Walk(fold, bound, depth + 1, t).value);
      l := Item(v, rest);
      ItemJoins(t, Tokens(v), ItemTokens(rest), WalkItems(fold, bound, depth, t).value);
    }
  }

  /** A stream is accepted exactly when it is one document, within the depth, in which no object repeats a name up to folding. */
  ghost predicate Acceptable(fold: Rune -> Rune, bound: Option<nat>, t: seq<Token>) {
    exists v :: t == Tokens(v) && Unambiguous(fold, v) && Within(bound, 0, Height(v))
  }

  lemma AcceptedIffUnambiguous(fold: Rune -> Rune, bound: Option<nat>, t: seq<Token>)
    requires Permutation(fold)
    ensures Walk(fold, bound, 0, t) == Some([]) <==> Acceptable(fold, bound, t)
  {
    if Walk(fold, bound, 0, t) == Some([]) {
      var v := WalkFindsValue(fold, bound, 0, t);
      assert t == Tokens(v) + [];
      WalkOfTokens(fold, bound, 0, v, []);
    }
    if Acceptable(fold, bound, t) {
      var v :| t == Tokens(v) && Unambiguous(fold, v) && Within(bound, 0, Height(v));
      WalkOfTokens(fold, bound, 0, v, []);
      assert t == Tokens(v) + [];
    }
  }

  /** One document has one verdict: its own names and depth decide, whatever else has the same tokens. */
  lemma DocumentVerdict(fold: Rune -> Rune, bound: Option<nat>, v: Value)
    requires Permutation(fold)
    ensures Acceptable(fold, bound, Tokens(v)) <==> Unambiguous(fold, v) && Within(bound, 0, Height(v))
  {
    WalkOfTokens(fold, bound, 0, v, []);
    assert Tokens(v) + [] == Tokens(v);
    AcceptedIffUnambiguous(fold, bound, Tokens(v));
  }

  // ----- the validators

  /** json.Decoder: the unread tokens, and the open brackets (true for an object). */
  class Decoder {
    var unread: seq<Token>
    var nesting: seq<bool>

    constructor (tokens: seq<Token>)
      ensures unread == tokens && nesting == []
    {
      unread, nesting := tokens, [];
    }

    /** Another element precedes the closing bracket. */
    predicate More()
      reads this
    {
      unread != [] && !unread[0].CloseObject? && !unread[0].CloseArray?
    }

    /** The decoder itself refuses a bracket that does not match. */
    method Token() returns (t: Option<Token>)
      modifies this
      ensures t.Some? <==>
                && old(unread) != [] && !old(unread)[0].Broken?
                && (old(unread)[0].CloseObject? ==> old(nesting) != [] && old(nesting)[0])
                && (old(unread)[0].CloseArray? ==> old(nesting) != [] && !old(nesting)[0])
      ensures t.Some? ==>
                && t.value == old(unread)[0] && unread == old(unread)[1..]
                && nesting == match t.value
                              case OpenObject => [true] + old(nesting)
                              case OpenArray => [false] + old(nesting)
                              case CloseObject => old(nesting)[1..]
                              case CloseArray => old(nesting)[1..]
                              case _ => old(nesting)
    {
      if unread == [] || unread[0].Broken? { return None; }
      var token := unread[0];
      if token.CloseObject? || token.CloseArray? {
        if nesting == [] || nesting[0] != token.CloseObject? { return None; }
        nesting := nesting[1..];
      } else if token.OpenObject? || token.OpenArray? {
        nesting := [token.OpenObject?] + nesting;
      }
      unread := unread[1..];
      return Some(token);
    }

    /** The recursive walk of both validators; the membership one carries a depth and a bound. */
    method Value(fold: Rune -> Rune, bound: Option<nat>, depth: nat) returns (ok: bool)
      requires Permutation(fold)
      modifies this
      ensures ok <==> Walk(fold, bound, depth, old(unread)).Some?
      ensures ok ==> Some(unread) == Walk(fold, bound, depth, old(unread)) && nesting == old(nesting)
      decreases |unread|, 1
    {
      if bound.Some? && depth > bound.value { return false; }
      var token := Token();
      if token.None? { return false; }
      match token.value
      case OpenObject => ok := ObjectBody(fold, bound, depth);
      case OpenArray => ok := ArrayBody(fold, bound, depth);
      case Text(_) => ok := true;
      case Literal => ok := true;
      case _ => ok := false;
    }

    method ObjectBody(fold: Rune -> Rune, bound: Option<nat>, depth: nat) returns (ok: bool)
      requires Permutation(fold) && nesting != [] && nesting[0]
      modifies this
      ensures ok <==> WalkMembers(fold, bound, depth, {}, old(unread)).Some?
      ensures ok ==> Some(unread) == WalkMembers(fold, bound, depth, {}, old(unread)) && nesting == old(nesting)[1..]
      decreases |unread|, 2
    {
      var seen: set<Name> := {};
      while More()
        invariant |unread| <= |old(unread)| && nesting == old(nesting)
        invariant WalkMembers(fold, bound, depth, {}, old(unread)) == WalkMembers(fold, bound, depth, seen, unread)
        decreases |unread|
      {
        var name := Token();
        if name.None? || !name.value.Text? { return false; }
        var key := Key(fold, name.value.text);
        KeyIsUnique(fold, name.value.text, key);
        if key in seen { return false; }
        seen := seen + {key};
        var sound := Value(fold, bound, depth + 1);
        if !sound { return false; }
      }
      var end := Token();
      ok := end.Some?;
    }

    method ArrayBody(fold: Rune -> Rune, bound: Option<nat>, depth: nat) returns (ok: bool)
      requires Permutation(fold) && nesting != [] && !nesting[0]
      modifies this
      ensures ok <==> WalkItems(fold, bound, depth, old(unread)).Some?
      ensures ok ==> Some(unread) == WalkItems(fold, bound, depth, old(unread)) && nesting == old(nesting)[1..]
      decreases |unread|, 2
    {
      while More()
        invariant |unread| <= |old(unread)| && nesting == old(nesting)
        invariant WalkItems(fold, bound, depth, old(unread)) == WalkItems(fold, bound, depth, unread)
        decreases |unread|
      {
        var sound := Value(fold, bound, depth + 1);
        if !sound { return false; }
      }
      var end := Token();
      ok := end.Some?;
    }
  }

  lemma KeyIsUnique(fold: Rune -> Rune, name: Name, key: Name)
    requires Permutation(fold) && IsKey(fold, name, key)
    ensures key == KeyOf(fold, name)
  {
    forall i | 0 <= i < |name| ensures SameFold(fold, name[i], name[i]) { assert Iterate(fold, name[i], 0) == name[i]; }
    SameKeyIffAlike(fold, name, name, key, KeyOf(fold, name));
  }

  /**
   credentialJSON: one value, then the end of the input, then the decoding into the typed target.
   `decodes` is the verdict of that decoding on the same bytes; it alone would take the last of two alike names.
   */
  method CredentialJson(fold: Rune -> Rune, tokens: seq<Token>, decodes: bool) returns (ok: bool)
    requires Permutation(fold)
    ensures ok <==> Acceptable(fold, None, tokens) && decodes
  {
    AcceptedIffUnambiguous(fold, None, tokens);
    var d := new Decoder(tokens);
    ok := d.Value(fold, None, 0);
    if !ok || d.unread != [] { return false; }
    ok := decodes;
  }

  const MAX_DEPTH := 16

  /** unambiguousMembershipJSON. */
  method UnambiguousMembershipJson(fold: Rune -> Rune, tokens: seq<Token>) returns (ok: bool)
    requires Permutation(fold)
    ensures ok <==> Acceptable(fold, Some(16), tokens)
  {
    AcceptedIffUnambiguous(fold, Some(MAX_DEPTH), tokens);
    var d := new Decoder(tokens);
    ok := d.Value(fold, Some(MAX_DEPTH), 0);
    if ok && d.unread != [] { ok := false; }
  }
}
