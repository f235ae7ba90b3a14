/**
 The paginated reader of the member and invite lists (internal/platform/selected_workspace_http.go).

 The server is an arbitrary function of the request number and the offset, so it may answer
 the same offset differently later. `convert` is the row converter of one endpoint; `lower`
 and `fold` stand for lower-casing with and without trimming.
 */
module RosterPaging {
  import opened Common

  const PAGE_LIMIT := 100
  const MAX_ENTRIES := 1000

  datatype Member = Member(kind: string, identifier: string, memberId: string, accountUserId: string)
  datatype Outcome = Incomplete | Unauthorized | Forbidden | Unreachable

  /** A decoded body; the optional fields may be missing from the response. */
  datatype Reply<T> =
    | Refused(outcome: Outcome) | Malformed
    | Page(items: Option<seq<T>>, total: Option<int>, limit: Option<int>, offset: Option<int>)

  datatype Fold = Fold(lower: string -> string, trim: string -> string)

  datatype Key = Identifier(kind: string, text: string) | MemberId(kind: string, text: string) | AccountUser(kind: string, text: string)

  function KeysOf(f: Fold, m: Member): set<Key> {
    {Identifier(m.kind, f.lower(m.identifier))}
    + (if m.memberId != "" then {MemberId(m.kind, f.trim(m.memberId))} else {})
    + (if m.accountUserId != "" then {AccountUser(m.kind, f.trim(m.accountUserId))} else {})
  }

  /** Two entries of one list that cannot both be genuine. */
  predicate Clash(f: Fold, a: Member, b: Member) {
    a.kind == b.kind
    && (f.lower(a.identifier) == f.lower(b.identifier)
        || (a.memberId != "" && b.memberId != "" && f.trim(a.memberId) == f.trim(b.memberId))
        || (a.accountUserId != "" && b.accountUserId != "" && f.trim(a.accountUserId) == f.trim(b.accountUserId)))
  }

  predicate NoRepeats(f: Fold, entries: seq<Member>) {
    forall i, j :: 0 <= i < j < |entries| ==> !Clash(f, entries[i], entries[j])
  }

  ghost function Converted<T>(convert: T -> Option<Member>, items: seq<T>): (entries: seq<Member>)
    requires forall x :: x in items ==> convert(x).Some?
    ensures |entries| == |items| && forall i :: 0 <= i < |items| ==> convert(items[i]) == Some(entries[i])
  {
    seq(|items|, i requires 0 <= i < |items| => convert(items[i]).value)
  }

  /** Rows that all convert, without a repeated identity. */
  ghost predicate Clean<T(!new)>(f: Fold, convert: T -> Option<Member>, items: seq<T>) {
    (forall x :: x in items ==> convert(x).Some?) && NoRepeats(f, Converted(convert, items))
  }

  function Flatten<T>(pages: seq<seq<T>>): seq<T> {
    if pages == [] then [] else Flatten(pages[..|pages| - 1]) + pages[|pages| - 1]
  }

  /** Request `k`, at this offset, is answered by a well-formed page of these items. */
  ghost predicate PageAt<T(!new)>(server: (nat, nat) -> Reply<T>, k: nat, offset: nat, declared: int, items: seq<T>) {
    server(k, offset) == Page(Some(items), Some(declared), Some(PAGE_LIMIT), Some(offset))
    && 0 <= declared <= MAX_ENTRIES && |items| <= PAGE_LIMIT && |items| <= declared - offset
  }

  /** Page `k` answers at the offset where the pages before it end. */
  ghost predicate Follows<T(!new)>(server: (nat, nat) -> Reply<T>, declared: int, pages: seq<seq<T>>, k: nat) {
    k < |pages| && PageAt(server, k, |Flatten(pages[..k])|, declared, pages[k])
  }

  /** Contiguous pages of one declared total. */
  ghost predicate Contiguous<T(!new)>(server: (nat, nat) -> Reply<T>, declared: int, pages: seq<seq<T>>) {
    forall k: nat {:trigger Follows(server, declared, pages, k)} :: k < |pages| ==> Follows(server, declared, pages, k)
  }

  /** Page `k` is not the last: it has rows, and with it the declared total is not reached. */
  ghost predicate Unfinished<T>(declared: int, pages: seq<seq<T>>, k: nat) {
    k < |pages| && pages[k] != [] && |Flatten(pages[..k + 1])| < declared
  }

  /** A complete read: contiguous clean pages that reach the declared total with the last one, and not before. */
  ghost predicate Whole<T(!new)>(server: (nat, nat) -> Reply<T>, f: Fold, convert: T -> Option<Member>,
                          declared: int, pages: seq<seq<T>>) {
    && pages != [] && Contiguous(server, declared, pages) && |Flatten(pages)| == declared && Clean(f, convert, Flatten(pages))
    && (forall k: nat {:trigger Unfinished(declared, pages, k)} :: k < |pages| - 1 ==> Unfinished(declared, pages, k))
  }

  datatype Read = Complete(entries: seq<Member>) | Failed(outcome: Outcome)

  // ----- lemmas about pages

  lemma FlattenSnoc<T(!new)>(pages: seq<seq<T>>, p: seq<T>)
    ensures Flatten(pages + [p]) == Flatten(pages) + p
  {
    assert (pages + [p])[..|pages|] == pages;
  }

  lemma {:induction false} FlattenPrefix<T(!new)>(pages: seq<seq<T>>, k: nat)
    requires k <= |pages|
    ensures Flatten(pages[..k]) <= Flatten(pages)
  {
    if k < |pages| {
      var rest := pages[..|pages| - 1];
      FlattenPrefix(rest, k);
      assert rest[..k] == pages[..k];
    } else {
      assert pages[..k] == pages;
    }
  }

  lemma PrefixSnoc<T>(s: seq<T>, k: nat)
    requires k < |s|
    ensures s[..k + 1] == s[..k] + [s[k]]
  {
  }

  lemma PageOf<T(!new)>(server: (nat, nat) -> Reply<T>, d: int, pages: seq<seq<T>>, k: nat, before: seq<seq<T>>)
    requires Contiguous(server, d, pages) && k < |pages| && before == pages[..k]
    ensures PageAt(server, k, |Flatten(before)|, d, pages[k])
  {
    assert Follows(server, d, pages, k);
  }

  /** A server answers one run of pages at most: two contiguous runs agree as far as both go. */
  lemma {:induction false} AgreeUpTo<T(!new)>(server: (nat, nat) -> Reply<T>, d: int, pages: seq<seq<T>>, d': int,
                                       pages': seq<seq<T>>, k: nat)
    requires Contiguous(server, d, pages) && Contiguous(server, d', pages') && k <= |pages| && k <= |pages'|
    ensures pages[..k] == pages'[..k] && (k > 0 ==> d == d')
  {
    if k > 0 {
      AgreeUpTo(server, d, pages, d', pages', k - 1);
      PrefixSnoc(pages, k - 1);
      PrefixSnoc(pages', k - 1);
      var before := pages[..k - 1];
      PageOf(server, d, pages, k - 1, before);
      PageOf(server, d', pages', k - 1, before);
    }
  }

  lemma RunsAgree<T(!new)>(server: (nat, nat) -> Reply<T>, d: int, pages: seq<seq<T>>, d': int, pages': seq<seq<T>>)
    requires Contiguous(server, d, pages) && Contiguous(server, d', pages') && |pages| <= |pages'|
    ensures pages == pages'[..|pages|] && (pages != [] ==> d == d')
  {
    AgreeUpTo(server, d, pages, d', pages', |pages|);
    assert pages[..|pages|] == pages;
  }

  lemma ReadIsLonger<T(!new)>(server: (nat, nat) -> Reply<T>, f: Fold, convert: T -> Option<Member>,
                              d: int, pages: seq<seq<T>>, d': int, run: seq<seq<T>>)
    requires Contiguous(server, d, pages) && (pages != [] ==> |Flatten(pages)| < d) && Whole(server, f, convert, d', run)
    ensures |pages| < |run|
  {
    if |run| <= |pages| {
      RunsAgree(server, d', run, d, pages);
      FlattenPrefix(pages, |run|);
    }
  }

  lemma BeginsCleanly<T(!new)>(f: Fold, convert: T -> Option<Member>, pages: seq<seq<T>>, run: seq<seq<T>>)
    requires |pages| < |run| && pages == run[..|pages|] && Clean(f, convert, Flatten(run))
    ensures Clean(f, convert, Flatten(pages) + run[|pages|])
  {
    FlattenPrefix(run, |pages| + 1);
    PrefixSnoc(run, |pages|);
    FlattenSnoc(pages, run[|pages|]);
    CleanPrefix(f, convert, Flatten(run), |Flatten(pages) + run[|pages|]|);
  }

  /** The read so far is how every complete read begins. */
  lemma {:induction false} BeginsEveryRead<T(!new)>(server: (nat, nat) -> Reply<T>, f: Fold, convert: T -> Option<Member>,
                           d: int, pages: seq<seq<T>>, d': int, run: seq<seq<T>>)
    requires Contiguous(server, d, pages) && (pages != [] ==> |Flatten(pages)| < d) && Whole(server, f, convert, d', run)
    ensures |pages| < |run| && run[..|pages|] == pages && (pages != [] ==> d == d')
    ensures PageAt(server, |pages|, |Flatten(pages)|, d', run[|pages|])
    ensures Clean(f, convert, Flatten(pages) + run[|pages|])
  {
    ReadIsLonger(server, f, convert, d, pages, d', run);
    RunsAgree(server, d, pages, d', run);
    PageOf(server, d', run, |pages|, pages);
    BeginsCleanly(f, convert, pages, run);
  }

  lemma EmptyPageIsLast<T(!new)>(server: (nat, nat) -> Reply<T>, f: Fold, convert: T -> Option<Member>, d: int,
                          run: seq<seq<T>>, k: nat)
    requires Whole(server, f, convert, d, run) && k < |run| && run[k] == []
    ensures |Flatten(run[..k])| == d
  {
    assert !Unfinished(d, run, k);
    assert run[..k + 1] == run;
    PrefixSnoc(run, k);
    FlattenSnoc(run[..k], run[k]);
  }

  lemma CleanPrefix<T(!new)>(f: Fold, convert: T -> Option<Member>, items: seq<T>, n: nat)
    requires Clean(f, convert, items) && n <= |items|
    ensures Clean(f, convert, items[..n]) && Converted(convert, items[..n]) == Converted(convert, items)[..n]
  {
    assert forall i :: 0 <= i < n ==> items[..n][i] == items[i];
    assert Converted(convert, items[..n]) == Converted(convert, items)[..n];
  }

  // ----- the reader

  function SeenKeys(f: Fold, entries: seq<Member>): set<Key> {
    set m, k | m in entries && k in KeysOf(f, m) :: k
  }

  lemma SharedKeyIsClash(f: Fold, entries: seq<Member>, m: Member)
    ensures KeysOf(f, m) !! SeenKeys(f, entries) <==> forall e :: e in entries ==> !Clash(f, e, m)
  {
    forall e | e in entries && Clash(f, e, m) ensures !(KeysOf(f, m) !! SeenKeys(f, entries)) {
      var k := if f.lower(e.identifier) == f.lower(m.identifier) then Identifier(m.kind, f.lower(m.identifier))
      else if e.memberId != "" && m.memberId != "" && f.trim(e.memberId) == f.trim(m.memberId) then MemberId(m.kind, f.trim(m.memberId))
      else AccountUser(m.kind, f.trim(m.accountUserId));
      assert k in KeysOf(f, e) && k in KeysOf(f, m) && k in SeenKeys(f, entries);
    }
  }

  /** Before row `i`: the rows so far and this one begin the whole list. */
  lemma NextRow<T(!new)>(f: Fold, convert: T -> Option<Member>, prior: seq<T>, items: seq<T>, i: nat)
    requires i < |items|
    ensures prior + items[..i + 1] == prior + items[..i] + [items[i]]
    ensures Clean(f, convert, prior + items) ==> convert(items[i]).Some? && Clean(f, convert, prior + items[..i] + [items[i]])
  {
    var whole, next := prior + items, prior + items[..i] + [items[i]];
    assert next == prior + items[..i + 1] == whole[..|prior| + i + 1];
    assert items[i] in whole;
    if Clean(f, convert, whole) { CleanPrefix(f, convert, whole, |next|); }
  }

  lemma KeysMeet(f: Fold, m: Member, seen: set<Key>)
    ensures KeysOf(f, m) !! seen <==>
              && Identifier(m.kind, f.lower(m.identifier)) !in seen
              && (m.memberId != "" ==> MemberId(m.kind, f.trim(m.memberId)) !in seen)
              && (m.accountUserId != "" ==> AccountUser(m.kind, f.trim(m.accountUserId)) !in seen)
  {
  }

  /** What row `i` does to the entries and the keys seen so far. */
  lemma RowStep<T(!new)>(f: Fold, convert: T -> Option<Member>, prior: seq<T>, items: seq<T>, i: nat, seen: set<Key>)
    requires i < |items| && Clean(f, convert, prior + items[..i]) && convert(items[i]).Some?
    requires seen == SeenKeys(f, Converted(convert, prior + items[..i]))
    ensures var m := convert(items[i]).value;
            && (Clean(f, convert, prior + items[..i + 1]) <==> KeysOf(f, m) !! seen)
            && (forall x :: x in prior + items[..i + 1] ==> convert(x).Some?)
            && Converted(convert, prior + items[..i + 1]) == Converted(convert, prior + items[..i]) + [m]
            && SeenKeys(f, Converted(convert, prior + items[..i + 1])) == seen + KeysOf(f, m)
  {
    NextRow(f, convert, prior, items, i);
    SharedKeyIsClash(f, Converted(convert, prior + items[..i]), convert(items[i]).value);
    AppendOne(f, convert, prior + items[..i], items[i]);
  }

  /** The row loop: appends the converted rows, or stops at the first bad or repeated one. */
  method AppendRows<T(!new)>(f: Fold, convert: T -> Option<Member>, ghost prior: seq<T>, items: seq<T>,
                      entries: seq<Member>, seen: set<Key>)
    returns (ok: bool, entries': seq<Member>, seen': set<Key>)
    requires Clean(f, convert, prior) && entries == Converted(convert, prior) && seen == SeenKeys(f, entries)
    ensures ok <==> Clean(f, convert, prior + items)
    ensures ok ==> entries' == Converted(convert, prior + items) && seen' == SeenKeys(f, entries')
  {
    entries', seen' := entries, seen;
    for i := 0 to |items|
      invariant Clean(f, convert, prior + items[..i])
      invariant entries' == Converted(convert, prior + items[..i]) && seen' == SeenKeys(f, entries')
    {
      NextRow(f, convert, prior, items, i);
      var row := convert(items[i]);
      if row.None? { return false, entries', seen'; }
      RowStep(f, convert, prior, items, i, seen');
      var m := row.value;
      KeysMeet(f, m, seen');
      if Identifier(m.kind, f.lower(m.identifier)) in seen' || (m.memberId != "" && MemberId(m.kind, f.trim(m.memberId)) in seen')
         || (m.accountUserId != "" && AccountUser(m.kind, f.trim(m.accountUserId)) in seen')
      {
        return false, entries', seen';
      }
      seen' := seen' + KeysOf(f, m);
      entries' := entries' + [m];
    }
    assert items[..|items|] == items;
    ok := true;
  }

  lemma RepeatsSnoc(f: Fold, entries: seq<Member>, m: Member)
    ensures NoRepeats(f, entries + [m]) <==> NoRepeats(f, entries) && forall e :: e in entries ==> !Clash(f, e, m)
  {
    var all := entries + [m];
    if NoRepeats(f, all) {
      assert forall i :: 0 <= i < |entries| ==> all[i] == entries[i];
      forall e | e in entries ensures !Clash(f, e, m) {
        var i :| 0 <= i < |entries| && entries[i] == e;
        assert !Clash(f, all[i], all[|entries|]);
      }
    }
  }

  lemma AppendOne<T(!new)>(f: Fold, convert: T -> Option<Member>, prior: seq<T>, x: T)
    requires Clean(f, convert, prior) && convert(x).Some?
    ensures Clean(f, convert, prior + [x]) <==> forall e :: e in Converted(convert, prior) ==> !Clash(f, e, convert(x).value)
    ensures Converted(convert, prior + [x]) == Converted(convert, prior) + [convert(x).value]
    ensures SeenKeys(f, Converted(convert, prior + [x])) == SeenKeys(f, Converted(convert, prior)) + KeysOf(f, convert(x).value)
  {
    assert forall y :: y in prior + [x] <==> y in prior || y == x;
    assert Converted(convert, prior + [x]) == Converted(convert, prior) + [convert(x).value];
    RepeatsSnoc(f, Converted(convert, prior), convert(x).value);
  }

  ghost predicate Completable<T(!new)>(server: (nat, nat) -> Reply<T>, f: Fold, convert: T -> Option<Member>) {
    exists d, pages :: Whole(server, f, convert, d, pages)
  }

  /** The state of the page loop between two requests. */
  ghost predicate Partial<T(!new)>(server: (nat, nat) -> Reply<T>, f: Fold, convert: T -> Option<Member>,
                            declared: int, pages: seq<seq<T>>) {
    && Contiguous(server, declared, pages) && Clean(f, convert, Flatten(pages))
    && (forall k: nat {:trigger Unfinished(declared, pages, k)} :: k < |pages| ==> Unfinished(declared, pages, k))
    && |pages| <= |Flatten(pages)| && (pages != [] ==> |Flatten(pages)| < declared <= MAX_ENTRIES)
  }

  lemma {:induction false} NextPage<T(!new)>(server: (nat, nat) -> Reply<T>, f: Fold, convert: T -> Option<Member>,
                                      declared: int, pages: seq<seq<T>>, items: seq<T>)
    requires Partial(server, f, convert, declared, pages)
    requires PageAt(server, |pages|, |Flatten(pages)|, declared, items) && Clean(f, convert, Flatten(pages) + items)
    ensures Flatten(pages + [items]) == Flatten(pages) + items
    ensures |Flatten(pages + [items])| == declared ==> Whole(server, f, convert, declared, pages + [items])
    ensures |Flatten(pages + [items])| < declared && items != [] ==> Partial(server, f, convert, declared, pages + [items])
  {
    FlattenSnoc(pages, items);
    var more := pages + [items];
    forall k: nat | k < |more| ensures Follows(server, declared, more, k) {
      assert more[..k] == pages[..k] && pages[..|pages|] == pages;
      if k < |pages| { assert Follows(server, declared, pages, k); }
    }
    forall k: nat | k < |pages| ensures Unfinished(declared, more, k) {
      assert Unfinished(declared, pages, k) && more[..k + 1] == pages[..k + 1];
    }
    assert |Flatten(more)| < declared && items != [] ==> Unfinished(declared, more, |pages|) by { assert more[..|pages| + 1] == more; }
  }

  /** When no answer continues the read cleanly, the server offers no complete read at all. */
  lemma {:induction false} DeadEnd<T(!new)>(server: (nat, nat) -> Reply<T>, f: Fold, convert: T -> Option<Member>,
                                     declared: int, pages: seq<seq<T>>)
    requires Partial(server, f, convert, declared, pages)
    requires forall d, items {:trigger PageAt(server, |pages|, |Flatten(pages)|, d, items)} ::
               PageAt(server, |pages|, |Flatten(pages)|, d, items) && (pages != [] ==> d == declared) ==>
                 !Clean(f, convert, Flatten(pages) + items) || (items == [] && |Flatten(pages)| != d)
    ensures !Completable(server, f, convert)
  {
    forall d, run | Whole(server, f, convert, d, run) ensures false {
      BeginsEveryRead(server, f, convert, declared, pages, d, run);
      if run[|pages|] == [] { EmptyPageIsLast(server, f, convert, d, run, |pages|); }
    }
  }

  /** The checks on one decoded page. */
  method CheckPage<T(!new)>(reply: Reply<T>, offset: nat) returns (ok: bool, items: seq<T>, total: int)
    requires !reply.Refused?
    ensures ok <==> 0 <= total <= MAX_ENTRIES && |items| <= PAGE_LIMIT && |items| <= total - offset
                    && reply == Page(Some(items), Some(total), Some(PAGE_LIMIT), Some(offset))
    ensures !ok ==> forall d, xs :: 0 <= d <= MAX_ENTRIES && |xs| <= PAGE_LIMIT && |xs| <= d - offset ==>
                                      reply != Page(Some(xs), Some(d), Some(PAGE_LIMIT), Some(offset))
  {
    if reply.Malformed? || reply.total.None? || reply.offset.None? || reply.limit.None? || reply.items.None?
       || reply.total.value < 0 || reply.total.value > MAX_ENTRIES || reply.offset.value != offset
       || reply.limit.value != PAGE_LIMIT || |reply.items.value| > reply.limit.value
       || |reply.items.value| > reply.total.value - offset
    {
      return false, [], -1;
    }
    return true, reply.items.value, reply.total.value;
  }

  /** The read stopped here: these pages followed each other cleanly, and the next answer ended it. */
  ghost predicate StoppedAt<T(!new)>(server: (nat, nat) -> Reply<T>, f: Fold, convert: T -> Option<Member>,
                                     declared: int, pages: seq<seq<T>>, outcome: Outcome) {
    && Partial(server, f, convert, declared, pages)
    && outcome == match server(|pages|, |Flatten(pages)|)
                  case Refused(o) => o
                  case _ => Incomplete
  }

  /** What a call of the reader promises about its server. */
  ghost predicate ReadOf<T(!new)>(server: (nat, nat) -> Reply<T>, f: Fold, convert: T -> Option<Member>, r: Read, requests: nat) {
    && (r.Complete? <==> Completable(server, f, convert))
    && (r.Complete? ==> exists d, pages {:trigger Whole(server, f, convert, d, pages)} ::
                          && Whole(server, f, convert, d, pages) && |pages| == requests
                          && r.entries == Converted(convert, Flatten(pages)))
    && (r.Failed? ==> exists d, pages {:trigger StoppedAt(server, f, convert, d, pages, r.outcome)} ::
                        StoppedAt(server, f, convert, d, pages, r.outcome) && |pages| + 1 == requests)
  }

  /** Succeeds exactly when the server offers a complete read, and returns that; never asks more than a thousand times. */
  method FetchPages<T(!new)>(server: (nat, nat) -> Reply<T>, f: Fold, convert: T -> Option<Member>) returns (r: Read,
                      requests: nat)
    ensures requests <= 1000
    ensures ReadOf(server, f, convert, r, requests)
  {
    var entries: seq<Member>, seen: set<Key> := [], {};
    var declared, offset: nat := -1, 0;
    requests := 0;
    ghost var pages: seq<seq<T>> := [];
    while true
      invariant |pages| == requests && offset == |Flatten(pages)| && Partial(server, f, convert, declared, pages)
      invariant declared < 0 <==> pages == []
      invariant entries == Converted(convert, Flatten(pages)) && seen == SeenKeys(f, entries)
      decreases MAX_ENTRIES - offset
    {
      var reply := server(requests, offset);
      requests := requests + 1;
      if reply.Refused? {
        DeadEnd(server, f, convert, declared, pages);
        assert StoppedAt(server, f, convert, declared, pages, reply.outcome);
        return Failed(reply.outcome), requests;
      }
      var sound, items, total := CheckPage(reply, offset);
      if !sound || (declared >= 0 && declared != total) {
        DeadEnd(server, f, convert, declared, pages);
        assert StoppedAt(server, f, convert, declared, pages, Incomplete);
        return Failed(Incomplete), requests;
      }
      declared := total;
      assert PageAt(server, |pages|, offset, declared, items);
      var ok;
      ok, entries, seen := AppendRows(f, convert, Flatten(pages), items, entries, seen);
      if !ok {
        DeadEnd(server, f, convert, declared, pages);
        assert StoppedAt(server, f, convert, declared, pages, Incomplete);
        return Failed(Incomplete), requests;
      }
      NextPage(server, f, convert, declared, pages, items);
      offset := offset + |items|;
      if offset == declared { return Complete(entries), requests; }
      if |items| == 0 || offset >= MAX_ENTRIES {
        DeadEnd(server, f, convert, declared, pages);
        assert StoppedAt(server, f, convert, declared, pages, Incomplete);
        return Failed(Incomplete), requests;
      }
      pages := pages + [items];
    }
  }

  // ----- results

  lemma BeforeTheEnd<T(!new)>(server: (nat, nat) -> Reply<T>, f: Fold, convert: T -> Option<Member>,
                              d: int, pages: seq<seq<T>>, n: nat)
    requires Whole(server, f, convert, d, pages) && 0 < n < |pages|
    ensures |Flatten(pages[..n])| < d
  {
    assert Unfinished(d, pages, n - 1);
  }

  lemma ReadEndsThere<T(!new)>(server: (nat, nat) -> Reply<T>, f: Fold, convert: T -> Option<Member>,
                               d: int, pages: seq<seq<T>>, d': int, pages': seq<seq<T>>)
    requires Whole(server, f, convert, d, pages) && Whole(server, f, convert, d', pages') && |pages| <= |pages'|
    ensures pages == pages' && d == d'
  {
    RunsAgree(server, d, pages, d', pages');
    if |pages| < |pages'| { BeforeTheEnd(server, f, convert, d', pages', |pages|); }
  }

  /** A complete read has exactly the declared total, repeats no identity, and is the only one. */
  lemma {:induction false} CompleteReadIsUnique<T(!new)>(server: (nat, nat) -> Reply<T>, f: Fold, convert: T -> Option<Member>,
                                d: int, pages: seq<seq<T>>, d': int, pages': seq<seq<T>>)
    requires Whole(server, f, convert, d, pages) && Whole(server, f, convert, d', pages')
    ensures pages == pages' && d == d' && |Converted(convert, Flatten(pages))| == d && NoRepeats(f, Converted(convert, Flatten(pages)))
  {
    if |pages| <= |pages'| {
      ReadEndsThere(server, f, convert, d, pages, d', pages');
    } else {
      ReadEndsThere(server, f, convert, d', pages', d, pages);
    }
  }

  /** A server that slices one fixed list. */
  ghost predicate Slices<T(!new)>(server: (nat, nat) -> Reply<T>, list: seq<T>) {
    forall k: nat, offset: nat :: offset <= |list| ==>
      server(k, offset) == Page(Some(list[offset..Min(offset + 100, |list|)]), Some(|list|), Some(100), Some(offset))
  }

  ghost function Sliced<T>(list: seq<T>, count: nat): (pages: seq<seq<T>>)
    requires count > 0 ==> PAGE_LIMIT * (count - 1) <= |list|
    ensures |pages| == count
    ensures forall k: nat :: k < count ==> pages[k] == list[PAGE_LIMIT * k..Min(PAGE_LIMIT * k + PAGE_LIMIT, |list|)]
  {
    seq(count, k requires 0 <= k < count => list[PAGE_LIMIT * k..Min(PAGE_LIMIT * k + PAGE_LIMIT, |list|)])
  }

  lemma {:induction false} FlattenSliced<T(!new)>(list: seq<T>, pages: seq<seq<T>>, k: nat)
    requires (|pages| > 0 ==> PAGE_LIMIT * (|pages| - 1) <= |list|) && pages == Sliced(list, |pages|) && k <= |pages|
    ensures Flatten(pages[..k]) == list[..Min(PAGE_LIMIT * k, |list|)]
  {
    if k > 0 {
      FlattenSliced(list, pages, k - 1);
      assert pages[..k] == pages[..k - 1] + [pages[k - 1]];
      FlattenSnoc(pages[..k - 1], pages[k - 1]);
    }
  }

  lemma SlicedPage<T(!new)>(server: (nat, nat) -> Reply<T>, list: seq<T>, pages: seq<seq<T>>, k: nat)
    requires Slices(server, list) && |list| <= MAX_ENTRIES && PAGE_LIMIT * (|pages| - 1) <= |list|
    requires pages == Sliced(list, |pages|) && k < |pages|
    ensures PageAt(server, k, PAGE_LIMIT * k, |list|, pages[k])
  {
    assert PAGE_LIMIT * k <= |list|;
    assert pages[k] == list[PAGE_LIMIT * k..Min(PAGE_LIMIT * k + PAGE_LIMIT, |list|)];
  }

  lemma SlicedIsContiguous<T(!new)>(server: (nat, nat) -> Reply<T>, list: seq<T>, pages: seq<seq<T>>)
    requires Slices(server, list) && |list| <= MAX_ENTRIES && (|pages| > 0 ==> PAGE_LIMIT * (|pages| - 1) <= |list|)
    requires pages == Sliced(list, |pages|)
    ensures Contiguous(server, |list|, pages)
  {
    forall k: nat | k < |pages| ensures Follows(server, |list|, pages, k) {
      FlattenSliced(list, pages, k);
      SlicedPage(server, list, pages, k);
      assert |Flatten(pages[..k])| == PAGE_LIMIT * k;
    }
  }

  lemma SlicesFill<T(!new)>(list: seq<T>, pages: seq<seq<T>>, k: nat)
    requires PAGE_LIMIT * (|pages| - 1) < |list| && |pages| > 0 && pages == Sliced(list, |pages|) && k < |pages| - 1
    ensures Unfinished(|list|, pages, k)
  {
    FlattenSliced(list, pages, k + 1);
  }

  lemma {:induction false} SlicedIsWhole<T(!new)>(server: (nat, nat) -> Reply<T>, f: Fold,
                                           convert: T -> Option<Member>, list: seq<T>) returns (pages: seq<seq<T>>)
    requires Slices(server, list) && |list| <= MAX_ENTRIES && Clean(f, convert, list)
    ensures Whole(server, f, convert, |list|, pages) && Flatten(pages) == list
  {
    var count: nat := if list == [] then 1 else (|list| + PAGE_LIMIT - 1) / PAGE_LIMIT;
    assert count > 0 && PAGE_LIMIT * (count - 1) <= |list| <= PAGE_LIMIT * count;
    pages := Sliced(list, count);
    assert Flatten(pages) == list by {
      FlattenSliced(list, pages, count);
      assert pages[..count] == pages && list[..|list|] == list;
    }
    SlicedIsContiguous(server, list, pages);
    forall k: nat | k < |pages| - 1 ensures Unfinished(|list|, pages, k) { SlicesFill(list, pages, k); }
  }

  /** Against a server that slices a clean list of at most a thousand rows, the whole list comes back in order. */
  lemma {:induction false} SlicedListIsReadWhole<T(!new)>(server: (nat, nat) -> Reply<T>, f: Fold,
      convert: T -> Option<Member>, list: seq<T>, r: Read, requests: nat)
    requires Slices(server, list) && |list| <= 1000 && Clean(f, convert, list)
    requires ReadOf(server, f, convert, r, requests)
    ensures r == Complete(Converted(convert, list))
  {
    var pages := SlicedIsWhole(server, f, convert, list);
    var d, read :| Whole(server, f, convert, d, read) && |read| == requests && r.entries == Converted(convert, Flatten(read));
    CompleteReadIsUnique(server, f, convert, |list|, pages, d, read);
  }
}
