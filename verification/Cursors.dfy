/** Cursor pagination over fixed-size upstream pages (internal/gitcore/cache.go). */
module Cursors {
  import opened Option

  const PAGE_SIZE := 50
  const DEFAULT_LIMIT := 30
  const MAX_LIMIT := 100
  const MAX_PAGE := 1000000

  // A cursor as the caller hands it back. None is the empty string: the first page in a request, and
  // "no more" in a reply.
  datatype Cursor = Cursor(page: int, skip: int)

  // The headers hasMore reads. Atoi fails on a total that is Unreadable.
  datatype Total = NoTotal | Unreadable | Count(n: int)
  datatype Header = Header(linkNext: bool, total: Total, hasMore: Option<bool>)

  datatype Response<T> = Response(batch: seq<T>, header: Header)

  datatype Fetched<T> = BadCursor | UpstreamError | Fetched(items: seq<T>, next: Option<Cursor>)

  predicate Accepted(c: Cursor) {
    1 <= c.page <= MAX_PAGE && 0 <= c.skip < PAGE_SIZE
  }

  function Decode(c: Option<Cursor>): Option<Cursor> {
    match c
    case None => Some(Cursor(1, 0))
    case Some(at) => if Accepted(at) then c else None
  }

  /** A cursor is taken for one of the first 1000000 pages and a position in it; no cursor is the first page. */
  lemma {:induction false} DecodeMeans(c: Option<Cursor>)
    ensures Decode(c) == None <==> c.Some? && !(1 <= c.value.page <= 1_000_000 && 0 <= c.value.skip < 50)
    ensures Decode(c).Some? ==> Decode(c).value == match c case None => Cursor(1, 0) case Some(at) => at
    ensures Decode(c).Some? ==> Decode(c).value.page >= 1 && 0 <= Decode(c).value.skip < PAGE_SIZE
  {
  }

  function ClampLimit(n: int): (r: int)
    ensures 1 <= r <= MAX_LIMIT && (1 <= n <= MAX_LIMIT ==> r == n) && (n <= 0 ==> r == 30) && (n > 100 ==> r == 100)
  {
    if n <= 0 then DEFAULT_LIMIT else if n > MAX_LIMIT then MAX_LIMIT else n
  }

  predicate HasMore(h: Header, page: int, got: nat) {
    if h.linkNext then true
    else if h.total.Count? then h.total.n > page * 50
    else if h.hasMore.Some? then h.hasMore.value
    else got >= PAGE_SIZE
  }

  /** Whether more follows, by the first header that says so: the link, the total, the flag; else a full page is not the last. */
  lemma {:induction false} HasMoreMeans(h: Header, page: int, got: nat)
    ensures h.linkNext ==> HasMore(h, page, got)
    ensures !h.linkNext && h.total.Count? ==> (HasMore(h, page, got) <==> h.total.n > 50 * page)
    ensures !h.linkNext && !h.total.Count? ==> (HasMore(h, page, got) <==> h.hasMore == Some(true) || (h.hasMore == None && got >= 50))
  {
  }

  // The upstream pages, page 1 first, up to the first that hasMore finds to be the last.
  ghost predicate Pages<T>(up: seq<Response<T>>) {
    up != [] && forall i :: 0 <= i < |up| ==>
                              && |up[i].batch| <= PAGE_SIZE
                              && (HasMore(up[i].header, i + 1, |up[i].batch|) <==> i + 1 < |up|)
  }

  function Min(a: int, b: int): int {
    if a <= b then a else b
  }

  function Drop<T>(s: seq<T>, n: nat): seq<T> {
    s[Min(n, |s|)..]
  }

  // What upstream holds from a page and a position in it on.
  ghost function Rest<T>(up: seq<Response<T>>, page: int, skip: nat): seq<T>
    requires 1 <= page
    decreases |up| - page
  {
    if page > |up| then [] else Drop(up[page - 1].batch, skip) + Rest(up, page + 1, 0)
  }

  ghost predicate InRange<T>(up: seq<Response<T>>, c: Option<Cursor>) {
    c.Some? ==> 1 <= c.value.page <= |up| && 0 <= c.value.skip < PAGE_SIZE
  }

  ghost function RestAt<T>(up: seq<Response<T>>, c: Option<Cursor>): seq<T>
    requires InRange(up, c)
  {
    if c == None then [] else Rest(up, c.value.page, c.value.skip)
  }

  // `items`, followed by what `next` stands for, are `all`.
  ghost predicate Leaves<T>(up: seq<Response<T>>, items: seq<T>, next: Option<Cursor>, all: seq<T>) {
    InRange(up, next) && items + RestAt(up, next) == all
  }

  ghost predicate FullPages<T>(up: seq<Response<T>>) {
    forall i :: 0 <= i < |up| - 1 ==> |up[i].batch| == PAGE_SIZE
  }

  // A cursor's place in the listing, for progress.
  function Rank(c: Cursor): int {
    c.page * 51 + c.skip
  }

  lemma Assoc<T>(a: seq<T>, b: seq<T>, c: seq<T>)
    ensures a + b + c == a + (b + c)
  {
  }

  lemma PageFacts<T>(up: seq<Response<T>>, at: Cursor, got: seq<T>)
    requires Pages(up) && 1 <= at.page <= |up| && 0 <= at.skip && got == Drop(up[at.page - 1].batch, at.skip)
    ensures HasMore(up[at.page - 1].header, at.page, |up[at.page - 1].batch|) <==> at.page < |up|
    ensures |got| > 0 ==> at.skip + |got| == |up[at.page - 1].batch| <= PAGE_SIZE
    ensures FullPages(up) && at.page < |up| && at.skip <= PAGE_SIZE ==> |got| == PAGE_SIZE - at.skip
  {
  }

  // Taking the whole of a page moves on to the next page.
  lemma TakeWhole<T>(up: seq<Response<T>>, items: seq<T>, at: Cursor, all: seq<T>)
    requires Leaves(up, items, Some(at), all)
    ensures var longer := items + Drop(up[at.page - 1].batch, at.skip);
            && |longer| <= |all|
            && (at.page < |up| ==> Leaves(up, longer, Some(Cursor(at.page + 1, 0)), all))
            && (at.page == |up| ==> longer == all && Leaves(up, longer, None, all))
  {
    Assoc(items, Drop(up[at.page - 1].batch, at.skip), Rest(up, at.page + 1, 0));
  }

  lemma DropTwice<T>(s: seq<T>, skip: nat, take: nat)
    requires take < |Drop(s, skip)|
    ensures skip + take < |s| && Drop(s, skip) == Drop(s, skip)[..take] + Drop(s, skip + take)
  {
  }

  // Taking a part of a page moves further into the same page.
  lemma TakePart<T>(up: seq<Response<T>>, items: seq<T>, at: Cursor, take: nat, all: seq<T>)
    requires Pages(up) && Leaves(up, items, Some(at), all) && take < |Drop(up[at.page - 1].batch, at.skip)|
    ensures var longer := items + Drop(up[at.page - 1].batch, at.skip)[..take];
            |longer| < |all| && Leaves(up, longer, Some(Cursor(at.page, at.skip + take)), all)
  {
    var batch, tail := up[at.page - 1].batch, Rest(up, at.page + 1, 0);
    DropTwice(batch, at.skip, take);
    hide Drop;
    var first, second := Drop(batch, at.skip)[..take], Drop(batch, at.skip + take);
    Assoc(first, second, tail);
    Assoc(items, first, second + tail);
  }

  // What a call that starts at `from` may return.
  ghost predicate Delivers<T>(up: seq<Response<T>>, from: Cursor, limit: int, items: seq<T>, next: Option<Cursor>)
    requires InRange(up, Some(from))
  {
    var all := RestAt(up, Some(from));
    && |items| <= limit && Leaves(up, items, next, all)
    && (next.Some? ==> Rank(from) < Rank(next.value) && next.value.page <= from.page + 4)
    && (next == None ==> |up| <= from.page + 3)
    && (FullPages(up) ==> |items| == Min(limit, |all|))
  }

  // The loop of such a call, before its upstream request number `guard`.
  ghost predicate Walking<T>(up: seq<Response<T>>, from: Cursor, limit: int, items: seq<T>, at: Cursor, guard: int)
    requires InRange(up, Some(from))
  {
    && at.page == from.page + guard && at.skip == (if guard == 0 then from.skip else 0)
    && |items| < limit && Leaves(up, items, Some(at), RestAt(up, Some(from)))
    && (FullPages(up) && guard > 0 ==> |items| == guard * 50 - from.skip)
  }

  lemma Starts<T>(up: seq<Response<T>>, from: Cursor, limit: int)
    requires InRange(up, Some(from)) && limit > 0
    ensures Walking(up, from, limit, [], from, 0)
  {
  }

  // The page holds more than the call may still take.
  lemma VisitPart<T>(up: seq<Response<T>>, from: Cursor, limit: int, items: seq<T>, at: Cursor, guard: nat)
    requires Pages(up) && InRange(up, Some(from)) && guard < 4 && Walking(up, from, limit, items, at, guard)
    requires |Drop(up[at.page - 1].batch, at.skip)| > limit - |items|
    ensures var take := limit - |items|;
            Delivers(up, from, limit, items + Drop(up[at.page - 1].batch, at.skip)[..take], Some(Cursor(at.page, at.skip + take)))
  {
    hide Rest, RestAt, HasMore, Pages, FullPages, Drop, Leaves;
    TakePart(up, items, at, limit - |items|, RestAt(up, Some(from)));
  }

  // The call takes all the page holds.
  lemma VisitWhole<T>(up: seq<Response<T>>, from: Cursor, limit: int, items: seq<T>, at: Cursor, guard: nat)
    requires Pages(up) && InRange(up, Some(from)) && guard < 4 && Walking(up, from, limit, items, at, guard)
    requires |Drop(up[at.page - 1].batch, at.skip)| <= limit - |items|
    ensures var page := up[at.page - 1];
            var longer := items + Drop(page.batch, at.skip);
            if !HasMore(page.header, at.page, |page.batch|) then Delivers(up, from, limit, longer, None)
            else at.page < |up| && if |longer| == limit then Delivers(up, from, limit, longer, Some(Cursor(at.page + 1, 0)))
                                   else Walking(up, from, limit, longer, Cursor(at.page + 1, 0), guard + 1)
  {
    hide Rest, RestAt, HasMore, Pages, FullPages, Drop;
    PageFacts(up, at, Drop(up[at.page - 1].batch, at.skip));
    TakeWhole(up, items, at, RestAt(up, Some(from)));
  }

  lemma FourPagesAreEnough<T>(up: seq<Response<T>>, from: Cursor, limit: int, items: seq<T>, at: Cursor)
    requires Pages(up) && InRange(up, Some(from)) && limit <= MAX_LIMIT && Walking(up, from, limit, items, at, 4)
    ensures at.skip == 0 && Delivers(up, from, limit, items, Some(at)) && !FullPages(up)
  {
    hide Rest, RestAt, HasMore, Pages, FullPages, Drop;
  }

  // What upstream answers for a page: past the last one nothing, with any headers.
  function PageAt<T>(up: seq<Response<T>>, past: int -> Header, page: int): Response<T>
    requires 1 <= page
  {
    if page <= |up| then up[page - 1] else Response([], past(page))
  }

  // Upstream claims that more follows the pages from, from + 1, ... below to, none of which holds anything.
  predicate Misled(past: int -> Header, from: int, to: int) {
    forall page :: from <= page < to ==> HasMore(past(page), page, 0)
  }

  /**
   One listing call; `broken` says which of its upstream calls fail. The items it returns, followed
   by what the returned cursor still stands for, are what the given cursor stood for. When upstream
   fills its pages the call returns as many items as it may, so it never gives up after four pages. A
   cursor past the last page gets nothing, and is led on only while upstream claims that more follows.
   */
  method FetchPaged<T>(up: seq<Response<T>>, past: int -> Header, at: Option<Cursor>, wanted: int, broken: set<int>)
    returns (r: Fetched<T>)
    requires Pages(up)
    ensures r == BadCursor <==> at.Some? && !(1 <= at.value.page <= 1_000_000 && 0 <= at.value.skip < 50)
    ensures r == UpstreamError ==> exists i :: 0 <= i < 4 && i in broken
    ensures r.Fetched? && Decode(at).value.page <= |up| ==> Delivers(up, Decode(at).value, ClampLimit(wanted), r.items, r.next)
    ensures r.Fetched? && Decode(at).value.page > |up| ==>
              && r.items == [] && var page := Decode(at).value.page;
                 r.next == if Misled(past, page, page + 4) then Some(Cursor(page + 4, 0)) else None
  {
    hide Rest, RestAt, HasMore, Pages, Leaves, Walking, Delivers, Decode, Accepted, ClampLimit;
    DecodeMeans(at);
    var cur := Decode(at);
    if cur == None {
      return BadCursor;
    }
    var limit := ClampLimit(wanted);
    var page, skip := cur.value.page, cur.value.skip;
    var items: seq<T> := [];
    var guard := 0;
    if page <= |up| {
      Starts(up, cur.value, limit);
    }
    while guard < 4
      invariant 0 <= guard <= 4 && page == cur.value.page + guard && 0 <= skip && |items| < limit
      invariant cur.value.page <= |up| ==> page <= |up| && Walking(up, cur.value, limit, items, Cursor(page, skip), guard)
      invariant cur.value.page > |up| ==> items == [] && Misled(past, cur.value.page, page)
    {
      if guard in broken {
        return UpstreamError;
      }
      ghost var here := Cursor(page, skip);
      var res := PageAt(up, past, page);
      var more := HasMore(res.header, page, |res.batch|);
      if skip > |res.batch| {
        skip := |res.batch|;
      }
      var batch := res.batch[skip..];
      assert batch == Drop(res.batch, here.skip);
      var take := limit - |items|;
      if |batch| > take {
        VisitPart(up, cur.value, limit, items, here, guard);
        items := items + batch[..take];
        return Fetched(items, Some(Cursor(page, skip + take)));
      }
      if page <= |up| {
        VisitWhole(up, cur.value, limit, items, here, guard);
      }
      items := items + batch;
      skip := 0;
      if !more {
        return Fetched(items, None);
      }
      page := page + 1;
      if |items| == limit {
        return Fetched(items, Some(Cursor(page, 0)));
      }
      guard := guard + 1;
    }
    if page <= |up| {
      FourPagesAreEnough(up, cur.value, limit, items, Cursor(page, skip));
    }
    return Fetched(items, Some(Cursor(page, 0)));
  }

  // The upstream listing, page after page.
  function AllItems<T>(up: seq<Response<T>>): seq<T> {
    if up == [] then [] else up[0].batch + AllItems(up[1..])
  }

  lemma {:induction false} RestIsAllItems<T>(up: seq<Response<T>>, page: int)
    requires 1 <= page <= |up| + 1
    ensures Rest(up, page, 0) == AllItems(up[page - 1..])
    decreases |up| - page
  {
    if page <= |up| {
      RestIsAllItems(up, page + 1);
      assert up[page - 1..][0] == up[page - 1] && up[page - 1..][1..] == up[page..];
    }
  }

  // A cursor handed out is taken back exactly when it is for one of the first MAX_PAGE pages.
  lemma NextIsAccepted<T>(up: seq<Response<T>>, c: Cursor)
    requires InRange(up, Some(c))
    ensures Accepted(c) <==> c.page <= MAX_PAGE
    ensures |up| <= MAX_PAGE ==> Decode(Some(c)) == Some(c)
  {
  }

  lemma Follow<T>(before: seq<T>, items: seq<T>, rest: seq<T>, all: seq<T>, from: seq<T>)
    requires before + from == all && items + rest == from
    ensures before + items + rest == all
  {
    Assoc(before, items, rest);
  }

  /**
   A client that follows the cursors from the first page, with any limit on each call. It gets each
   item of the listing once, in order, and it ends. A listing of at most 1000000 pages is got whole; one
   of more than 1000003 never is, because a cursor past page 1000000 is handed out and then refused.
   */
  method FollowCursors<T>(up: seq<Response<T>>, past: int -> Header, limits: nat -> int) returns (out: seq<T>, complete: bool)
    requires Pages(up)
    ensures out <= AllItems(up) && (complete ==> out == AllItems(up))
    ensures |up| <= 1_000_000 ==> complete
    ensures |up| > 1_000_003 ==> !complete
  {
    hide Rest, RestAt, HasMore, Pages, Leaves, FullPages;
    out, complete := [], true;
    var calls := 0;
    var at: Option<Cursor> := None;
    ListingStarts(up);
    ghost var all := RestAt(up, Decode(at));
    while true
      invariant InRange(up, at) && complete
      invariant Decode(at).Some? ==> InRange(up, Decode(at)) && out + RestAt(up, Decode(at)) == all
      invariant Decode(at).None? ==> |up| > MAX_PAGE && out <= all
      decreases if Decode(at).Some? then (MAX_PAGE + 1) * 51 - Rank(Decode(at).value) else -1
    {
      var r := FetchPaged(up, past, at, limits(calls), {});
      if r == BadCursor {
        complete := false;
        break;
      }
      LeavesMeans(up, r.items, r.next, RestAt(up, Decode(at)));
      Follow(out, r.items, RestAt(up, r.next), all, RestAt(up, Decode(at)));
      out := out + r.items;
      calls := calls + 1;
      if r.next == None {
        break;
      }
      NextIsAccepted(up, r.next.value);
      at := r.next;
    }
  }

  lemma {:induction false} ListingStarts<T>(up: seq<Response<T>>)
    requires Pages(up)
    ensures InRange(up, Decode(None)) && RestAt(up, Decode(None)) == AllItems(up)
  {
    RestIsAllItems(up, 1);
    assert up[0..] == up;
  }

  lemma LeavesMeans<T>(up: seq<Response<T>>, items: seq<T>, next: Option<Cursor>, all: seq<T>)
    requires Leaves(up, items, next, all)
    ensures InRange(up, next) && items + RestAt(up, next) == all && (next == None ==> items == all)
  {
  }

  const TEAM_CALLS := 100

  /**
   TeamMembers (internal/gitcore/admin.go): at most TEAM_CALLS calls of MAX_LIMIT members each. It
   returns the first members of the team, and when upstream fills its pages exactly the first 10000:
   the whole team if and only if it has no more than that.
   */
  method TeamMembers<T>(up: seq<Response<T>>, past: int -> Header, broken: nat -> set<int>) returns (out: Option<seq<T>>)
    requires Pages(up)
    ensures out == None ==> exists i, g :: 0 <= i < TEAM_CALLS && g in broken(i)
    ensures out.Some? ==> out.value <= AllItems(up)
    ensures out.Some? && FullPages(up) ==> |out.value| == Min(10_000, |AllItems(up)|)
  {
    hide Rest, RestAt, HasMore, Pages, Leaves, FullPages;
    var members: seq<T> := [];
    var at: Option<Cursor> := None;
    ListingStarts(up);
    ghost var all := RestAt(up, Decode(at));
    var i := 0;
    while i < TEAM_CALLS
      invariant 0 <= i <= TEAM_CALLS && (at.Some? ==> at.value.page <= 1 + 4 * i)
      invariant InRange(up, at) && InRange(up, Decode(at)) && Decode(at).Some?
      invariant members + RestAt(up, Decode(at)) == all
      invariant FullPages(up) ==> |members| == Min(i * 100, |all|)
    {
      var r := FetchPaged(up, past, at, MAX_LIMIT, broken(i));
      match r
      case BadCursor =>
        assert false;
      case UpstreamError =>
        return None;
      case Fetched(items, next) =>
        LeavesMeans(up, items, next, RestAt(up, Decode(at)));
        Follow(members, items, RestAt(up, next), all, RestAt(up, Decode(at)));
        members := members + items;
        if next == None {
          return Some(members);
        }
        NextIsAccepted(up, next.value);
        at := next;
        i := i + 1;
    }
    return Some(members);
  }

  // What a truthful server may put in the headers of page p of a list of n items.
  predicate Truthful(h: Header, n: nat, p: int) {
    && (h.linkNext ==> n > p * 50)
    && (h.total.Count? ==> h.total.n == n)
    && (h.hasMore.Some? ==> h.hasMore.value == (n > p * 50))
  }

  function PageOf<T>(list: seq<T>, p: int): seq<T>
    requires p >= 1
  {
    list[Min((p - 1) * 50, |list|)..Min(p * 50, |list|)]
  }

  // Pages p, p+1, ... of the list, until hasMore finds the last.
  function Served<T(!new)>(list: seq<T>, headers: int -> Header, p: int): seq<Response<T>>
    requires p >= 1 && forall q :: q >= 1 ==> Truthful(headers(q), |list|, q)
    decreases |list| + 1 - (p - 1) * 50
  {
    var r := Response(PageOf(list, p), headers(p));
    if HasMore(r.header, p, |r.batch|) then [r] + Served(list, headers, p + 1) else [r]
  }

  // Whichever headers the server uses on each page, the pages hold the list: no item twice, none missing.
  lemma {:induction false} ServedIsTheList<T(!new)>(list: seq<T>, headers: int -> Header, p: int)
    requires p >= 1 && forall q :: q >= 1 ==> Truthful(headers(q), |list|, q)
    ensures AllItems(Served(list, headers, p)) == list[Min((p - 1) * 50, |list|)..]
    ensures forall i :: 0 <= i < |Served(list, headers, p)| ==>
              var r := Served(list, headers, p)[i];
              && |r.batch| <= PAGE_SIZE && (HasMore(r.header, p + i, |r.batch|) <==> i + 1 < |Served(list, headers, p)|)
              && (i + 1 < |Served(list, headers, p)| ==> |r.batch| == PAGE_SIZE)
    decreases |list| + 1 - (p - 1) * 50
  {
    var r := Response(PageOf(list, p), headers(p));
    if HasMore(r.header, p, |r.batch|) {
      ServedIsTheList(list, headers, p + 1);
      var rest := Served(list, headers, p + 1);
      assert Served(list, headers, p)[1..] == rest;
      assert forall i :: 1 <= i < |rest| + 1 ==> Served(list, headers, p)[i] == rest[i - 1];
    } else {
      assert Served(list, headers, p) == [r];
    }
  }

  lemma {:induction false} ServerHasPages<T(!new)>(list: seq<T>, headers: int -> Header)
    requires forall q :: q >= 1 ==> Truthful(headers(q), |list|, q)
    ensures var up := Served(list, headers, 1);
            Pages(up) && FullPages(up) && AllItems(up) == list
  {
    ServedIsTheList(list, headers, 1);
  }
}
