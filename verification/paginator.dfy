/**
 * `get_data_with_pagination(url, limit)`: follow the `pagination.next_url`
 * cursor of each JSON page, gathering the items under `data`, until a page has
 * no data, the gathered list reaches `limit`, or there is no cursor; return the
 * list cut to `limit`.  Nothing is caught, so an exception of the HTTP client,
 * of `json.loads` or of a lookup propagates to the caller; here it is an `Err`.
 */
module Paginator {
  import opened PyValue
  import opened Http

  /** The upstream service: what a GET of each URL returns. */
  type Upstream = string -> Response

  /**
   * The items a page contributes: none when `data.get('data', {})` is falsy
   * (absent, null, empty, zero), otherwise what `extend` takes from it.
   */
  function PageItems(doc: Json): (r: Result<seq<Json>>)
    ensures !doc.Obj? ==> r == Err(NoAttribute(TypeName(doc), "get"))
    ensures doc.Obj? && !HasKey(doc.fields, "data") ==> r == Ok([])
    ensures doc.Obj? ==>
      var data := Lookup(doc.fields, "data");
      (data.Some? && data.value.Arr? ==> r == Ok(data.value.items))
    ensures r.Ok? && r.value != [] ==>
      doc.Obj? && HasKey(doc.fields, "data") && Truthy(Lookup(doc.fields, "data").value)
  {
    var data :- Get(doc, "data", EmptyObj);
    if !Truthy(data) then Ok([]) else Iterate(data)
  }

  /**
   * Every case of a page's `data`: nothing when it is absent or falsy (null,
   * 0, "", empty), and otherwise what a `for` loop over it visits: the items
   * of a list, the characters of a str, the keys of a dict in first-occurrence
   * order; a truthy int or bool raises.
   */
  lemma PageItemsCases(doc: Json)
    ensures doc.Obj? && !Truthy(Field(doc, "data", EmptyObj)) ==> PageItems(doc) == Ok([])
    ensures doc.Obj? && Truthy(Field(doc, "data", EmptyObj)) ==>
      var data := Field(doc, "data", EmptyObj);
      var r := PageItems(doc);
      && (data.Arr? ==> r == Ok(data.items))
      && (data.Str? ==> r.Ok? && |r.value| == |data.s| && forall i :: 0 <= i < |data.s| ==> r.value[i] == Str([data.s[i]]))
      && (data.Obj? ==>
            && r.Ok? && |r.value| == |KeysAfter(data.fields, {})|
            && forall i :: 0 <= i < |r.value| ==> r.value[i] == Str(KeysAfter(data.fields, {})[i]))
      && (data.Int? || data.Bool? ==> r == Err(NotIterable(TypeName(data))))
  {
  }

  /**
   * `data.get('pagination', {}).get('next_url', None)` when it is truthy: the
   * URL of the next request.  A truthy cursor that is not a string makes that
   * next request raise.
   */
  function NextCursor(doc: Json): (r: Result<Option<string>>)
    ensures r.Ok? && r.value.Some? ==> r.value.value != ""
    ensures !doc.Obj? ==> r == Err(NoAttribute(TypeName(doc), "get"))
  {
    var pagination :- Get(doc, "pagination", EmptyObj);
    var next :- Get(pagination, "next_url", Null);
    if !Truthy(next) then Ok(None)
    else if next.Str? then Ok(Some(next.s))
    else Err(InvalidUrl(TypeName(next)))
  }

  /**
   * Every case of the cursor: the truthy string under `pagination.next_url`;
   * none when that is missing or falsy; an AttributeError when `pagination` is
   * not a dict; the client's TypeError for a truthy non-string.
   */
  lemma NextCursorCases(doc: Json)
    ensures doc.Obj? ==>
      var pagination := Field(doc, "pagination", EmptyObj);
      var r := NextCursor(doc);
      && (!pagination.Obj? ==> r == Err(NoAttribute(TypeName(pagination), "get")))
      && (pagination.Obj? ==>
            var next := Field(pagination, "next_url", Null);
            && (!Truthy(next) ==> r == Ok(None))
            && (Truthy(next) && next.Str? ==> r == Ok(Some(next.s)))
            && (Truthy(next) && !next.Str? ==> r == Err(InvalidUrl(TypeName(next)))))
  {
  }

  /** The items of several pages, in order. */
  function Concat(pages: seq<seq<Json>>): seq<Json>
  {
    if pages == [] then [] else pages[0] + Concat(pages[1..])
  }

  /**
   * A run of the loop: the URLs requested, the items each fully read page
   * contributed, and what the loop ends with (the gathered items, or the
   * exception that ended it).
   */
  datatype Walk = Walk(requested: seq<string>, pages: seq<seq<Json>>, outcome: Result<seq<Json>>)

  /** How many more rounds the loop can make with `acc` gathered. */
  function Room(limit: int, acc: seq<Json>): nat
  {
    if |acc| < limit then limit - |acc| else 0
  }

  /** The rest of the loop when the next request goes to `url` and `acc` is gathered. */
  function Continue(fetch: Upstream, url: string, limit: int, acc: seq<Json>): (w: Walk)
    decreases Room(limit, acc)
    ensures w.requested == [] <==> |acc| >= limit
    ensures w.requested != [] ==> w.requested[0] == url
    ensures |w.requested| <= Room(limit, acc)
    ensures |w.pages| <= |w.requested|
    ensures w.outcome.Ok? ==> |w.pages| == |w.requested| && w.outcome.value == acc + Concat(w.pages)
    ensures forall i :: 0 <= i < |w.pages| - 1 ==> w.pages[i] != []
  {
    if |acc| >= limit then Walk([], [], Ok(acc))
    else
      match Load(fetch(url))
      case Err(f) => Walk([url], [], Err(f))
      case Ok(doc) =>
        match PageItems(doc)
        case Err(f) => Walk([url], [], Err(f))
        case Ok(items) =>
          if items == [] then Walk([url], [[]], Ok(acc))
          else if |acc + items| >= limit then Walk([url], [items], Ok(acc + items))
          else
            match NextCursor(doc)
            case Err(f) => Walk([url], [items], Err(f))
            case Ok(None) => Walk([url], [items], Ok(acc + items))
            case Ok(Some(next)) =>
              var w := Continue(fetch, next, limit, acc + items);
              PrependPage(acc, items, w);
              Walk([url] + w.requested, [items] + w.pages, w.outcome)
  }

  /** What a run gathers once a non-empty page is put before the rest of it. */
  lemma PrependPage(acc: seq<Json>, items: seq<Json>, w: Walk)
    requires items != []
    requires w.outcome.Ok? ==> w.outcome.value == acc + items + Concat(w.pages)
    requires forall i :: 0 <= i < |w.pages| - 1 ==> w.pages[i] != []
    ensures w.outcome.Ok? ==> w.outcome.value == acc + Concat([items] + w.pages)
    ensures forall i :: 0 <= i < |w.pages| ==> ([items] + w.pages)[i + 1] == w.pages[i]
    ensures forall i :: 0 <= i < |w.pages| ==> ([items] + w.pages)[i] != []
  {
    assert ([items] + w.pages)[1..] == w.pages;
    forall i | 0 <= i < |w.pages| ensures ([items] + w.pages)[i] != [] {
      if i > 0 {
        assert ([items] + w.pages)[i] == w.pages[i - 1];
      }
    }
  }

  /** One round of the loop, as the method takes it apart. */
  lemma ContinueOnce(fetch: Upstream, url: string, limit: int, acc: seq<Json>)
    requires |acc| < limit
    ensures
      var w := Continue(fetch, url, limit, acc);
      var data := Load(fetch(url));
      && (data.Err? ==> w == Walk([url], [], Err(data.fault)))
      && (data.Ok? ==>
            var items := PageItems(data.value);
            && (items.Err? ==> w == Walk([url], [], Err(items.fault)))
            && (items.Ok? && items.value == [] ==> w == Walk([url], [[]], Ok(acc)))
            && (items.Ok? && items.value != [] && |acc + items.value| >= limit ==>
                  w == Walk([url], [items.value], Ok(acc + items.value)))
            && (items.Ok? && items.value != [] && |acc + items.value| < limit ==>
                  var cursor := NextCursor(data.value);
                  && (cursor.Err? ==> w == Walk([url], [items.value], Err(cursor.fault)))
                  && (cursor.Ok? && cursor.value.None? ==> w == Walk([url], [items.value], Ok(acc + items.value)))
                  && (cursor.Ok? && cursor.value.Some? ==>
                        w == Joined([url], [items.value], Continue(fetch, cursor.value.value, limit, acc + items.value)))))
  {
  }

  /** A round whose request, decoding or `data` lookup raises ends the run with that exception. */
  lemma RoundFails(fetch: Upstream, url: string, limit: int, acc: seq<Json>)
    requires |acc| < limit
    requires Load(fetch(url)).Ok? ==> PageItems(Load(fetch(url)).value).Err?
    ensures Load(fetch(url)).Err? ==> Continue(fetch, url, limit, acc) == Walk([url], [], Err(Load(fetch(url)).fault))
    ensures Load(fetch(url)).Ok? ==>
      Continue(fetch, url, limit, acc) == Walk([url], [], Err(PageItems(Load(fetch(url)).value).fault))
  {
  }

  /** A round whose page has no items ends the run with what was gathered. */
  lemma RoundEmpty(fetch: Upstream, url: string, limit: int, acc: seq<Json>)
    requires |acc| < limit && Load(fetch(url)).Ok? && PageItems(Load(fetch(url)).value) == Ok([])
    ensures Continue(fetch, url, limit, acc) == Walk([url], [[]], Ok(acc))
  {
  }

  /** A round whose items reach `limit` ends the run with them. */
  lemma RoundFull(fetch: Upstream, url: string, limit: int, acc: seq<Json>)
    requires |acc| < limit && Load(fetch(url)).Ok? && PageItems(Load(fetch(url)).value).Ok?
    requires PageItems(Load(fetch(url)).value).value != []
    requires |acc + PageItems(Load(fetch(url)).value).value| >= limit
    ensures var items := PageItems(Load(fetch(url)).value).value;
      Continue(fetch, url, limit, acc) == Walk([url], [items], Ok(acc + items))
  {
  }

  /** A round below `limit` whose cursor is missing or raises ends the run there. */
  lemma RoundLast(fetch: Upstream, url: string, limit: int, acc: seq<Json>)
    requires |acc| < limit && Load(fetch(url)).Ok? && PageItems(Load(fetch(url)).value).Ok?
    requires PageItems(Load(fetch(url)).value).value != []
    requires |acc + PageItems(Load(fetch(url)).value).value| < limit
    requires NextCursor(Load(fetch(url)).value) != Ok(None) ==> NextCursor(Load(fetch(url)).value).Err?
    ensures var doc := Load(fetch(url)).value;
      var items := PageItems(doc).value;
      && (NextCursor(doc) == Ok(None) ==> Continue(fetch, url, limit, acc) == Walk([url], [items], Ok(acc + items)))
      && (NextCursor(doc).Err? ==> Continue(fetch, url, limit, acc) == Walk([url], [items], Err(NextCursor(doc).fault)))
  {
  }

  /** Python's `xs[:limit]`: a negative bound counts from the end. */
  function SliceList(xs: seq<Json>, limit: int): (r: seq<Json>)
    ensures limit >= 0 ==> r == xs[..Min(limit, |xs|)]
    ensures limit < 0 ==> r == xs[..if |xs| + limit > 0 then |xs| + limit else 0]
  {
    if limit >= 0 then xs[..Min(limit, |xs|)]
    else xs[..if |xs| + limit > 0 then |xs| + limit else 0]
  }

  /** The whole call `get_data_with_pagination(url, limit)`. */
  function Paginate(fetch: Upstream, url: string, limit: int := 5): Walk
  {
    var w := Continue(fetch, url, limit, []);
    Walk(w.requested, w.pages,
         match w.outcome
         case Ok(acc) => Ok(SliceList(acc, limit))
         case Err(f) => Err(f))
  }

  function Max0(limit: int): nat { if limit > 0 then limit else 0 }

  /**
   * What a call returns and costs: at most `limit` requests, none at all when
   * `limit <= 0`, and on success the first `min(limit, n)` of the `n` items the
   * fetched pages held, in page order.
   */
  lemma PaginateGathers(fetch: Upstream, url: string, limit: int)
    ensures var w := Paginate(fetch, url, limit);
      && |w.requested| <= Max0(limit)
      && (limit <= 0 ==> w == Walk([], [], Ok([])))
      && (limit > 0 ==> w.requested[0] == url)
      && (w.outcome.Ok? ==>
            var all := Concat(w.pages);
            && |w.pages| == |w.requested|
            && w.outcome.value == all[..Min(Max0(limit), |all|)]
            && |w.outcome.value| <= Max0(limit))
  {
    var w := Continue(fetch, url, limit, []);
    if w.outcome.Ok? {
      assert w.outcome.value == Concat(w.pages);
    }
  }

  /** The page `url` serves, as the loop reads it. */
  function PageAt(fetch: Upstream, url: string): Result<seq<Json>>
  {
    var doc :- Load(fetch(url));
    PageItems(doc)
  }

  /** The cursor of the page `url` serves. */
  function CursorAt(fetch: Upstream, url: string): Result<Option<string>>
  {
    var doc :- Load(fetch(url));
    NextCursor(doc)
  }

  /**
   * A run follows the cursors: each recorded page is what its URL served,
   * each request after the first goes to the cursor of the page before it, and
   * every page that led to another request had items.
   */
  ghost predicate FollowsCursors(fetch: Upstream, w: Walk)
  {
    && |w.pages| <= |w.requested|
    && (forall i :: 0 <= i < |w.pages| ==> PageAt(fetch, w.requested[i]) == Ok(w.pages[i]))
    && (forall i :: 0 <= i < |w.requested| - 1 ==> LeadsOn(fetch, w, i))
  }

  /** Request `i` of a run served a page with items whose cursor is request `i + 1`. */
  ghost predicate LeadsOn(fetch: Upstream, w: Walk, i: nat)
    requires i + 1 < |w.requested|
  {
    i < |w.pages| && w.pages[i] != [] && CursorAt(fetch, w.requested[i]) == Ok(Some(w.requested[i + 1]))
  }

  /** The round that leads to another request. */
  lemma ContinueFollows(fetch: Upstream, url: string, limit: int, acc: seq<Json>,
                        doc: Json, items: seq<Json>, next: string)
    requires |acc| < limit && Load(fetch(url)) == Ok(doc)
    requires PageItems(doc) == Ok(items) && items != [] && |acc + items| < limit
    requires NextCursor(doc) == Ok(Some(next))
    ensures Continue(fetch, url, limit, acc) == Joined([url], [items], Continue(fetch, next, limit, acc + items))
  {
  }

  /** Putting a page that leads to the start of a run before it keeps the run following its cursors. */
  lemma FollowsCursorsCons(fetch: Upstream, url: string, items: seq<Json>, rest: Walk)
    requires FollowsCursors(fetch, rest) && rest.requested != []
    requires items != [] && PageAt(fetch, url) == Ok(items)
    requires CursorAt(fetch, url) == Ok(Some(rest.requested[0]))
    ensures FollowsCursors(fetch, Joined([url], [items], rest))
  {
    var w := Joined([url], [items], rest);
    forall i | 0 <= i < |w.pages|
      ensures PageAt(fetch, w.requested[i]) == Ok(w.pages[i])
    {
      if i > 0 {
        assert w.pages[i] == rest.pages[i - 1] && w.requested[i] == rest.requested[i - 1];
      }
    }
    forall i | 0 <= i < |w.requested| - 1
      ensures LeadsOn(fetch, w, i)
    {
      if i > 0 {
        assert w.requested[i + 1] == rest.requested[i];
        assert w.requested[i] == rest.requested[i - 1];
        assert w.pages[i] == rest.pages[i - 1];
        assert LeadsOn(fetch, rest, i - 1);
      }
    }
  }

  lemma {:induction false} ContinueFollowsCursors(fetch: Upstream, url: string, limit: int, acc: seq<Json>)
    ensures FollowsCursors(fetch, Continue(fetch, url, limit, acc))
    decreases Room(limit, acc)
  {
    var w := Continue(fetch, url, limit, acc);
    if |acc| < limit {
      var data := Load(fetch(url));
      if data.Ok? {
        var items := PageItems(data.value);
        if items.Ok? && items.value != [] && |acc + items.value| < limit {
          var cursor := NextCursor(data.value);
          if cursor.Ok? && cursor.value.Some? {
            var next := cursor.value.value;
            ContinueFollows(fetch, url, limit, acc, data.value, items.value, next);
            ContinueFollowsCursors(fetch, next, limit, acc + items.value);
            FollowsCursorsCons(fetch, url, items.value, Continue(fetch, next, limit, acc + items.value));
            return;
          }
        }
      }
      assert |w.requested| == 1 && w.requested[0] == url;
      assert w.pages != [] ==> PageAt(fetch, url) == Ok(w.pages[0]);
    }
  }

  /**
   * Request `i` of a run led on only while the items gathered up to and
   * including its page stayed below `limit`.
   */
  ghost predicate LeadsUnder(limit: int, acc: seq<Json>, w: Walk, i: nat)
    requires i + 1 < |w.requested|
  {
    i < |w.pages| && |acc + Concat(w.pages[..i + 1])| < limit
  }

  /** A run stops once the gathered list reaches `limit`: no page that brought it there leads on. */
  ghost predicate StopsAtLimit(limit: int, acc: seq<Json>, w: Walk)
  {
    forall i :: 0 <= i < |w.requested| - 1 ==> LeadsUnder(limit, acc, w, i)
  }

  /** The items of a page followed by those of more pages. */
  lemma ConcatCons(p: seq<Json>, pages: seq<seq<Json>>)
    ensures Concat([p] + pages) == p + Concat(pages)
  {
    assert ([p] + pages)[1..] == pages;
  }

  /** Every request after the first comes from a page that left the gathered list below `limit`. */
  lemma {:induction false} ContinueStopsAtLimit(fetch: Upstream, url: string, limit: int, acc: seq<Json>)
    ensures StopsAtLimit(limit, acc, Continue(fetch, url, limit, acc))
    decreases Room(limit, acc)
  {
    if |acc| < limit && Proceeds(fetch, url, limit, acc) {
      var doc := Load(fetch(url)).value;
      var items := PageItems(doc).value;
      var next := NextCursor(doc).value.value;
      ContinueFollows(fetch, url, limit, acc, doc, items, next);
      ContinueStopsAtLimit(fetch, next, limit, acc + items);
      StopsAtLimitCons(limit, acc, url, items, Continue(fetch, next, limit, acc + items));
    } else if |acc| < limit {
      ContinueOnce(fetch, url, limit, acc);
    }
  }

  /** Putting a page that keeps the list below `limit` before a run that stops at the limit. */
  lemma StopsAtLimitCons(limit: int, acc: seq<Json>, url: string, items: seq<Json>, rest: Walk)
    requires |acc + items| < limit && |rest.pages| <= |rest.requested|
    requires StopsAtLimit(limit, acc + items, rest)
    ensures StopsAtLimit(limit, acc, Joined([url], [items], rest))
  {
    var w := Joined([url], [items], rest);
    forall i | 0 <= i < |w.requested| - 1
      ensures LeadsUnder(limit, acc, w, i)
    {
      if i == 0 {
        assert w.pages[..1] == [items];
        ConcatCons(items, []);
      } else {
        assert LeadsUnder(limit, acc + items, rest, i - 1);
        assert w.pages[..i + 1] == [items] + rest.pages[..i];
        ConcatCons(items, rest.pages[..i]);
        assert acc + Concat(w.pages[..i + 1]) == acc + items + Concat(rest.pages[..i]);
      }
    }
  }

  /** The page at `url` has items, leaves room under `limit` and has a cursor: the loop goes on. */
  predicate Proceeds(fetch: Upstream, url: string, limit: int, acc: seq<Json>)
  {
    var data := Load(fetch(url));
    && data.Ok?
    && PageItems(data.value).Ok? && PageItems(data.value).value != []
    && |acc + PageItems(data.value).value| < limit
    && NextCursor(data.value).Ok? && NextCursor(data.value).value.Some?
  }

  /** Why a run stops when it ends normally: see `ContinueStops`. */
  ghost predicate StopsForCause(fetch: Upstream, limit: int, w: Walk)
  {
    w.outcome.Ok? && w.requested != [] && |w.pages| == |w.requested| ==>
      var last := |w.requested| - 1;
      || w.pages[last] == []
      || |w.outcome.value| >= limit
      || CursorAt(fetch, w.requested[last]) == Ok(None)
  }

  /**
   * Why a run that ends normally stops: its last page had no data, or the
   * items reached `limit`, or that page had no cursor.
   */
  lemma {:induction false} ContinueStops(fetch: Upstream, url: string, limit: int, acc: seq<Json>)
    ensures StopsForCause(fetch, limit, Continue(fetch, url, limit, acc))
    decreases Room(limit, acc)
  {
    if |acc| < limit {
      if Proceeds(fetch, url, limit, acc) {
        var doc := Load(fetch(url)).value;
        var items := PageItems(doc).value;
        var next := NextCursor(doc).value.value;
        ContinueStops(fetch, next, limit, acc + items);
        StopsAfterFirst(fetch, url, limit, acc, doc, items, next);
      } else {
        StopsAtFirst(fetch, url, limit, acc);
      }
    }
  }

  /** A run whose first page leads on stops for the cause the rest of it stops for. */
  lemma StopsAfterFirst(fetch: Upstream, url: string, limit: int, acc: seq<Json>,
                        doc: Json, items: seq<Json>, next: string)
    requires |acc| < limit && Load(fetch(url)) == Ok(doc)
    requires PageItems(doc) == Ok(items) && items != [] && |acc + items| < limit
    requires NextCursor(doc) == Ok(Some(next))
    requires StopsForCause(fetch, limit, Continue(fetch, next, limit, acc + items))
    ensures StopsForCause(fetch, limit, Continue(fetch, url, limit, acc))
  {
    ContinueFollows(fetch, url, limit, acc, doc, items, next);
    var rest := Continue(fetch, next, limit, acc + items);
    if rest.outcome.Ok? {
      JoinedLast(url, items, rest);
    }
  }

  /** A run whose first page does not lead on stops for one of the causes. */
  lemma StopsAtFirst(fetch: Upstream, url: string, limit: int, acc: seq<Json>)
    requires |acc| < limit && !Proceeds(fetch, url, limit, acc)
    ensures StopsForCause(fetch, limit, Continue(fetch, url, limit, acc))
  {
    ContinueOnce(fetch, url, limit, acc);
  }

  /** The last request and page of a run that a page is put before are those of the rest. */
  lemma JoinedLast(url: string, items: seq<Json>, rest: Walk)
    requires rest.requested != [] && |rest.pages| == |rest.requested|
    ensures var w := Joined([url], [items], rest);
      var last := |w.requested| - 1;
      && w.requested[last] == rest.requested[|rest.requested| - 1]
      && w.pages[last] == rest.pages[|rest.pages| - 1]
      && w.outcome == rest.outcome
  {
  }

  /** The requests and pages of one part of a run followed by those of the rest. */
  function Joined(requested: seq<string>, pages: seq<seq<Json>>, rest: Walk): Walk
  {
    Walk(requested + rest.requested, pages + rest.pages, rest.outcome)
  }

  lemma {:induction false} JoinedAssoc(requested: seq<string>, pages: seq<seq<Json>>, url: string, page: seq<Json>, rest: Walk)
    ensures Joined(requested, pages, Joined([url], [page], rest)) == Joined(requested + [url], pages + [page], rest)
  {
    assert requested + ([url] + rest.requested) == requested + [url] + rest.requested;
    assert pages + ([page] + rest.pages) == pages + [page] + rest.pages;
  }

  /**
   * The loop as the source writes it: `data_list` grows by `extend`, `url` is
   * reassigned from each page's cursor, and the loop ends by `break` or by an
   * exception.  `requested` records the URLs fetched, for the statement of cost.
   */
  method GetDataWithPagination(fetch: Upstream, url: string, limit: int := 5)
    returns (r: Result<seq<Json>>, ghost requested: seq<string>)
    ensures r == Paginate(fetch, url, limit).outcome
    ensures requested == Paginate(fetch, url, limit).requested
  {
    ghost var whole := Continue(fetch, url, limit, []);
    ghost var pages: seq<seq<Json>> := [];
    requested := [];
    var dataList: seq<Json> := [];
    var next := url;
    while |dataList| < limit
      invariant whole == Joined(requested, pages, Continue(fetch, next, limit, dataList))
      decreases limit - |dataList|
    {
      ghost var requestedBefore, pagesBefore, gathered := requested, pages, dataList;
      requested := requested + [next];
      var data := Load(fetch(next));
      if data.Err? {
        RoundFails(fetch, next, limit, dataList);
        r := Err(data.fault);
        return;
      }
      var items := PageItems(data.value);
      if items.Err? {
        RoundFails(fetch, next, limit, dataList);
        r := Err(items.fault);
        return;
      }
      if items.value == [] {
        RoundEmpty(fetch, next, limit, dataList);
        pages := pages + [[]];
        break;
      }
      dataList := dataList + items.value;
      pages := pages + [items.value];
      if |dataList| >= limit {
        RoundFull(fetch, next, limit, gathered);
        break;
      }
      var cursor := NextCursor(data.value);
      if cursor.Err? {
        RoundLast(fetch, next, limit, gathered);
        r := Err(cursor.fault);
        return;
      }
      if cursor.value.None? {
        RoundLast(fetch, next, limit, gathered);
        break;
      }
      ContinueFollows(fetch, next, limit, gathered, data.value, items.value, cursor.value.value);
      JoinedAssoc(requestedBefore, pagesBefore, next, items.value, Continue(fetch, cursor.value.value, limit, dataList));
      next := cursor.value.value;
    }
    r := Ok(SliceList(dataList, limit));
  }
}

/** The two examples of the paginator's behaviour, on a made-up upstream. */
module PaginatorExamples {
  import opened PyValue
  import opened Http
  import opened Paginator

  /** Page "p1" holds three items and points to "p2"; "p2" holds four and no cursor. */
  function TwoPages(url: string): Response
  {
    if url == "p1" then
      Answered(200, Parsed(Obj([("data", Arr([Int(1), Int(2), Int(3)])),
                                ("pagination", Obj([("next_url", Str("p2"))]))])))
    else
      Answered(200, Parsed(Obj([("data", Arr([Int(4), Int(5), Int(6), Int(7)]))])))
  }

  /** With the default limit of five. */
  lemma TwoPagesLimitFive()
    ensures Paginate(TwoPages, "p1") ==
      Walk(["p1", "p2"], [[Int(1), Int(2), Int(3)], [Int(4), Int(5), Int(6), Int(7)]],
           Ok([Int(1), Int(2), Int(3), Int(4), Int(5)]))
  {
    var p1 := [Int(1), Int(2), Int(3)];
    var p2 := [Int(4), Int(5), Int(6), Int(7)];
    var doc1 := Load(TwoPages("p1")).value;
    assert PageItems(doc1) == Ok(p1);
    assert NextCursor(doc1) == Ok(Some("p2"));
    assert PageItems(Load(TwoPages("p2")).value) == Ok(p2);
    var rest := Continue(TwoPages, "p2", 5, p1);
    assert rest == Walk(["p2"], [p2], Ok(p1 + p2));
    ContinueFollows(TwoPages, "p1", 5, [], doc1, p1, "p2");
    assert [] + p1 == p1;
    assert Continue(TwoPages, "p1", 5, []) == Joined(["p1"], [p1], rest);
    assert (p1 + p2)[..5] == [Int(1), Int(2), Int(3), Int(4), Int(5)];
  }

  /** A single page without data and without a cursor. */
  function EmptyPage(url: string): Response
  {
    Answered(200, Parsed(Obj([("data", Arr([]))])))
  }

  lemma EmptyPageStops()
    ensures Paginate(EmptyPage, "p") == Walk(["p"], [[]], Ok([]))
  {
    assert PageItems(Load(EmptyPage("p")).value) == Ok([]);
  }
}
