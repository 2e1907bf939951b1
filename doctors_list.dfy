/** The patient's doctor directory: the page size chosen from the window
    width, the query parameters and cache key of the `GET /doctors` query,
    the page count, the numbered page buttons and the Prev/Next buttons. */
module DoctorsList {
  import opened Api
  import Types
  import Search

  /** The response of `GET /doctors`: one page of doctors and the total
      number of matching doctors. */
  datatype DirectoryBody = DirectoryBody(data: seq<Types.Doctor>, total: int)

  /* ---------------- responsive page size ---------------- */

  const WideBreakpoint: int := 1024
  const WideLimit: int := 12
  const NarrowLimit: int := 6

  /** `handleResize`: 12 doctors a page from 1024 pixels up, 6 below. */
  function LimitFor(innerWidth: int): (limit: int)
    ensures limit > 0
    ensures limit == WideLimit <==> innerWidth >= WideBreakpoint
    ensures limit == NarrowLimit <==> innerWidth < WideBreakpoint
  {
    if innerWidth >= WideBreakpoint then WideLimit else NarrowLimit
  }

  /** A wider window never shows fewer doctors a page. */
  lemma LimitMonotone(w1: int, w2: int)
    requires w1 <= w2
    ensures LimitFor(w1) <= LimitFor(w2)
  {
  }

  /* ---------------- URLSearchParams ---------------- */

  /** An ordered list of name/value pairs, as `URLSearchParams` keeps it. */
  type Params = seq<(string, ParamValue)>

  /** `params.get(name)`: the value of the first pair with that name. */
  function Get(params: Params, name: string): Option<ParamValue>
  {
    if params == [] then None
    else if params[0].0 == name then Some(params[0].1)
    else Get(params[1..], name)
  }

  /** `params.delete(name)`: every pair with that name removed. */
  function Delete(params: Params, name: string): (r: Params)
    ensures Get(r, name) == None
    ensures forall other :: other != name ==> Get(r, other) == Get(params, other)
    ensures |r| <= |params|
  {
    if params == [] then []
    else if params[0].0 == name then Delete(params[1..], name)
    else [params[0]] + Delete(params[1..], name)
  }

  /** `params.set(name, value)`: the first pair with that name takes the
      value and the others go; with no such pair, the pair is appended. */
  function Set(params: Params, name: string, value: ParamValue): (r: Params)
    ensures Get(r, name) == Some(value)
    ensures forall other :: other != name ==> Get(r, other) == Get(params, other)
    ensures Get(params, name) == None ==> r == params + [(name, value)]
  {
    if params == [] then [(name, value)]
    else if params[0].0 == name then [(name, value)] + Delete(params[1..], name)
    else [params[0]] + Set(params[1..], name, value)
  }

  /** Looking a name up in two lists joined: the first list wins. */
  lemma {:induction false} GetAppend(a: Params, b: Params, name: string)
    ensures Get(a + b, name) == if Get(a, name).Some? then Get(a, name) else Get(b, name)
  {
    if a == [] {
      assert a + b == b;
    } else {
      assert (a + b)[0] == a[0];
      assert (a + b)[1..] == a[1..] + b;
      GetAppend(a[1..], b, name);
    }
  }

  lemma GetOne(n1: string, v1: ParamValue, name: string)
    ensures Get([(n1, v1)], name) == if n1 == name then Some(v1) else None
  {
  }

  lemma GetTwo(n1: string, v1: ParamValue, n2: string, v2: ParamValue, name: string)
    ensures Get([(n1, v1), (n2, v2)], name)
            == if n1 == name then Some(v1) else if n2 == name then Some(v2) else None
  {
    assert [(n1, v1), (n2, v2)][1..] == [(n2, v2)];
    GetOne(n2, v2, name);
  }

  /** The parameters `fetchDoctors` sends: `page` and `limit` first, then
      `search` and `specialization` when they are non-empty. */
  function QueryPairs(page: int, limit: int, query: string, specialization: string): Params
  {
    [("page", Num(page)), ("limit", Num(limit))]
    + (if query != "" then [("search", Text(query))] else [])
    + (if specialization != "" then [("specialization", Text(specialization))] else [])
  }

  /** The names `fetchDoctors` may send. */
  const QueryNames: set<string> := {"page", "limit", "search", "specialization"}

  /** The value each name should have in the parameters. */
  function Expected(page: int, limit: int, query: string, specialization: string, name: string): Option<ParamValue>
  {
    if name == "page" then Some(Num(page))
    else if name == "limit" then Some(Num(limit))
    else if name == "search" && query != "" then Some(Text(query))
    else if name == "specialization" && specialization != "" then Some(Text(specialization))
    else None
  }

  /** What the server reads from those parameters: `page` and `limit`
      always, `search` and `specialization` exactly when non-empty, and no
      other name. */
  lemma {:induction false} QueryPairsLookups(page: int, limit: int, query: string, specialization: string)
    ensures var params := QueryPairs(page, limit, query, specialization);
            && Get(params, "page") == Some(Num(page))
            && Get(params, "limit") == Some(Num(limit))
            && Get(params, "search") == (if query != "" then Some(Text(query)) else None)
            && Get(params, "specialization") == (if specialization != "" then Some(Text(specialization)) else None)
            && forall name :: name !in QueryNames ==> Get(params, name) == None
  {
    var head: Params := [("page", Num(page)), ("limit", Num(limit))];
    var search: Params := if query != "" then [("search", Text(query))] else [];
    var spec: Params := if specialization != "" then [("specialization", Text(specialization))] else [];
    assert QueryPairs(page, limit, query, specialization) == (head + search) + spec;
    forall name ensures Get(QueryPairs(page, limit, query, specialization), name) == Expected(page, limit, query, specialization, name)
    {
      GetAppend(head + search, spec, name);
      GetAppend(head, search, name);
      GetTwo("page", Num(page), "limit", Num(limit), name);
      if query != "" { GetOne("search", Text(query), name); }
      if specialization != "" { GetOne("specialization", Text(specialization), name); }
    }
  }

  /** The parameters of `fetchDoctors`, built by `set` as the page builds
      them; each `set` appends, since no name repeats. */
  method BuildQuery(page: int, limit: int, query: string, specialization: string)
    returns (params: Params)
    ensures params == QueryPairs(page, limit, query, specialization)
    ensures Get(params, "search").Some? <==> query != ""
    ensures Get(params, "specialization").Some? <==> specialization != ""
  {
    params := [("page", Num(page)), ("limit", Num(limit))];
    GetTwo("page", Num(page), "limit", Num(limit), "search");
    if query != "" {
      params := Set(params, "search", Text(query));
    }
    QueryPairsLookups(page, limit, query, "");
    assert params == QueryPairs(page, limit, query, "");
    if specialization != "" {
      params := Set(params, "specialization", Text(specialization));
    }
    QueryPairsLookups(page, limit, query, specialization);
  }

  /* ---------------- cache key ---------------- */

  /** An element of a react-query key. */
  datatype KeyPart = KeyText(s: string) | KeyNum(n: int) | KeyNull

  /** `["doctors", page, limit, query, specialization]`. */
  function QueryKey(page: int, limit: Option<int>, query: string, specialization: string): (key: seq<KeyPart>)
    ensures |key| == 5 && key[0] == KeyText("doctors")
  {
    [KeyText("doctors"), KeyNum(page),
     if limit.Some? then KeyNum(limit.value) else KeyNull,
     KeyText(query), KeyText(specialization)]
  }

  /** Different page, limit, query or specialization give different cache
      keys, so any change of them runs a new query. */
  lemma QueryKeyInjective(page1: int, limit1: Option<int>, query1: string, spec1: string,
                          page2: int, limit2: Option<int>, query2: string, spec2: string)
    requires QueryKey(page1, limit1, query1, spec1) == QueryKey(page2, limit2, query2, spec2)
    ensures page1 == page2 && limit1 == limit2 && query1 == query2 && spec1 == spec2
  {
  }

  /* ---------------- page count and buttons ---------------- */

  /** `Math.ceil(total / limit)`, on integers. */
  function CeilDiv(total: int, limit: int): (pages: int)
    requires limit > 0
    ensures (pages - 1) * limit < total <= pages * limit
  {
    var q := (total + limit - 1) / limit;
    assert total + limit - 1 == q * limit + (total + limit - 1) % limit;
    q
  }

  /** `data ? Math.ceil(data.total / limit) : 1`: the number of pages. */
  function TotalPages(data: Option<DirectoryBody>, limit: int): (pages: int)
    requires limit > 0
    ensures data.None? ==> pages == 1
    ensures data.Some? ==> (pages - 1) * limit < data.value.total <= pages * limit
  {
    if data.Some? then CeilDiv(data.value.total, limit) else 1
  }

  /** `Array.from({ length: totalPages }, (_, i) => i + 1)`: the numbered
      page buttons (a length below 0 counts as 0). */
  function PageButtons(totalPages: int): (pages: seq<int>)
    ensures |pages| == if totalPages > 0 then totalPages else 0
    ensures forall i :: 0 <= i < |pages| ==> pages[i] == i + 1
    decreases totalPages
  {
    if totalPages <= 0 then [] else PageButtons(totalPages - 1) + [totalPages]
  }

  /** The buttons are exactly the pages 1..totalPages, ascending, each once. */
  lemma PageButtonsAreTheRange(totalPages: int)
    ensures forall p :: p in PageButtons(totalPages) <==> 1 <= p <= totalPages
    ensures forall i, j :: 0 <= i < j < |PageButtons(totalPages)| ==>
              PageButtons(totalPages)[i] < PageButtons(totalPages)[j]
  {
  }

  /* ---------------- Prev / Next ---------------- */

  /** Prev: disabled on page 1, otherwise `max(page - 1, 1)`. */
  function AfterPrev(page: int): (r: int)
    ensures r >= 1
    ensures page > 1 ==> r == page - 1
    ensures page <= 1 ==> r == 1
  {
    if page == 1 then page else if page - 1 > 1 then page - 1 else 1
  }

  /** Next: disabled on the last page, otherwise `min(page + 1, totalPages)`. */
  function AfterNext(page: int, totalPages: int): (r: int)
    ensures page == totalPages ==> r == page
    ensures page < totalPages ==> r == page + 1
    ensures page > totalPages ==> r == totalPages
  {
    if page == totalPages then page
    else if page + 1 < totalPages then page + 1 else totalPages
  }

  /** From a page in 1..totalPages, both buttons stay in 1..totalPages. */
  lemma MovesStayInRange(page: int, totalPages: int)
    requires 1 <= page <= totalPages
    ensures 1 <= AfterPrev(page) <= totalPages
    ensures 1 <= AfterNext(page, totalPages) <= totalPages
  {
  }

  /** An empty result (`total == 0`) gives 0 pages: no numbered button,
      but Next stays enabled on page 1 (`1 === 0` is false) and moves to
      `min(2, 0)`, page 0, which the next query sends. */
  lemma EmptyDirectoryNextReachesPageZero(limit: int)
    requires limit == WideLimit || limit == NarrowLimit
    ensures TotalPages(Some(DirectoryBody([], 0)), limit) == 0
    ensures PageButtons(0) == []
    ensures AfterNext(1, TotalPages(Some(DirectoryBody([], 0)), limit)) == 0
  {
  }

  /** The page count with at least one page: like the appointment lists,
      it falls back to 1 when the count is 0. */
  function TotalPagesAtLeastOne(data: Option<DirectoryBody>, limit: int): (pages: int)
    requires limit > 0
    ensures pages >= 1
    ensures data.None? ==> pages == 1
    ensures data.Some? && data.value.total > 0 ==> (pages - 1) * limit < data.value.total <= pages * limit
  {
    var n := TotalPages(data, limit);
    if n < 1 then 1 else n
  }

  /** With the corrected count, the first page is always in range and the
      buttons never leave 1..totalPages, whatever the response. */
  lemma CorrectedPagingStaysInRange(page: int, data: Option<DirectoryBody>, limit: int)
    requires limit > 0
    requires 1 <= page <= TotalPagesAtLeastOne(data, limit)
    ensures 1 <= TotalPagesAtLeastOne(data, limit)
    ensures 1 <= AfterPrev(page) <= TotalPagesAtLeastOne(data, limit)
    ensures 1 <= AfterNext(page, TotalPagesAtLeastOne(data, limit)) <= TotalPagesAtLeastOne(data, limit)
  {
  }

  /* ---------------- the page ---------------- */

  class DoctorsListPage {
    var page: int
    var limit: Option<int>
    var mounted: bool

    /** Once set, the page size is 12 or 6. */
    ghost predicate Valid()
      reads this
    {
      limit.None? || limit.value == WideLimit || limit.value == NarrowLimit
    }

    /** The first render gate: until the page is mounted and sized it shows
        only the "Loading..." placeholder, so the numbered buttons and
        Prev/Next exist only once this holds. */
    predicate ListShown()
      reads this
    {
      mounted && limit.Some?
    }

    constructor ()
      ensures Valid() && page == 1 && limit == None && !mounted
      ensures !ListShown()
    {
      page := 1;
      limit := None;
      mounted := false;
    }

    /** The resize listener. */
    method HandleResize(innerWidth: int)
      modifies this`limit
      ensures Valid() && limit == Some(LimitFor(innerWidth))
    {
      if innerWidth >= WideBreakpoint {
        limit := Some(WideLimit);
      } else {
        limit := Some(NarrowLimit);
      }
    }

    /** The mount effect: mark mounted and size the page once. */
    method Mount(innerWidth: int)
      modifies this`mounted, this`limit
      ensures Valid() && mounted && limit == Some(LimitFor(innerWidth))
      ensures ListShown()
    {
      mounted := true;
      HandleResize(innerWidth);
    }

    /** The query of the current render: its cache key and, when enabled,
        the parameters it fetches with. No fetch while `limit` is null. */
    method Query(store: Search.SearchStore) returns (key: seq<KeyPart>, request: Option<Params>)
      requires Valid()
      ensures key == QueryKey(page, limit, store.query, store.specialization)
      ensures request.Some? <==> limit.Some?
      ensures request.Some? ==>
                request.value == QueryPairs(page, limit.value, store.query, store.specialization)
      ensures request.Some? ==>
                Get(request.value, "limit") == Some(Num(WideLimit))
                || Get(request.value, "limit") == Some(Num(NarrowLimit))
    {
      key := QueryKey(page, limit, store.query, store.specialization);
      if limit.None? {
        return key, None;
      }
      var params := BuildQuery(page, limit.value, store.query, store.specialization);
      request := Some(params);
    }

    /** A click on numbered button `p`. */
    method SelectPage(p: int)
      requires ListShown()
      modifies this`page
      ensures ListShown() && page == p
    {
      page := p;
    }

    method ClickPrev()
      requires ListShown()
      modifies this`page
      ensures ListShown() && page == AfterPrev(old(page))
    {
      if page != 1 {
        page := if page - 1 > 1 then page - 1 else 1;
      }
    }

    /** `totalPages` is the count of the current render. */
    method ClickNext(totalPages: int)
      requires ListShown()
      modifies this`page
      ensures ListShown() && page == AfterNext(old(page), totalPages)
    {
      if page != totalPages {
        page := if page + 1 < totalPages then page + 1 else totalPages;
      }
    }
  }
}
