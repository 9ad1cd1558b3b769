/**
 * The employee listing page (src/containers/employees/employee-listing/employee-listing.jsx).
 * Its filter, sort and page state lives in the URL's query string; every user action rewrites
 * the query string through one updater, and the fetch parameters are read back from it.
 */
module EmployeeListing {
  import opened Wrappers
  import opened Js
  import Text
  import opened SearchParams
  import opened ApiHandler
  import Browser

  /** What an update leaves under its key: nothing for a blank value, else String(value). */
  function Expected(v: Value): Option<string> {
    if IsBlank(v) then None else Some(ToJsString(v))
  }

  /** One `[key, value]` of `Object.entries(updates)` applied to the params. */
  function ApplyEntry(ps: Params, e: Entry): Params {
    if IsBlank(e.value) then Delete(ps, e.key) else Set(ps, e.key, ToJsString(e.value))
  }

  /** The entries applied in order. */
  function ApplyEntries(ps: Params, es: seq<Entry>): Params
    decreases |es|
  {
    if es == [] then ps else ApplyEntry(ApplyEntries(ps, es[..|es| - 1]), es[|es| - 1])
  }

  /** The query string updateSearchParams(updates) produces from prev. */
  function NextParams(prev: Params, updates: seq<Entry>): Params {
    var applied := ApplyEntries(prev, updates);
    if !Truthy(Lookup(updates, "page")) then Set(applied, "page", "1") else applied
  }

  /** The functional updater updateSearchParams hands to setSearchParams. */
  method Updater(prev: Params, updates: seq<Entry>) returns (next: Params)
    ensures next == NextParams(prev, updates)
  {
    next := prev;
    for i := 0 to |updates|
      invariant next == ApplyEntries(prev, updates[..i])
    {
      assert updates[..i + 1][..i] == updates[..i];
      var e := updates[i];
      if IsBlank(e.value) {
        next := Delete(next, e.key);
      } else {
        next := Set(next, e.key, ToJsString(e.value));
      }
    }
    assert updates[..|updates|] == updates;
    if !Truthy(Lookup(updates, "page")) {
      next := Set(next, "page", "1");
    }
  }

  lemma ApplyEntryGet(ps: Params, e: Entry, key: string)
    ensures Get(ApplyEntry(ps, e), key) == if e.key == key then Expected(e.value) else Get(ps, key)
  {
    if IsBlank(e.value) {
      GetDelete(ps, e.key, key);
    } else {
      GetSet(ps, e.key, ToJsString(e.value), key);
    }
  }

  /**
   * Every key named in the update reads back as its update (absent for null, '' and undefined,
   * else String(value)); every other key keeps its value.
   */
  lemma {:induction false} ApplyEntriesGet(ps: Params, es: seq<Entry>, key: string)
    requires DistinctKeys(es)
    ensures Get(ApplyEntries(ps, es), key) ==
      if HasKey(es, key) then Expected(Lookup(es, key)) else Get(ps, key)
    decreases |es|
  {
    if es != [] {
      var init, last := es[..|es| - 1], es[|es| - 1];
      assert es == init + [last];
      ApplyEntriesGet(ps, init, key);
      ApplyEntryGet(ApplyEntries(ps, init), last, key);
      LookupConcat(init, [last], key);
      HasKeyCons([last], key);
    }
  }

  /**
   * The whole update: as ApplyEntriesGet, except that page reads "1" whenever the update has no
   * truthy page, and a truthy page is stored as its string.
   */
  lemma NextParamsGet(prev: Params, updates: seq<Entry>, key: string)
    requires DistinctKeys(updates)
    ensures Get(NextParams(prev, updates), key) ==
      if key == "page" && !Truthy(Lookup(updates, "page")) then Some("1")
      else if HasKey(updates, key) then Expected(Lookup(updates, key))
      else Get(prev, key)
    ensures key == "page" && Truthy(Lookup(updates, "page")) ==>
      Get(NextParams(prev, updates), key) == Some(ToJsString(Lookup(updates, "page")))
  {
    var applied := ApplyEntries(prev, updates);
    ApplyEntriesGet(prev, updates, key);
    if !Truthy(Lookup(updates, "page")) {
      GetSet(applied, "page", "1", key);
    }
  }

  /** The listing state as the page reads it from the query string. */
  datatype ListingState = ListingState(
    page: int,
    search: string,
    designation: Option<string>,
    department: Option<string>,
    sortBy: Option<string>,
    sortOrder: Option<string>)

  /** `searchParams.get(key) || null` */
  function OrNull(v: Option<string>): (r: Option<string>)
    ensures r.Some? <==> v.Some? && v.value != ""
    ensures r.Some? ==> r == v
  {
    if v.Some? && v.value != "" then v else None
  }

  /** `Number(searchParams.get('page')) || 1`, where Number(null) is 0. */
  function PageOf(v: Option<string>): (r: int)
    ensures r != 0
    ensures v.None? ==> r == 1
    ensures v.Some? && Text.ParseInteger(v.value).None? ==> r == 1
    ensures v.Some? && Text.ParseInteger(v.value).Some? && Text.ParseInteger(v.value).value != 0 ==>
      r == Text.ParseInteger(v.value).value
    ensures v.Some? && Text.ParseInteger(v.value) == Some(0) ==> r == 1
  {
    var n := if v.None? then Some(0) else Text.ParseInteger(v.value);
    if n.Some? && n.value != 0 then n.value else 1
  }

  function ReadState(ps: Params): (r: ListingState)
    ensures r.page == PageOf(Get(ps, "page"))
    ensures Get(ps, "search").Some? ==> r.search == Get(ps, "search").value
    ensures Get(ps, "search").None? ==> r.search == ""
    ensures r.designation == OrNull(Get(ps, "designation")) && r.department == OrNull(Get(ps, "department"))
    ensures r.sortBy == OrNull(Get(ps, "sortBy")) && r.sortOrder == OrNull(Get(ps, "sortOrder"))
    ensures r.designation != Some("") && r.department != Some("") && r.sortBy != Some("") && r.sortOrder != Some("")
  {
    var search := Get(ps, "search");
    ListingState(
      PageOf(Get(ps, "page")),
      if search.Some? then search.value else "",
      OrNull(Get(ps, "designation")),
      OrNull(Get(ps, "department")),
      OrNull(Get(ps, "sortBy")),
      OrNull(Get(ps, "sortOrder")))
  }

  /** The page size the listing asks the server for. */
  const FetchLimit := 10

  function TextOf(v: Option<string>): string {
    if v.Some? then v.value else ""
  }

  /** `...(value && { key: value })`: the property only when the value is non-empty. */
  function Optional(key: string, value: string): seq<Entry> {
    if value != "" then [Entry(key, Str(value))] else []
  }

  /** The filter value the request carries under key, "" when it carries none. */
  function Requested(st: ListingState, debouncedSearch: string, key: string): string {
    if key == "search" then debouncedSearch
    else if key == "designation" then TextOf(st.designation)
    else if key == "department" then TextOf(st.department)
    else if key == "sortBy" then TextOf(st.sortBy)
    else if key == "sortOrder" then TextOf(st.sortOrder)
    else ""
  }

  /**
   * The params object fetchEmployees passes to getData: page and limit, then at most the five
   * filters, and no property name twice.
   */
  function FetchParams(st: ListingState, debouncedSearch: string): (r: seq<Entry>)
    ensures 2 <= |r| <= 7
    ensures DistinctKeys(r)
  {
    var r := [Entry("page", Num(st.page)), Entry("limit", Num(FetchLimit))] + Filters(st, debouncedSearch);
    ParamsDistinct(st, debouncedSearch);
    r
  }

  /** The optional part of the params object, in the order the source spreads it. */
  function Filters(st: ListingState, debouncedSearch: string): seq<Entry> {
    Optional("search", debouncedSearch)
      + Optional("designation", TextOf(st.designation))
      + Optional("department", TextOf(st.department))
      + Optional("sortBy", TextOf(st.sortBy))
      + Optional("sortOrder", TextOf(st.sortOrder))
  }

  /** Putting an optional property whose name is not yet used in front keeps the names distinct. */
  lemma OptionalPrepend(k: string, value: string, y: seq<Entry>)
    requires DistinctKeys(y) && !HasKey(y, k)
    ensures DistinctKeys(Optional(k, value) + y)
  {
    if value != "" {
      DistinctCons(Entry(k, Str(value)), y);
    } else {
      assert Optional(k, value) + y == y;
    }
  }

  lemma OptionalPrependHasKey(k: string, value: string, y: seq<Entry>, key: string)
    requires key != k
    ensures HasKey(Optional(k, value) + y, key) <==> HasKey(y, key)
  {
    LookupConcat(Optional(k, value), y, key);
    OptionalLookup(k, value, key);
  }

  /** The filters, nested to the right; the same list as Filters. */
  lemma FiltersNested(st: ListingState, debouncedSearch: string)
    ensures var a, b, c, d, e := Optional("search", debouncedSearch), Optional("designation", TextOf(st.designation)),
      Optional("department", TextOf(st.department)), Optional("sortBy", TextOf(st.sortBy)), Optional("sortOrder", TextOf(st.sortOrder));
      Filters(st, debouncedSearch) == a + (b + (c + (d + e)))
  {
  }

  lemma FiltersDistinct(st: ListingState, debouncedSearch: string)
    ensures DistinctKeys(Filters(st, debouncedSearch))
    ensures !HasKey(Filters(st, debouncedSearch), "page") && !HasKey(Filters(st, debouncedSearch), "limit")
  {
    var a, b, c, d, e := Optional("search", debouncedSearch), Optional("designation", TextOf(st.designation)),
      Optional("department", TextOf(st.department)), Optional("sortBy", TextOf(st.sortBy)), Optional("sortOrder", TextOf(st.sortOrder));
    FiltersNested(st, debouncedSearch);
    var de := d + e;
    assert DistinctKeys(de) && !HasKey(de, "department") && !HasKey(de, "designation") && !HasKey(de, "search")
        && !HasKey(de, "page") && !HasKey(de, "limit") by {
      OptionalPrepend("sortBy", TextOf(st.sortBy), e);
      OptionalLookup("sortOrder", TextOf(st.sortOrder), "sortBy");
      LookupConcat(d, e, "department"); OptionalLookup("sortBy", TextOf(st.sortBy), "department"); OptionalLookup("sortOrder", TextOf(st.sortOrder), "department");
      LookupConcat(d, e, "designation"); OptionalLookup("sortBy", TextOf(st.sortBy), "designation"); OptionalLookup("sortOrder", TextOf(st.sortOrder), "designation");
      LookupConcat(d, e, "search"); OptionalLookup("sortBy", TextOf(st.sortBy), "search"); OptionalLookup("sortOrder", TextOf(st.sortOrder), "search");
      LookupConcat(d, e, "page"); OptionalLookup("sortBy", TextOf(st.sortBy), "page"); OptionalLookup("sortOrder", TextOf(st.sortOrder), "page");
      LookupConcat(d, e, "limit"); OptionalLookup("sortBy", TextOf(st.sortBy), "limit"); OptionalLookup("sortOrder", TextOf(st.sortOrder), "limit");
    }
    var cde := c + de;
    assert DistinctKeys(cde) && !HasKey(cde, "designation") && !HasKey(cde, "search")
        && !HasKey(cde, "page") && !HasKey(cde, "limit") by {
      OptionalPrepend("department", TextOf(st.department), de);
      OptionalPrependHasKey("department", TextOf(st.department), de, "designation");
      OptionalPrependHasKey("department", TextOf(st.department), de, "search");
      OptionalPrependHasKey("department", TextOf(st.department), de, "page");
      OptionalPrependHasKey("department", TextOf(st.department), de, "limit");
    }
    var bcde := b + cde;
    assert DistinctKeys(bcde) && !HasKey(bcde, "search") && !HasKey(bcde, "page") && !HasKey(bcde, "limit") by {
      OptionalPrepend("designation", TextOf(st.designation), cde);
      OptionalPrependHasKey("designation", TextOf(st.designation), cde, "search");
      OptionalPrependHasKey("designation", TextOf(st.designation), cde, "page");
      OptionalPrependHasKey("designation", TextOf(st.designation), cde, "limit");
    }
    assert DistinctKeys(a + bcde) && !HasKey(a + bcde, "page") && !HasKey(a + bcde, "limit") by {
      OptionalPrepend("search", debouncedSearch, bcde);
      OptionalPrependHasKey("search", debouncedSearch, bcde, "page");
      OptionalPrependHasKey("search", debouncedSearch, bcde, "limit");
    }
  }

  lemma ParamsDistinct(st: ListingState, debouncedSearch: string)
    ensures var r := [Entry("page", Num(st.page)), Entry("limit", Num(FetchLimit))] + Filters(st, debouncedSearch);
      2 <= |r| <= 7 && DistinctKeys(r)
  {
    var f := Filters(st, debouncedSearch);
    FiltersDistinct(st, debouncedSearch);
    assert DistinctKeys([Entry("limit", Num(FetchLimit))] + f) by {
      DistinctCons(Entry("limit", Num(FetchLimit)), f);
    }
    assert !HasKey([Entry("limit", Num(FetchLimit))] + f, "page") by {
      HasKeyCons([Entry("limit", Num(FetchLimit))] + f, "page");
      assert ([Entry("limit", Num(FetchLimit))] + f)[1..] == f;
    }
    DistinctCons(Entry("page", Num(st.page)), [Entry("limit", Num(FetchLimit))] + f);
    assert [Entry("page", Num(st.page)), Entry("limit", Num(FetchLimit))] + f
      == [Entry("page", Num(st.page))] + ([Entry("limit", Num(FetchLimit))] + f);
  }

  lemma OptionalLookup(k: string, value: string, key: string)
    ensures HasKey(Optional(k, value), key) <==> k == key && value != ""
    ensures HasKey(Optional(k, value), key) ==> Lookup(Optional(k, value), key) == Str(value)
  {
    if value != "" {
      HasKeyCons(Optional(k, value), key);
    }
  }

  /**
   * The request always carries page and limit = 10, and carries each filter exactly when its
   * value is non-empty: an empty search is never sent.
   */
  lemma FetchParamsContents(st: ListingState, debouncedSearch: string, key: string)
    ensures var r := FetchParams(st, debouncedSearch);
      && Lookup(r, "page") == Num(st.page)
      && Lookup(r, "limit") == Num(FetchLimit)
      && (key != "page" && key != "limit" ==>
            (HasKey(r, key) <==> Requested(st, debouncedSearch, key) != "")
            && (HasKey(r, key) ==> Lookup(r, key) == Str(Requested(st, debouncedSearch, key))))
  {
    var base := [Entry("page", Num(st.page)), Entry("limit", Num(FetchLimit))];
    var filters := Filters(st, debouncedSearch);
    HasKeyCons(base, "page");
    HasKeyCons(base, "limit");
    HasKeyCons(base, key);
    HasKeyCons(base[1..], "limit");
    HasKeyCons(base[1..], key);
    LookupConcat(base, filters, "page");
    LookupConcat(base, filters, "limit");
    LookupConcat(base, filters, key);
    if key != "page" && key != "limit" {
      FiltersLookup(st, debouncedSearch, key);
    }
  }

  lemma FiltersLookup(st: ListingState, debouncedSearch: string, key: string)
    ensures var r := Filters(st, debouncedSearch);
      && (HasKey(r, key) <==> Requested(st, debouncedSearch, key) != "")
      && (HasKey(r, key) ==> Lookup(r, key) == Str(Requested(st, debouncedSearch, key)))
  {
    var a := Optional("search", debouncedSearch);
    var b := Optional("designation", TextOf(st.designation));
    var c := Optional("department", TextOf(st.department));
    var d := Optional("sortBy", TextOf(st.sortBy));
    var e := Optional("sortOrder", TextOf(st.sortOrder));
    OptionalLookup("search", debouncedSearch, key);
    OptionalLookup("designation", TextOf(st.designation), key);
    OptionalLookup("department", TextOf(st.department), key);
    OptionalLookup("sortBy", TextOf(st.sortBy), key);
    OptionalLookup("sortOrder", TextOf(st.sortOrder), key);
    LookupConcat(a, b, key);
    LookupConcat(a + b, c, key);
    LookupConcat(a + b + c, d, key);
    LookupConcat(a + b + c + d, e, key);
  }

  /** `await getData('/users/get-employees', params)` */
  function FetchCall(st: ListingState, debouncedSearch: string): Call {
    GetCall("/users/get-employees", FetchParams(st, debouncedSearch))
  }

  /** handleSort's fieldMap: the sortable columns map to themselves. */
  function SortField(columnKey: string): Option<string> {
    if columnKey == "name" || columnKey == "department" || columnKey == "joiningDate" then Some(columnKey)
    else None
  }

  /** The update handleSort sends, or None when it returns early on an unmapped column. */
  function SortUpdates(st: ListingState, columnKey: string): Option<seq<Entry>> {
    match SortField(columnKey)
    case None => None
    case Some(field) =>
      var next :=
        if st.sortBy == Some(field) && st.sortOrder == Some("asc") then (Str(field), Str("desc"))
        else if st.sortBy == Some(field) && st.sortOrder == Some("desc") then (Null, Null)
        else (Str(field), Str("asc"));
      Some([Entry("sortBy", next.0), Entry("sortOrder", next.1)])
  }

  /** The query string after handleSort(columnKey). */
  function Sort(ps: Params, columnKey: string): Params {
    match SortUpdates(ReadState(ps), columnKey)
    case None => ps
    case Some(updates) => NextParams(ps, updates)
  }

  const ClearSortUpdates := [Entry("sortBy", Null), Entry("sortOrder", Null)]

  /** The query string after clearSorting(). */
  function ClearSorting(ps: Params): Params {
    NextParams(ps, ClearSortUpdates)
  }

  /** The query string after handlePageChange(newPage). */
  function PageChange(ps: Params, newPage: int): Params {
    NextParams(ps, [Entry("page", Num(newPage))])
  }

  lemma PageOne()
    ensures PageOf(Some("1")) == 1
  {
    Text.ParseIntegerOfIntToString(1);
    assert Text.IntToString(1) == "1";
  }

  /** The two-entry update {a, b} with distinct keys: reading it. */
  lemma PairUpdate(a: Entry, b: Entry, key: string)
    requires a.key != b.key
    ensures DistinctKeys([a, b])
    ensures HasKey([a, b], key) <==> key == a.key || key == b.key
    ensures key == a.key ==> Lookup([a, b], key) == a.value
    ensures key == b.key ==> Lookup([a, b], key) == b.value
  {
    HasKeyCons([a, b], key);
    HasKeyCons([b], key);
    assert [a, b][1..] == [b];
  }

  /**
   * handleSort on a sortable column: a different field starts at asc, asc turns to desc, desc
   * clears both, any other order restarts at asc; page resets to 1 and the filters stay.
   * An unsortable column leaves the query string as it is.
   */
  lemma SortTransition(ps: Params, columnKey: string)
    ensures SortField(columnKey).None? ==> Sort(ps, columnKey) == ps
    ensures SortField(columnKey).Some? ==>
      var st, st' := ReadState(ps), ReadState(Sort(ps, columnKey));
      && st'.page == 1
      && st'.search == st.search && st'.designation == st.designation && st'.department == st.department
      && (st.sortBy != Some(columnKey) ==> st'.sortBy == Some(columnKey) && st'.sortOrder == Some("asc"))
      && (st.sortBy == Some(columnKey) && st.sortOrder == Some("asc") ==>
            st'.sortBy == Some(columnKey) && st'.sortOrder == Some("desc"))
      && (st.sortBy == Some(columnKey) && st.sortOrder == Some("desc") ==>
            st'.sortBy == None && st'.sortOrder == None)
      && (st.sortBy == Some(columnKey) && st.sortOrder != Some("asc") && st.sortOrder != Some("desc") ==>
            st'.sortBy == Some(columnKey) && st'.sortOrder == Some("asc"))
  {
    if SortField(columnKey).Some? {
      SortKeepsOtherKeys(ps, columnKey, "search");
      SortKeepsOtherKeys(ps, columnKey, "designation");
      SortKeepsOtherKeys(ps, columnKey, "department");
      SortOrderGet(ps, columnKey);
      PageOne();
    }
  }

  /** What handleSort writes into page, sortBy and sortOrder. */
  lemma SortOrderGet(ps: Params, columnKey: string)
    requires SortField(columnKey).Some?
    ensures var u := SortUpdates(ReadState(ps), columnKey).value;
      && Get(Sort(ps, columnKey), "page") == Some("1")
      && Get(Sort(ps, columnKey), "sortBy") == Expected(u[0].value)
      && Get(Sort(ps, columnKey), "sortOrder") == Expected(u[1].value)
  {
    var updates := SortUpdates(ReadState(ps), columnKey).value;
    var a, b := updates[0], updates[1];
    assert updates == [a, b];
    PairUpdate(a, b, "page");
    PairUpdate(a, b, "sortBy");
    PairUpdate(a, b, "sortOrder");
    NextParamsGet(ps, updates, "page");
    NextParamsGet(ps, updates, "sortBy");
    NextParamsGet(ps, updates, "sortOrder");
  }

  /** handleSort leaves every query key other than sortBy, sortOrder and page as it was. */
  lemma SortKeepsOtherKeys(ps: Params, columnKey: string, key: string)
    requires key != "sortBy" && key != "sortOrder" && key != "page"
    ensures Get(Sort(ps, columnKey), key) == Get(ps, key)
  {
    match SortUpdates(ReadState(ps), columnKey)
    case None =>
    case Some(updates) =>
      PairUpdate(updates[0], updates[1], key);
      assert updates == [updates[0], updates[1]];
      NextParamsGet(ps, updates, key);
  }

  /** From an unsorted column, repeated clicks cycle asc, desc, cleared and back to asc. */
  lemma SortCycle(ps: Params, columnKey: string)
    requires SortField(columnKey).Some?
    requires ReadState(ps).sortBy != Some(columnKey)
    ensures var p1 := Sort(ps, columnKey);
      var p2 := Sort(p1, columnKey);
      var p3 := Sort(p2, columnKey);
      var p4 := Sort(p3, columnKey);
      && ReadState(p1).sortBy == Some(columnKey) && ReadState(p1).sortOrder == Some("asc")
      && ReadState(p2).sortBy == Some(columnKey) && ReadState(p2).sortOrder == Some("desc")
      && ReadState(p3).sortBy == None && ReadState(p3).sortOrder == None
      && ReadState(p4).sortBy == Some(columnKey) && ReadState(p4).sortOrder == Some("asc")
  {
    var p1 := Sort(ps, columnKey);
    var p2 := Sort(p1, columnKey);
    var p3 := Sort(p2, columnKey);
    SortTransition(ps, columnKey);
    SortTransition(p1, columnKey);
    SortTransition(p2, columnKey);
    SortTransition(p3, columnKey);
  }

  /** clearSorting removes sortBy and sortOrder, resets page to 1 and keeps every other key. */
  lemma ClearSortingResult(ps: Params, key: string)
    ensures Get(ClearSorting(ps), key) ==
      if key == "sortBy" || key == "sortOrder" then None
      else if key == "page" then Some("1")
      else Get(ps, key)
  {
    PairUpdate(ClearSortUpdates[0], ClearSortUpdates[1], key);
    NextParamsGet(ps, ClearSortUpdates, key);
  }

  /**
   * handlePageChange(n) stores String(n) and the page reads back as n; a page of 0 is falsy, so
   * the reset to 1 applies. Every other key is kept.
   */
  lemma PageChangeResult(ps: Params, newPage: int, key: string)
    ensures Get(PageChange(ps, newPage), "page") == Some(if newPage == 0 then "1" else Text.IntToString(newPage))
    ensures ReadState(PageChange(ps, newPage)).page == if newPage == 0 then 1 else newPage
    ensures key != "page" ==> Get(PageChange(ps, newPage), key) == Get(ps, key)
  {
    var updates := [Entry("page", Num(newPage))];
    HasKeyCons(updates, key);
    HasKeyCons(updates, "page");
    NextParamsGet(ps, updates, key);
    NextParamsGet(ps, updates, "page");
    PageOne();
    Text.ParseIntegerOfIntToString(newPage);
  }

  /** The Sr. No. column: the running row number across server pages of ten. */
  function SerialNumber(page: int, index: int): (r: int)
    ensures 0 <= index < FetchLimit ==> (r - 1) / FetchLimit == page - 1 && (r - 1) % FetchLimit == index
    ensures page >= 1 && index >= 0 ==> r >= 1
  {
    (page - 1) * FetchLimit + index + 1
  }

  /**
   * While a page holds at most FetchLimit rows, no two rows of any pages share a serial number,
   * and page p numbers its rows from (p - 1) * 10 + 1.
   */
  lemma SerialNumbersDistinct(p1: int, i1: int, p2: int, i2: int)
    requires 0 <= i1 < FetchLimit && 0 <= i2 < FetchLimit
    ensures SerialNumber(p1, i1) == SerialNumber(p2, i2) <==> p1 == p2 && i1 == i2
    ensures SerialNumber(p1, 0) == (p1 - 1) * FetchLimit + 1
  {
  }

  datatype StatusConfig = StatusConfig(color: string, className: string)

  /**
   * The Status tag's colour: exact, case-sensitive matches on the two known labels. A truthy
   * status that is not a string has no toLowerCase, so the call throws a TypeError (None).
   */
  function GetStatusConfig(status: Value): (r: Option<StatusConfig>)
    ensures r.None? <==> Truthy(status) && !status.Str?
    ensures r.Some? ==> (r.value.color == "success" <==> status == Str("Current Employee"))
    ensures r.Some? ==> (r.value.color == "error" <==> status == Str("Old Employee"))
    ensures r.Some? && r.value.color != "success" && r.value.color != "error" ==> r.value.color == "default"
    ensures r.Some? ==> (r.value.className == "" <==> !Truthy(status))
  {
    if !Truthy(status) then Some(StatusConfig("default", ""))
    else if !status.Str? then None
    else if status == Str("Current Employee") then
      Some(StatusConfig("success", "px-3 py-1 font-medium border-0 shadow-sm bg-green-600"))
    else if status == Str("Old Employee") then
      Some(StatusConfig("error", "px-3 py-1 font-medium border-0 shadow-sm bg-red-600"))
    else Some(StatusConfig("default", "px-3 py-1 font-medium border-0"))
  }

  /** The delete request for a row. */
  function DeleteCallFor(id: Value): Call {
    DeleteCall("/users/delete-employee/" + ToJsString(id), Obj([]), false)
  }

  /** deleteData never rejects, so handleDelete's catch branch is unreachable. */
  lemma DeleteNeverRejects(id: Value, o: Outcome)
    ensures CompletionOf(DeleteCallFor(id), o).Resolved?
  {
  }

  /** The listing page: the query string, the debounced search and the page's API hook. */
  class Listing {
    var params: Params
    /** The output of useDebounce(search, 500), driven from outside this class. */
    var debouncedSearch: string
    const api: Handler
    const notices: Browser.Notices

    constructor (params: Params, debouncedSearch: string, api: Handler, notices: Browser.Notices)
      ensures this.params == params && this.debouncedSearch == debouncedSearch
      ensures this.api == api && this.notices == notices
    {
      this.params := params;
      this.debouncedSearch := debouncedSearch;
      this.api := api;
      this.notices := notices;
    }

    /** updateSearchParams(updates) */
    method UpdateSearchParams(updates: seq<Entry>)
      modifies this
      ensures params == NextParams(old(params), updates)
      ensures debouncedSearch == old(debouncedSearch)
    {
      params := Updater(params, updates);
    }

    method HandleSearch(value: Value)
      modifies this
      ensures params == NextParams(old(params), [Entry("search", value)])
      ensures debouncedSearch == old(debouncedSearch)
    {
      UpdateSearchParams([Entry("search", value)]);
    }

    method HandleDesignationChange(value: Value)
      modifies this
      ensures params == NextParams(old(params), [Entry("designation", value)])
      ensures debouncedSearch == old(debouncedSearch)
    {
      UpdateSearchParams([Entry("designation", value)]);
    }

    method HandleDepartmentChange(value: Value)
      modifies this
      ensures params == NextParams(old(params), [Entry("department", value)])
      ensures debouncedSearch == old(debouncedSearch)
    {
      UpdateSearchParams([Entry("department", value)]);
    }

    method HandleSort(columnKey: string)
      modifies this
      ensures params == Sort(old(params), columnKey)
      ensures debouncedSearch == old(debouncedSearch)
    {
      var updates := SortUpdates(ReadState(params), columnKey);
      if updates.None? {
        return;
      }
      UpdateSearchParams(updates.value);
    }

    method ClearSort()
      modifies this
      ensures params == ClearSorting(old(params))
      ensures debouncedSearch == old(debouncedSearch)
    {
      UpdateSearchParams(ClearSortUpdates);
    }

    method HandlePageChange(newPage: int)
      modifies this
      ensures params == PageChange(old(params), newPage)
      ensures debouncedSearch == old(debouncedSearch)
    {
      UpdateSearchParams([Entry("page", Num(newPage))]);
    }

    /** fetchEmployees(): one getData call with the parameters read from the query string. */
    method FetchEmployees(o: Outcome)
      modifies api
      ensures api.sent == old(api.sent) + [Dispatch(FetchCall(ReadState(params), debouncedSearch), api.token, api.baseUrl).value]
      ensures api.Current() ==
        Settled(Started(old(api.Current()), FetchCall(ReadState(params), debouncedSearch)),
                FetchCall(ReadState(params), debouncedSearch), o)
    {
      var _ := api.Perform(FetchCall(ReadState(params), debouncedSearch), o);
    }

    /**
     * handleDelete(id): after deleteData settles, success or not, one success toast and one
     * refetch with the query string as it was.
     */
    method HandleDelete(id: Value, deleteOutcome: Outcome, refetchOutcome: Outcome)
      modifies api, notices
      ensures var fetch := FetchCall(ReadState(params), debouncedSearch);
        api.sent == old(api.sent)
          + [Dispatch(DeleteCallFor(id), api.token, api.baseUrl).value,
             Dispatch(fetch, api.token, api.baseUrl).value]
      ensures notices.shown == old(notices.shown) + [Browser.Success("Employee deleted successfully")]
      ensures api.Current() ==
        var fetch := FetchCall(ReadState(params), debouncedSearch);
        Settled(Started(Settled(Started(old(api.Current()), DeleteCallFor(id)), DeleteCallFor(id), deleteOutcome),
                        fetch), fetch, refetchOutcome)
    {
      var c := api.Perform(DeleteCallFor(id), deleteOutcome);
      DeleteNeverRejects(id, deleteOutcome);
      ghost var afterDelete, sentAfterDelete := api.Current(), api.sent;
      if c.Resolved? {
        notices.Show(Browser.Success("Employee deleted successfully"));
        assert api.Current() == afterDelete && api.sent == sentAfterDelete;
        FetchEmployees(refetchOutcome);
        ghost var deleted, fetched := sentAfterDelete[|sentAfterDelete| - 1], api.sent[|api.sent| - 1];
        assert api.sent == old(api.sent) + [deleted, fetched];
      }
    }
  }
}
