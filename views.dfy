/** The two REST views of the Django backend: the holiday list, which serves the
    provider's body for a (country, year) pair through a shared cache, and the
    holiday search, which serves the same body filtered by holiday name.

    The provider (Calendarific) is reached over HTTP; here its answer is a
    parameter of type `Upstream`, and the ghost log `providerCalls` records
    every time a view would have called it. */
module Views {
  import opened Values
  import opened Text

  const HTTP_200_OK := 200
  const HTTP_400_BAD_REQUEST := 400
  const HTTP_500_INTERNAL_SERVER_ERROR := 500

  /** Seconds a provider body is kept in the cache (24 hours). */
  const CacheTimeout := 86400

  const MissingListParams := "country and year are required parameters."
  const MissingSearchParams := "name, country, and year are required parameters."
  const ProviderErrorMessage := "Error fetching data from Calendarific API."
  const ExceptionMessage := "Exception occurred while fetching data."

  /** The request's query string, `request.GET`. */
  type Query = map<string, string>

  /** A cache entry: the stored value and the timeout it was stored with. */
  datatype Entry = Entry(value: Json, timeout: nat)

  type Cache = map<string, Entry>

  /** What the provider call produces when it is made: a reply with its HTTP
      status and (for status 200) its decoded body, or an exception raised by
      the request or by decoding the body, with its message. */
  datatype Upstream = Reply(status: int, body: Json) | Raised(message: string)

  /** What a view yields: a response with a status and a JSON body, or an
      exception escaping the view (outside its `try`). */
  datatype Outcome = Respond(status: int, body: Json) | Crash

  /** The parameters of one provider request. */
  datatype ProviderQuery = ProviderQuery(country: string, year: string)

  /** Result of the shared validate/cache/fetch sequence: the holiday data, or
      a response the view returns early. */
  datatype Loaded = Data(data: Json) | Early(response: Outcome)

  /** One run of the cache/fetch sequence: what it loaded, the cache after it,
      and whether it called the provider. */
  datatype Step = Step(loaded: Loaded, cache: Cache, called: bool)

  /** `request.GET.get(key)` is neither missing nor empty (`not value` is false). */
  predicate Given(q: Query, key: string) {
    key in q && q[key] != ""
  }

  /** The cache key both views use for a (country, year) pair. */
  function CacheKey(country: string, year: string): string {
    "holidays_" + country + "_" + year
  }

  /** `cache.get(key)` returned a truthy value. */
  predicate Hit(cache: Cache, key: string) {
    key in cache && PyTruthy(cache[key].value)
  }

  function ErrorBody(message: string): Json {
    Obj(map["error" := Str(message)])
  }

  function ExceptionBody(details: string): Json {
    Obj(map["error" := Str(ExceptionMessage), "details" := Str(details)])
  }

  /** The sequence both views run once their parameters are valid: serve a
      truthy cached value, or call the provider and cache its body on status
      200. */
  function FetchStep(cache: Cache, country: string, year: string, upstream: Upstream): (s: Step)
    ensures Hit(cache, CacheKey(country, year)) ==>
      s == Step(Data(cache[CacheKey(country, year)].value), cache, false)
    ensures !Hit(cache, CacheKey(country, year)) ==> s.called
    ensures !Hit(cache, CacheKey(country, year)) && upstream.Raised? ==>
      s.loaded == Early(Respond(HTTP_500_INTERNAL_SERVER_ERROR, ExceptionBody(upstream.message)))
    ensures !Hit(cache, CacheKey(country, year)) && upstream.Reply? && upstream.status != HTTP_200_OK ==>
      s.loaded == Early(Respond(upstream.status, ErrorBody(ProviderErrorMessage)))
    ensures !Hit(cache, CacheKey(country, year)) && upstream.Reply? && upstream.status == HTTP_200_OK ==>
      s.loaded == Data(upstream.body) &&
      CacheKey(country, year) in s.cache && s.cache[CacheKey(country, year)] == Entry(upstream.body, CacheTimeout)
    ensures s.loaded.Early? ==> s.cache == cache
    ensures forall k :: k != CacheKey(country, year) ==>
      (k in s.cache <==> k in cache) && (k in cache ==> s.cache[k] == cache[k])
  {
    var key := CacheKey(country, year);
    if Hit(cache, key) then Step(Data(cache[key].value), cache, false)
    else
      match upstream
      case Raised(message) =>
        Step(Early(Respond(HTTP_500_INTERNAL_SERVER_ERROR, ExceptionBody(message))), cache, true)
      case Reply(status, body) =>
        if status != HTTP_200_OK then
          Step(Early(Respond(status, ErrorBody(ProviderErrorMessage))), cache, true)
        else
          Step(Data(body), cache[key := Entry(body, CacheTimeout)], true)
  }

  /** A body cached by one run is served by the next run for the same pair,
      by either view, without calling the provider again. */
  lemma FilledCacheServes(cache: Cache, country: string, year: string, first: Upstream, second: Upstream)
    requires !Hit(cache, CacheKey(country, year))
    requires first.Reply? && first.status == HTTP_200_OK && PyTruthy(first.body)
    ensures var next := FetchStep(FetchStep(cache, country, year, first).cache, country, year, second);
      !next.called && next.loaded == Data(first.body)
  {
  }

  /** Keys of pairs whose years contain no underscore determine the pair. */
  lemma CacheKeyInjective(c1: string, y1: string, c2: string, y2: string)
    requires '_' !in y1 && '_' !in y2
    requires CacheKey(c1, y1) == CacheKey(c2, y2)
    ensures c1 == c2 && y1 == y2
  {
    YearNotShorter(c1, y1, c2, y2);
    YearNotShorter(c2, y2, c1, y1);
    var k := CacheKey(c1, y1);
    assert y1 == k[|k| - |y1|..] == y2;
    assert c1 == k[9..|k| - |y1| - 1] == c2;
  }

  /** The character before the year in a key is the last underscore, so a
      key cannot hold a shorter underscore-free year than another pair's. */
  lemma YearNotShorter(c1: string, y1: string, c2: string, y2: string)
    requires '_' !in y2
    requires CacheKey(c1, y1) == CacheKey(c2, y2)
    ensures |y2| <= |y1|
  {
    KeyShape(c1, y1);
    KeyShape(c2, y2);
  }

  /** A key ends with an underscore followed by the year. */
  lemma KeyShape(country: string, year: string)
    ensures var k := CacheKey(country, year);
      |k| == 10 + |country| + |year| && k[|k| - |year| - 1] == '_' && k[|k| - |year|..] == year
  {
  }

  /** Without that restriction two pairs can share a key. */
  lemma CacheKeyCollision()
    ensures CacheKey("a_b", "c") == CacheKey("a", "b_c")
  {
  }

  // ---------------------------------------------------------------------------
  // The name filter of the search view

  /** The sequence a list comprehension iterates over, or None when iterating
      it, or calling `.get` on its elements, raises. A dict iterates over its
      keys and a string over its characters; both are strings, which have no
      `.get`, so only the empty ones iterate without error. */
  function Elements(v: Json): (r: Option<seq<Json>>)
    ensures v.Arr? ==> r == Some(v.items)
    ensures r.Some? <==> v.Arr? || v == Obj(map[]) || v == Str("")
    ensures r.Some? && !v.Arr? ==> r == Some([])
  {
    match v
    case Arr(items) => Some(items)
    case Obj(fields) => if fields == map[] then Some([]) else None
    case Str(s) => if s == "" then Some([]) else None
    case _ => None
  }

  /** `data.get('response', {}).get('holidays', [])`, as iterated; None when
      an attribute lookup or the iteration raises. */
  function HolidaysIn(data: Json): (r: Option<seq<Json>>)
    ensures !data.Obj? ==> r == None
    ensures data.Obj? && "response" !in data.fields ==> r == Some([])
    ensures data.Obj? && "response" in data.fields && !data.fields["response"].Obj? ==> r == None
    ensures (data.Obj? && "response" in data.fields && data.fields["response"].Obj? &&
             "holidays" !in data.fields["response"].fields) ==> r == Some([])
    ensures (data.Obj? && "response" in data.fields && data.fields["response"].Obj? &&
             "holidays" in data.fields["response"].fields && data.fields["response"].fields["holidays"].Arr?) ==>
              r == Some(data.fields["response"].fields["holidays"].items)
    ensures (data.Obj? && "response" in data.fields && data.fields["response"].Obj? &&
             "holidays" in data.fields["response"].fields) ==>
              var holidays := data.fields["response"].fields["holidays"];
              (r.Some? <==> holidays.Arr? || holidays == Obj(map[]) || holidays == Str("")) &&
              (r.Some? && !holidays.Arr? ==> r == Some([]))
  {
    if !data.Obj? then None
    else
      var response := GetOr(data.fields, "response", Obj(map[]));
      if !response.Obj? then None
      else Elements(GetOr(response.fields, "holidays", Arr([])))
  }

  /** `holiday.get('name', '')` as a string ready for `.lower()`; None when
      the record is not a dict or its name is not a string. */
  function NameOf(holiday: Json): Option<string> {
    match holiday
    case Obj(fields) =>
      (match GetOr(fields, "name", Str(""))
       case Str(s) => Some(s)
       case _ => None)
    case _ => None
  }

  /** `name.lower() in holiday.get('name', '').lower()` holds. */
  predicate NameMatches(holiday: Json, name: string) {
    NameOf(holiday).Some? && Contains(Lower(NameOf(holiday).value), Lower(name))
  }

  /** `a` is obtained from `b` by deleting elements, keeping the order. */
  predicate IsSubsequence<T(==)>(a: seq<T>, b: seq<T>)
    decreases |b|
  {
    if a == [] then true
    else if b == [] then false
    else (a[0] == b[0] && IsSubsequence(a[1..], b[1..])) || IsSubsequence(a, b[1..])
  }

  /** The comprehension `[h for h in holidays if name.lower() in
      h.get('name', '').lower()]`: None when some record raises. */
  function FilterByName(holidays: seq<Json>, name: string): (r: Option<seq<Json>>)
    ensures r.None? <==> exists i :: 0 <= i < |holidays| && NameOf(holidays[i]).None?
    ensures r.Some? ==> IsSubsequence(r.value, holidays)
    ensures r.Some? ==> forall h :: h in r.value <==> h in holidays && NameMatches(h, name)
    decreases |holidays|
  {
    if holidays == [] then Some([])
    else
      match NameOf(holidays[0])
      case None => None
      case Some(n) =>
        var rest := FilterByName(holidays[1..], name);
        if rest.None? then
          None
        else if Contains(Lower(n), Lower(name)) then
          Some([holidays[0]] + rest.value)
        else
          rest
  }

  /** The filter keeps every matching record as often as it occurs, and no
      other record. */
  lemma {:induction false} FilterCounts(holidays: seq<Json>, name: string, h: Json)
    requires FilterByName(holidays, name).Some?
    ensures multiset(FilterByName(holidays, name).value)[h] ==
            if NameMatches(h, name) then multiset(holidays)[h] else 0
    decreases |holidays|
  {
    if holidays != [] {
      FilterCounts(holidays[1..], name, h);
      assert holidays == [holidays[0]] + holidays[1..];
      assert multiset(holidays) == multiset{holidays[0]} + multiset(holidays[1..]);
    }
  }

  /** The body `{"response": {"holidays": holidays}}`. */
  function Envelope(holidays: seq<Json>): Json {
    Obj(map["response" := Obj(map["holidays" := Arr(holidays)])])
  }

  /** What the search view returns once it holds the holiday data. */
  function SearchResponse(data: Json, name: string): (r: Outcome)
    ensures !data.Obj? ==> r == Crash
    ensures data.Obj? && "response" !in data.fields ==> r == Respond(HTTP_200_OK, Envelope([]))
    ensures r.Respond? ==>
              && r.status == HTTP_200_OK
              && HolidaysIn(data).Some?
              && HolidaysIn(r.body).Some?
              && IsSubsequence(HolidaysIn(r.body).value, HolidaysIn(data).value)
              && (forall h :: h in HolidaysIn(r.body).value <==> h in HolidaysIn(data).value && NameMatches(h, name))
    ensures r.Respond? <==> HolidaysIn(data).Some? && forall h :: h in HolidaysIn(data).value ==> NameOf(h).Some?
  {
    match HolidaysIn(data)
    case None => Crash
    case Some(holidays) =>
      match FilterByName(holidays, name)
      case None => Crash
      case Some(kept) => Respond(HTTP_200_OK, Envelope(kept))
  }

  /** A non-empty query never keeps a record without a name. */
  lemma NamelessNeverReturned(holidays: seq<Json>, name: string, h: Json)
    requires name != ""
    requires FilterByName(holidays, name).Some?
    requires h in FilterByName(holidays, name).value
    ensures h.Obj? && "name" in h.fields && h.fields["name"] != Str("")
  {
  }

  /** A record whose name equals the query up to ASCII case is kept. */
  lemma SameNameKept(holidays: seq<Json>, name: string, h: Json)
    requires FilterByName(holidays, name).Some?
    requires h in holidays && NameOf(h).Some? && Lower(NameOf(h).value) == Lower(name)
    ensures h in FilterByName(holidays, name).value
  {
    assert OccursAt(Lower(NameOf(h).value), Lower(name), 0);
  }

  /** Queries that differ only in ASCII case select the same records. */
  lemma {:induction false} QueryCaseInsensitive(holidays: seq<Json>, q1: string, q2: string)
    requires Lower(q1) == Lower(q2)
    ensures FilterByName(holidays, q1) == FilterByName(holidays, q2)
    decreases |holidays|
  {
    if holidays != [] {
      QueryCaseInsensitive(holidays[1..], q1, q2);
    }
  }

  /** Filtering a list whose records all match leaves it unchanged. */
  lemma {:induction false} FilterKeepsMatching(holidays: seq<Json>, name: string)
    requires forall h :: h in holidays ==> NameMatches(h, name)
    ensures FilterByName(holidays, name) == Some(holidays)
    decreases |holidays|
  {
    if holidays != [] {
      assert holidays[0] in holidays;
      FilterKeepsMatching(holidays[1..], name);
      assert [holidays[0]] + holidays[1..] == holidays;
    }
  }

  /** Searching a search response again with the same name gives it back. */
  lemma SearchIdempotent(data: Json, name: string)
    requires SearchResponse(data, name).Respond?
    ensures SearchResponse(SearchResponse(data, name).body, name) == SearchResponse(data, name)
  {
    var kept := FilterByName(HolidaysIn(data).value, name).value;
    assert HolidaysIn(Envelope(kept)) == Some(kept);
    FilterKeepsMatching(kept, name);
  }

  // ---------------------------------------------------------------------------
  // The views

  /** The Django cache shared by both views, and the provider requests made. */
  class Backend {
    var cache: Cache
    ghost var providerCalls: seq<ProviderQuery>

    constructor ()
      ensures cache == map[] && providerCalls == []
    {
      cache := map[];
      providerCalls := [];
    }

    /** `HolidayListAPIView.get`: validate, then serve the cached or fetched
        provider body unchanged. */
    method ListGet(q: Query, upstream: Upstream) returns (r: Outcome)
      modifies this
      ensures r.Respond?
      ensures !Given(q, "country") || !Given(q, "year") ==>
        r == Respond(HTTP_400_BAD_REQUEST, ErrorBody(MissingListParams)) &&
        cache == old(cache) && providerCalls == old(providerCalls)
      ensures Given(q, "country") && Given(q, "year") ==>
        var s := FetchStep(old(cache), q["country"], q["year"], upstream);
        cache == s.cache &&
        providerCalls == old(providerCalls) + (if s.called then [ProviderQuery(q["country"], q["year"])] else []) &&
        r == (if s.loaded.Early? then s.loaded.response else Respond(HTTP_200_OK, s.loaded.data))
    {
      var country := if "country" in q then Some(q["country"]) else None;
      var year := if "year" in q then Some(q["year"]) else None;
      if country.None? || country.value == "" || year.None? || year.value == "" {
        return Respond(HTTP_400_BAD_REQUEST, ErrorBody(MissingListParams));
      }
      var loaded := Load(country.value, year.value, upstream);
      match loaded
      case Early(response) => r := response;
      case Data(data) => r := Respond(HTTP_200_OK, data);
    }

    /** `HolidaySearchAPIView.get`: validate, load the same cached or fetched
        body, then answer with its holidays filtered by name. */
    method SearchGet(q: Query, upstream: Upstream) returns (r: Outcome)
      modifies this
      ensures !Given(q, "name") || !Given(q, "country") || !Given(q, "year") ==>
        r == Respond(HTTP_400_BAD_REQUEST, ErrorBody(MissingSearchParams)) &&
        cache == old(cache) && providerCalls == old(providerCalls)
      ensures Given(q, "name") && Given(q, "country") && Given(q, "year") ==>
        var s := FetchStep(old(cache), q["country"], q["year"], upstream);
        cache == s.cache &&
        providerCalls == old(providerCalls) + (if s.called then [ProviderQuery(q["country"], q["year"])] else []) &&
        r == (if s.loaded.Early? then s.loaded.response else SearchResponse(s.loaded.data, q["name"]))
    {
      var name := if "name" in q then Some(q["name"]) else None;
      var country := if "country" in q then Some(q["country"]) else None;
      var year := if "year" in q then Some(q["year"]) else None;
      if name.None? || name.value == "" || country.None? || country.value == "" || year.None? || year.value == "" {
        return Respond(HTTP_400_BAD_REQUEST, ErrorBody(MissingSearchParams));
      }
      var loaded := Load(country.value, year.value, upstream);
      match loaded
      case Early(response) => r := response;
      case Data(data) => r := SearchResponse(data, name.value);
    }

    /** The part both views repeat after validation: `cache.get`, and on a
        miss the provider request inside `try`, caching a 200 body. */
    method Load(country: string, year: string, upstream: Upstream) returns (loaded: Loaded)
      modifies this
      ensures var s := FetchStep(old(cache), country, year, upstream);
        loaded == s.loaded && cache == s.cache &&
        providerCalls == old(providerCalls) + (if s.called then [ProviderQuery(country, year)] else [])
    {
      var key := CacheKey(country, year);
      var cached := if key in cache then cache[key].value else Null;
      if PyTruthy(cached) {
        loaded := Data(cached);
      } else {
        providerCalls := providerCalls + [ProviderQuery(country, year)];
        match upstream
        case Raised(message) =>
          loaded := Early(Respond(HTTP_500_INTERNAL_SERVER_ERROR, ExceptionBody(message)));
        case Reply(status, body) =>
          if status != HTTP_200_OK {
            loaded := Early(Respond(status, ErrorBody(ProviderErrorMessage)));
          } else {
            cache := cache[key := Entry(body, CacheTimeout)];
            loaded := Data(body);
          }
      }
    }
  }
}
