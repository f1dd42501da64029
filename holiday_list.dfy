/** The React component that lists the holidays of a country and year: its
    state fields, the fetch cycle that drives them, the endpoint each fetch
    requests, and which display branch a render shows. The HTTP client's
    answer is a parameter of the methods that await it. */
module HolidayListComponent {
  import opened Values
  import Views

  const ListUrl := "http://localhost:8000/api/holidays/"
  const SearchUrl := "http://localhost:8000/api/holidays/search/"
  const FailureMessage := "Failed to fetch holidays."

  /** A JavaScript value read out of a decoded response: `undefined`, or JSON. */
  datatype JsValue = Undefined | Val(v: Json)

  /** A GET request: its URL and the query parameters axios sends (it leaves
      out parameters whose value is null). */
  datatype Request = Request(url: string, params: map<string, string>)

  /** How the awaited `axios.get` settles: resolved with the decoded body of
      a 2xx response, or rejected (network failure or another status). */
  datatype HttpResult = Received(data: Json) | Failed

  /** What a render shows below the search form. `RenderError` stands for a
      render that throws. */
  datatype Display =
    | Loading
    | ErrorText(message: string)
    | NoHolidays
    | Cards(holidays: seq<Json>)
    | RenderError

  /** `holidays` and `error` once a fetch has settled. */
  datatype Settlement = Settlement(holidays: JsValue, error: Option<string>)

  /** Property access `x.key` for the keys the component reads (none of them
      a built-in property); None when it throws because `x` is undefined or
      null. */
  function Prop(x: JsValue, key: string): (r: Option<JsValue>)
    ensures r.None? <==> x == Undefined || x == Val(Null)
    ensures x.Val? && x.v.Obj? && key in x.v.fields ==> r == Some(Val(x.v.fields[key]))
    ensures r.Some? && !(x.Val? && x.v.Obj? && key in x.v.fields) ==> r == Some(Undefined)
  {
    match x
    case Undefined => None
    case Val(Null) => None
    case Val(Obj(fields)) => if key in fields then Some(Val(fields[key])) else Some(Undefined)
    case _ => Some(Undefined)
  }

  /** JavaScript truthiness of a JSON value: unlike Python, empty arrays and
      objects are true. */
  predicate JsTruthy(v: Json) {
    match v
    case Null => false
    case Bool(b) => b
    case Num(n) => n != 0
    case Str(s) => s != ""
    case Arr(_) => true
    case Obj(_) => true
  }

  /** `response.data.response.holidays`; None when the access throws. */
  function HolidaysOf(data: Json): (r: Option<JsValue>)
    ensures !data.Obj? ==> r.None?
    ensures data.Obj? && "response" !in data.fields ==> r.None?
    ensures (data.Obj? && "response" in data.fields && data.fields["response"].Obj? &&
             "holidays" in data.fields["response"].fields) ==>
              r == Some(Val(data.fields["response"].fields["holidays"]))
    ensures (data.Obj? && "response" in data.fields && data.fields["response"] == Null) ==> r.None?
    ensures (data.Obj? && "response" in data.fields && data.fields["response"] != Null &&
             !(data.fields["response"].Obj? && "holidays" in data.fields["response"].fields)) ==>
              r == Some(Undefined)
  {
    match Prop(Val(data), "response")
    case None => None
    case Some(response) => Prop(response, "holidays")
  }

  /** Both backend views answer with a body from which the component reads
      back exactly the list the view put in. */
  lemma EnvelopeReadBack(holidays: seq<Json>)
    ensures HolidaysOf(Views.Envelope(holidays)) == Some(Val(Arr(holidays)))
  {
  }

  /** A resolved body whose `response` has no `holidays` clears the error
      and leaves the list undefined, and the next render throws. */
  lemma MissingListBreaksRender(previous: JsValue)
    ensures var s := Settle(previous, Received(Obj(map["response" := Obj(map[])])));
      s == Settlement(Undefined, None) && Render(false, s.error, s.holidays) == RenderError
  {
  }

  /** The query parameters for a country and a year, either possibly null. */
  function Params(country: Option<string>, year: Option<string>): map<string, string> {
    (if country.Some? then map["country" := country.value] else map[]) +
    (if year.Some? then map["year" := year.value] else map[])
  }

  /** The request `fetchHolidays(search)` sends: the search endpoint with the
      term verbatim when it is non-empty, the list endpoint otherwise. */
  function EndpointFor(search: string, country: Option<string>, year: Option<string>): (r: Request)
    ensures search != "" ==> r.url == SearchUrl && "name" in r.params && r.params["name"] == search
    ensures search == "" ==> r.url == ListUrl && "name" !in r.params
    ensures r.params.Keys <= {"name", "country", "year"}
    ensures "country" in r.params <==> country.Some?
    ensures country.Some? ==> r.params["country"] == country.value
    ensures "year" in r.params <==> year.Some?
    ensures year.Some? ==> r.params["year"] == year.value
  {
    if search != "" then Request(SearchUrl, Params(country, year)["name" := search])
    else Request(ListUrl, Params(country, year))
  }

  /** With a non-empty country and year in the URL every request the component
      sends passes the validation of the view it reaches. */
  lemma RequestsPassValidation(search: string, country: Option<string>, year: Option<string>)
    requires country.Some? && country.value != "" && year.Some? && year.value != ""
    ensures var r := EndpointFor(search, country, year);
      Views.Given(r.params, "country") && Views.Given(r.params, "year") &&
      (r.url == SearchUrl ==> Views.Given(r.params, "name"))
  {
  }

  /** Without a country or a year in the URL the parameter is left out and
      the view answers 400 for every request the component sends. */
  lemma MissingParamRejected(search: string, country: Option<string>, year: Option<string>)
    requires country.None? || year.None?
    ensures var r := EndpointFor(search, country, year);
      !Views.Given(r.params, "country") || !Views.Given(r.params, "year")
  {
  }

  /** The state a fetch leaves behind: a list read from the response replaces
      the old one wholesale; a rejection, or a body the list cannot be read
      from, sets the failure message and keeps the old list. */
  function Settle(previous: JsValue, result: HttpResult): (s: Settlement)
    ensures s.error.None? <==> result.Received? && HolidaysOf(result.data).Some?
    ensures s.error.None? ==> s.holidays == HolidaysOf(result.data).value
    ensures s.error.Some? ==> s.error == Some(FailureMessage) && s.holidays == previous
  {
    match result
    case Failed => Settlement(previous, Some(FailureMessage))
    case Received(data) =>
      match HolidaysOf(data)
      case None => Settlement(previous, Some(FailureMessage))
      case Some(list) => Settlement(list, None)
  }

  /** `holidays.length === 0`; None when reading the length throws. */
  function LengthIsZero(holidays: JsValue): Option<bool> {
    match holidays
    case Undefined => None
    case Val(Null) => None
    case Val(Arr(items)) => Some(|items| == 0)
    case Val(Str(s)) => Some(|s| == 0)
    case Val(Obj(fields)) => Some("length" in fields && fields["length"] == Num(0))
    case _ => Some(false)
  }

  /** A card renders `holiday.name` and `holiday.date.iso` without throwing. */
  predicate CardRenders(holiday: Json): (b: bool)
    ensures b <==> holiday.Obj? && "date" in holiday.fields && holiday.fields["date"] != Null
  {
    var date := Prop(Val(holiday), "date");
    date.Some? && Prop(date.value, "iso").Some?
  }

  /** The nested conditional of the render: loading first, then a truthy
      error, then the empty list, then one card per holiday. */
  function Render(loading: bool, error: Option<string>, holidays: JsValue): (d: Display)
    ensures d == Loading <==> loading
    ensures d.ErrorText? <==> !loading && error.Some? && error.value != ""
    ensures !loading && error.Some? && error.value != "" ==> d == ErrorText(error.value)
    ensures d.NoHolidays? <==>
              && !loading
              && (error.None? || error.value == "")
              && (|| holidays == Val(Arr([]))
                  || holidays == Val(Str(""))
                  || (holidays.Val? && holidays.v.Obj? && "length" in holidays.v.fields &&
                      holidays.v.fields["length"] == Num(0)))
    ensures (!loading && (error.None? || error.value == "") && (holidays == Undefined || holidays == Val(Null))) ==>
      d == RenderError
    ensures (!loading && (error.None? || error.value == "") && holidays.Val? && holidays.v.Arr? &&
             exists h :: h in holidays.v.items && !CardRenders(h)) ==> d == RenderError
    ensures (!loading && (error.None? || error.value == "") && holidays.Val? &&
             (holidays.v.Num? || holidays.v.Bool? || (holidays.v.Str? && holidays.v.s != ""))) ==> d == RenderError
    ensures !loading && error.None? && holidays == Val(Arr([])) ==> d == NoHolidays
    ensures d.Cards? ==> !loading && (error.None? || error.value == "") &&
                         holidays == Val(Arr(d.holidays)) && |d.holidays| > 0
    ensures d.Cards? ==> forall h :: h in d.holidays ==> CardRenders(h)
    ensures (!loading && error.None? && holidays.Val? && holidays.v.Arr? && holidays.v.items != [] &&
             forall h :: h in holidays.v.items ==> CardRenders(h)) ==> d == Cards(holidays.v.items)
  {
    if loading then Loading
    else if error.Some? && error.value != "" then ErrorText(error.value)
    else
      match LengthIsZero(holidays)
      case None => RenderError
      case Some(true) => NoHolidays
      case Some(false) =>
        if holidays.Val? && holidays.v.Arr? && forall h :: h in holidays.v.items ==> CardRenders(h) then
          Cards(holidays.v.items)
        else
          RenderError
  }

  /** The component's state. `country` and `year` come from the URL query;
      `effectDeps` are the values the fetch effect last ran with. */
  class HolidayList {
    var country: Option<string>
    var year: Option<string>
    var holidays: JsValue
    var searchTerm: string
    var selectedHoliday: Option<Json>
    var loading: bool
    var error: Option<string>
    var effectDeps: Option<(Option<string>, Option<string>)>

    /** The only error the component ever shows is the failure message. */
    ghost predicate Valid()
      reads this
    {
      error.None? || error == Some(FailureMessage)
    }

    /** What the current state renders. */
    function Shown(): Display
      reads this
    {
      Render(loading, error, holidays)
    }

    /** The holiday the modal shows (`selectedHoliday && <HolidayModal …>`). */
    function Modal(): (m: Option<Json>)
      reads this
      ensures m.Some? ==> selectedHoliday == m && JsTruthy(m.value)
      ensures selectedHoliday.None? ==> m.None?
      ensures selectedHoliday.Some? && JsTruthy(selectedHoliday.value) ==> m == selectedHoliday
    {
      if selectedHoliday.Some? && JsTruthy(selectedHoliday.value) then selectedHoliday else None
    }

    /** The first render, before the effect has run. */
    constructor (country: Option<string>, year: Option<string>)
      ensures Valid()
      ensures this.country == country && this.year == year
      ensures holidays == Val(Arr([])) && searchTerm == "" && selectedHoliday.None?
      ensures !loading && error.None? && effectDeps.None?
    {
      this.country := country;
      this.year := year;
      holidays := Val(Arr([]));
      searchTerm := "";
      selectedHoliday := None;
      loading := false;
      error := None;
      effectDeps := None;
    }

    /** The synchronous start of `fetchHolidays(search)`: loading on, error
        cleared, and the request it awaits. */
    method BeginFetch(search: string) returns (req: Request)
      requires Valid()
      modifies this`loading, this`error
      ensures Valid()
      ensures loading && error.None?
      ensures req == EndpointFor(search, country, year)
      ensures Shown() == Loading
    {
      loading := true;
      error := None;
      if search != "" {
        req := Request(SearchUrl, Params(country, year)["name" := search]);
      } else {
        req := Request(ListUrl, Params(country, year));
      }
    }

    /** The rest of `fetchHolidays` once the request settles: `setHolidays`
        or the catch block, then `finally` turns loading off. */
    method Complete(result: HttpResult)
      requires Valid()
      modifies this`loading, this`error, this`holidays
      ensures Valid()
      ensures !loading
      ensures var s := Settle(old(holidays), result);
        holidays == s.holidays && error == (if s.error.Some? then s.error else old(error))
    {
      match result {
        case Failed =>
          error := Some(FailureMessage);
        case Received(data) =>
          var list := HolidaysOf(data);
          if list.None? {
            error := Some(FailureMessage);
          } else {
            holidays := list.value;
          }
      }
      loading := false;
    }

    /** `fetchHolidays(search)` run to completion. */
    method FetchHolidays(search: string, result: HttpResult) returns (req: Request)
      requires Valid()
      modifies this`loading, this`error, this`holidays
      ensures Valid()
      ensures req == EndpointFor(search, country, year)
      ensures !loading && Settlement(holidays, error) == Settle(old(holidays), result)
    {
      req := BeginFetch(search);
      Complete(result);
    }

    /** A render with the URL's (possibly new) country and year: the effect
        fetches with an empty search on the first render and whenever either
        value changed. */
    method Navigate(country: Option<string>, year: Option<string>, result: HttpResult) returns (req: Option<Request>)
      requires Valid()
      modifies this
      ensures Valid()
      ensures this.country == country && this.year == year && effectDeps == Some((country, year))
      ensures searchTerm == old(searchTerm) && selectedHoliday == old(selectedHoliday)
      ensures old(effectDeps) == Some((country, year)) ==>
        req.None? && holidays == old(holidays) && loading == old(loading) && error == old(error)
      ensures old(effectDeps) != Some((country, year)) ==>
        req == Some(EndpointFor("", country, year)) &&
        !loading && Settlement(holidays, error) == Settle(old(holidays), result)
    {
      this.country, this.year := country, year;
      if effectDeps == Some((country, year)) {
        req := None;
      } else {
        effectDeps := Some((country, year));
        var r := FetchHolidays("", result);
        req := Some(r);
      }
    }

    /** The search input's `onChange`. */
    method SetSearchTerm(term: string)
      requires Valid()
      modifies this`searchTerm
      ensures Valid()
      ensures searchTerm == term
    {
      searchTerm := term;
    }

    /** Submitting the form: `fetchHolidays(searchTerm)`. */
    method HandleSearch(result: HttpResult) returns (req: Request)
      requires Valid()
      modifies this`loading, this`error, this`holidays
      ensures Valid()
      ensures req == EndpointFor(searchTerm, country, year)
      ensures !loading && Settlement(holidays, error) == Settle(old(holidays), result)
    {
      req := FetchHolidays(searchTerm, result);
    }

    /** Clicking the card at `index`. */
    method Select(index: nat)
      requires Valid()
      requires Shown().Cards? && index < |Shown().holidays|
      modifies this`selectedHoliday
      ensures Valid()
      ensures selectedHoliday == Some(old(Shown()).holidays[index])
      ensures Modal() == selectedHoliday
    {
      var h := holidays.v.items[index];
      assert CardRenders(h);
      selectedHoliday := Some(h);
    }

    /** The modal's `onClose`. */
    method Close()
      requires Valid()
      modifies this`selectedHoliday
      ensures Valid()
      ensures selectedHoliday.None? && Modal().None?
    {
      selectedHoliday := None;
    }
  }
}
