# Holiday management: backend views and holiday-list component

A Dafny model of the two parts of the holiday browser that hold logic:

- **The Django REST views** (`backend/api/views.py`). `HolidayListAPIView.get`
  checks that `country` and `year` are given and looks up the cache key
  `holidays_{country}_{year}`. A truthy cached value is served as it is. On a
  miss the view calls the Calendarific provider. A non-200 status is passed
  back with that status. An exception becomes a 500 with the exception's text
  as `details`. A 200 body is cached for 86400 seconds and returned.
  `HolidaySearchAPIView.get` also requires `name` and runs the same sequence
  under the same key. It then keeps the records whose lower-cased name
  contains the lower-cased query, in their original order, and wraps them as
  `{"response": {"holidays": [...]}}`.
- **The React component `HolidayList`** (`frontend/src/components/HolidayList.js`).
  Its state fields are `holidays`, `searchTerm`, `selectedHoliday`, `loading`
  and `error`. `fetchHolidays(search)` turns loading on, clears the error and
  requests the search endpoint when the term is non-empty, sending the term
  as typed, else the list endpoint. On success it replaces the list wholesale. On a failure it sets
  `'Failed to fetch holidays.'` and keeps the old list. Either way loading
  ends off. The fetch runs on the first render and whenever `country` or
  `year` changes, and on form submission with the current search term. A
  render shows, in this order of precedence: loading, the error, "No holidays
  found.", or the cards. Clicking a card selects it for the modal, and
  closing the modal clears the selection.

Files:

- `values.dfy` (`Values`): decoded JSON values and Python truthiness.
- `text.dfy` (`Text`): ASCII lower-casing and Python's substring test.
- `views.dfy` (`Views`): the shared cache/fetch sequence `FetchStep`, the name
  filter, and the class `Backend`. The class holds the cache as a
  `map<string, Entry>` and has one method per view. The methods are written
  with the views' early returns and are proved against `FetchStep`. A ghost
  log `providerCalls` records every provider request.
- `holiday_list.dfy` (`HolidayListComponent`): endpoint selection, the
  settlement of a fetch, the render branch, and the class `HolidayList`. The
  class holds the component's state and has one method per handler.

The provider's answer is the parameter `Upstream`: `Reply(status, body)` or
`Raised(message)`. The axios result is the parameter `HttpResult`:
`Received(data)` or `Failed`. An exception that escapes a view outside its
`try` is the outcome `Crash`. This happens when `data.get` is called on a
body that is not a dict, or on a `response` that is not a dict. It happens
when `holidays` cannot be iterated. It also happens when `.get` is called on
a string, which is what iterating a non-empty dict or string yields. Finally,
it happens when `.lower()` is called on a name that is not a string. A
render that throws is the branch `RenderError`.

## Model

| member | source | states |
|---|---|---|
| Views.FetchStep | backend/api/views.py:17-39 | a truthy cached value is served with the cache unchanged and no provider call; otherwise the provider is called; an exception gives 500 with its message as details; a non-200 status is returned as that status with the provider error message; on both errors the cache is unchanged; a 200 body is returned and stored under the key with timeout 86400; no other cache entry changes |
| Views.FilledCacheServes | backend/api/views.py:52-55 | a truthy body cached by one run is served by the next run for the same country and year without calling the provider, whichever view runs; both views use the same key |
| Views.CacheKeyInjective | backend/api/views.py:17 | when neither year contains an underscore, equal cache keys mean equal country and year |
| Views.CacheKeyCollision | backend/api/views.py:52 | without that condition two different pairs, ("a_b","c") and ("a","b_c"), share a key |
| Views.Elements | backend/api/views.py:77 | iteration succeeds exactly for a list, an empty dict or an empty string; a list is iterated element by element, and an empty dict or string iterates nothing |
| Views.HolidaysIn | backend/api/views.py:76 | a body that is not a dict, or whose `response` is not a dict, raises; a missing `response` or missing `holidays` gives the empty list; a present `holidays` is iterated only when it is a list, an empty dict or an empty string, a list being taken as it is; any other value, such as null, raises |
| Views.FilterByName | backend/api/views.py:77 | the comprehension raises exactly when some record is not a dict or has a non-string name; otherwise the result is an order-preserving subsequence of the input, and a record is in it iff it is in the input and its lower-cased name contains the lower-cased query |
| Views.FilterCounts | backend/api/views.py:77 | each matching record is kept as many times as it occurs in the input, and no other record is kept |
| Views.NamelessNeverReturned | backend/api/views.py:77 | a non-empty query never keeps a record with a missing or empty name |
| Views.SameNameKept | backend/api/views.py:77 | a record whose name equals the query up to ASCII case is kept |
| Views.QueryCaseInsensitive | backend/api/views.py:77 | queries that are equal after lower-casing select the same records, or both raise |
| Views.FilterKeepsMatching | backend/api/views.py:77 | a list whose records all match is returned unchanged |
| Views.SearchResponse | backend/api/views.py:75-79 | the view answers instead of raising exactly when the body's holidays can be read and every record is a dict with a string name or none; a body that is not a dict raises; a body without `response` gives an empty list; an answer has status 200 and lists an order-preserving subsequence of the body's holidays that holds a record iff it is among them and its name matches |
| Views.SearchIdempotent | backend/api/views.py:76-79 | searching the search view's own answer again with the same name gives back that answer |
| Views.Backend.ListGet | backend/api/views.py:10-40 | a missing or empty country or year gives 400 with the cache and the provider untouched; otherwise the cache and provider effects are those of FetchStep; an early error response is returned as is, and loaded data is returned unchanged with status 200; the list view never raises |
| Views.Backend.SearchGet | backend/api/views.py:43-79 | a missing or empty name, country or year gives 400 with the cache and the provider untouched; otherwise the cache and provider effects are those of FetchStep with the same key as the list view; an early error response is returned as is, and loaded data is answered by SearchResponse |
| Views.Backend.Load | backend/api/views.py:52-73 | the cache lookup and provider request both views repeat: its result, the new cache and the provider log are exactly those FetchStep describes |
| Values.GetOr | backend/api/views.py:76 | `dict.get(key, default)` gives the stored value for a present key and the default for a missing one |
| Text.LowerChar | backend/api/views.py:77 | the result is never an upper-case letter; upper-case letters map to their lower-case letter and every other character is kept |
| Text.Lower | backend/api/views.py:77 | lower-casing keeps the length, maps each character by LowerChar and leaves no upper-case letter |
| HolidayListComponent.Prop | frontend/src/components/HolidayList.js:35 | reading a property throws exactly on undefined or null; a present key of an object gives its value; anything else gives undefined |
| HolidayListComponent.HolidaysOf | frontend/src/components/HolidayList.js:43 | `response.data.response.holidays` throws when the body is not an object, has no `response`, or has a null `response`; it gives the `holidays` value when `response` is an object holding that key, and undefined for any other `response` |
| HolidayListComponent.EnvelopeReadBack | frontend/src/components/HolidayList.js:35 | reading the list back from the search view's reply gives exactly the list the view put in |
| HolidayListComponent.MissingListBreaksRender | frontend/src/components/HolidayList.js:35 | a resolved body whose `response` lacks `holidays` leaves the list undefined with no error, and the next render throws |
| HolidayListComponent.CardRenders | frontend/src/components/HolidayList.js:93-94 | a card renders iff its holiday is an object with a non-null `date` |
| HolidayListComponent.EndpointFor | frontend/src/components/HolidayList.js:26-42 | a non-empty term selects the search URL with `name` equal to the term verbatim; an empty term selects the list URL without `name`; `country` and `year` are sent exactly when present, with their values, and no other parameter is sent |
| HolidayListComponent.RequestsPassValidation | frontend/src/components/HolidayList.js:37-42 | with a non-empty country and year every request the component sends passes the validation of the view it reaches |
| HolidayListComponent.MissingParamRejected | frontend/src/components/HolidayList.js:12-13 | with the country or year absent from the URL, the parameter is left out and the view's validation fails |
| HolidayListComponent.Settle | frontend/src/components/HolidayList.js:24-50 | the error is cleared iff the request resolved and the list could be read, and then the list is replaced wholesale by the value read; otherwise the error is the failure message and the old list is kept |
| HolidayListComponent.Render | frontend/src/components/HolidayList.js:79-98 | loading shows iff loading; the error text shows iff not loading and the error is truthy; "No holidays found." shows iff neither and the list's length is 0; an undefined or null list, a non-empty string, a number or a boolean, or an array holding a card without a non-null `date`, makes the render throw; cards are shown only for a non-empty array whose every card renders, and then exactly that array is shown |
| HolidayListComponent.HolidayList.Modal | frontend/src/components/HolidayList.js:99-101 | the modal shows the selected holiday iff one is selected and it is truthy |
| HolidayListComponent.HolidayList.constructor | frontend/src/components/HolidayList.js:15-19 | the first render starts with an empty list, an empty search term, no selection, not loading and no error |
| HolidayListComponent.HolidayList.BeginFetch | frontend/src/components/HolidayList.js:21-23 | loading becomes true and the error null before the request, which is EndpointFor of the term; the render then shows loading |
| HolidayListComponent.HolidayList.Complete | frontend/src/components/HolidayList.js:35-50 | loading ends false; the list and error become those Settle gives, and the error is left as it was when the list was read successfully |
| HolidayListComponent.HolidayList.FetchHolidays | frontend/src/components/HolidayList.js:21-51 | the whole fetch sends EndpointFor of the term and leaves loading false with the list and error Settle gives; like every state-changing method it keeps the invariant that the only error ever set is the failure message |
| HolidayListComponent.HolidayList.Navigate | frontend/src/components/HolidayList.js:53-55 | on the first render and on a change of country or year the component fetches with an empty search; with the same values it sends nothing and its state is unchanged; the search term and the selection are untouched |
| HolidayListComponent.HolidayList.SetSearchTerm | frontend/src/components/HolidayList.js:72 | typing sets the search term |
| HolidayListComponent.HolidayList.HandleSearch | frontend/src/components/HolidayList.js:57-60 | submitting fetches with the current search term, with the same effects as FetchHolidays |
| HolidayListComponent.HolidayList.Select | frontend/src/components/HolidayList.js:91 | clicking a shown card selects that record, which the modal then shows; nothing else changes |
| HolidayListComponent.HolidayList.Close | frontend/src/components/HolidayList.js:100 | closing clears the selection and hides the modal; nothing else changes |

## Left out

- Network and framework calls: `requests.get`, `response.json()`, `axios.get`, the DRF `Response` object and `settings.CALENDARIFIC_API_KEY` are foreign calls. The provider's answer and the axios result are method parameters. The provider URL and API key are not modelled.
- What the provider sends and what an exception's `str(e)` says are arbitrary values supplied by the caller.
- Cache expiry: the timeout 86400 is stored with each entry, but entries never expire in the model.
- Django's handling of an exception that escapes a view is only the outcome `Crash`; the server error page it produces is not modelled.
- JSON numbers are integers; floating-point numbers are not modelled.
- Text.Lower: ASCII case mapping only; Python's full Unicode `str.lower()` is not modelled.
- HolidayListComponent.Prop: built-in properties such as `length` on strings and arrays are not modelled, because the component reads only `response`, `holidays`, `date`, `iso` and `name` through it.
- HolidayListComponent.Render: React's refusal to render an object as a child (a holiday whose `name` or `date.iso` is an object) is not modelled; only property accesses that throw give `RenderError`.
- Concurrency: each fetch is one `BeginFetch` followed by one settlement. Interleaved fetches and stale responses overwriting newer ones are not modelled. The code has no guard against them.
- `console.error` in the catch block is logging only.
- Routing and presentation: `frontend/src/App.js`, `backend/api/urls.py`, `frontend/src/components/Home.js`, `frontend/src/components/HolidayModal.js`, the JSX markup and CSS are not part of this model. Only the URL paths of the two views are used, as the endpoint constants.
- Pagination, category filtering and date-range filtering do not exist in the code and are not modelled.
