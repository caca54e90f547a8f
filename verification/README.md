# Instagram profile scraper — a Dafny model of its data logic

The scraper is a small Streamlit application in one Python file. It fetches a
user's profile document from Instagram's web API, turns it into a flat user
record plus at most five video and five image records, formats the follower
figures with thousands separators, and sorts the media for display. It also
has a generic cursor paginator. This project models the parts of `main.py` that
compute something:

- `pyvalue.dfy` (module `PyValue`): decoded JSON values as Python sees them
  (`None`, `bool`, `int`, `str`, `list`, `dict`). It also holds the Python
  operations the code applies to them: truthiness, `dict.get(key, default)`,
  iteration, `[:n]` slicing. An exception is a `Fault` that carries the text
  `str(e)` gives.
- `http.dfy` (module `Http`): one HTTP exchange, given as an input. Either the
  request raised, or there is a status code and a body that `json.loads`
  accepts, rejects as malformed or cannot decode.
- `paginator.dfy` (modules `Paginator`, `PaginatorExamples`):
  `get_data_with_pagination`. The `while` loop is a method. It is proved equal
  to a recursive specification of the run: the URLs requested, the pages read,
  the outcome.
- `thousands.dfy` (module `Thousands`): the `:,` format specification of
  PEP 378, used for "Followers" and "Following".
- `profile.dfy` (module `Profile`): `scrape_user`. The records are built by
  pure functions. The two `for`/`append` loops are a method proved against the
  list comprehension they compute. The whole call, with its early returns, is a
  method proved equal to the function `Scrape`.
- `profile_facts.dfy` (module `ProfileFacts`): what the call promises.
  Defaults, the number and order of media records, how failures are reported,
  and two concrete failing documents.
- `media_sort.dfy` (module `MediaSort`): the sort in `display_media`. It is a
  stable descending sort, or a `TypeError` when the keys cannot be compared.

## Model

| member | source | states |
|---|---|---|
| PyValue.FalsyValues | main.py:26 | `not v`, as tested at main.py:26, 37, 59 and 72, holds exactly for None, False, 0, "", [] and {} |
| PyValue.FixedMessages | main.py:132-133 | `str(e)` reads "unhashable type: 'slice'" for slicing a dict and "Cannot specify ',' with 's'." for `:,` on a str, as in CPython 3.11 |
| PyValue.Lookup | main.py:58 | the value of a dict key is that of its last occurrence in the document (the duplicate-key rule of `json.loads`); absent exactly when no member has that key |
| PyValue.Get | main.py:58 | `v.get(key, default)`: a non-dict raises AttributeError; a missing key gives the default; a present key gives its value even when that value is null |
| PyValue.FirstAt | main.py:29 | the position where a key first occurs among a dict's members |
| PyValue.KeysAfter | main.py:29 | iterating a dict yields exactly its distinct keys, each once, ordered by the position of their first occurrence |
| PyValue.Iterate | main.py:90 | a `for` loop visits the items of a list, the characters of a str, the keys of a dict in first-occurrence order; None, bool and int raise "not iterable"; nothing is visited exactly when the value is falsy |
| PyValue.SliceTo | main.py:88 | `v[:5]`: a list or str is cut to its first five elements; a dict raises "unhashable type: 'slice'"; None, bool and int raise "not subscriptable" |
| Http.Load | main.py:24 | `json.loads(result.content)` succeeds exactly on a response whose body parsed; a malformed body raises JSONDecodeError |
| Thousands.Digits | main.py:74 | decimal notation is at least one digit, and a single digit exactly below ten |
| Thousands.Grouped | main.py:74-75 | the grouped numeral starts with a digit, has a comma exactly where the count of characters from it to the end (itself included) is a multiple of four, and digits elsewhere |
| Thousands.FormatComma | main.py:74-75 | `f"{v:,}"` succeeds exactly on ints and bools; an int is grouped with its sign; a str raises ValueError; None, list and dict raise TypeError |
| Thousands.GroupedDigits | main.py:74-75 | taking the commas out of the grouped numeral leaves plain decimal notation |
| Thousands.DigitsValue | main.py:74-75 | plain decimal notation denotes the number and has no leading zero |
| Thousands.GroupedDenotes | main.py:74-75 | the grouped numeral has the grouping shape with a digit first, reads back as the number, and starts with '0' only for zero |
| Thousands.GroupedExample | main.py:74-75 | 1234567 gives "1,234,567", 0 gives "0", -1000 gives "-1,000" |
| Paginator.PageItems | main.py:26-29 | a document that is not a dict raises AttributeError; a missing `data` gives nothing and a list `data` gives its items; items come only from a truthy `data` |
| Paginator.PageItemsCases | main.py:26-29 | a page contributes nothing when `data` is absent or falsy (null, 0, "", empty); a truthy list gives its items, a str its characters, a dict its keys in first-occurrence order; a truthy int or bool raises "not iterable" |
| Paginator.NextCursor | main.py:36-38 | a cursor that is present is never the empty string; a document that is not a dict raises AttributeError |
| Paginator.NextCursorCases | main.py:36-38 | the cursor is the truthy string under `pagination.next_url`; None when that value is missing or falsy; AttributeError when `pagination` is not a dict; a truthy non-string raises the client's TypeError |
| Paginator.Continue | main.py:22-38 | a run makes no request exactly when the gathered list has reached `limit`; it starts at the given URL; it makes at most as many requests as `limit` exceeds the gathered length; every page that leads on has items; on success the result is the gathered list followed by the pages in order |
| Paginator.SliceList | main.py:40 | `data_list[:limit]`: the first `min(limit, n)` items for a non-negative bound, and all but the last `-limit` items for a negative one |
| Paginator.PaginateGathers | main.py:21-40 | at most `max(limit, 0)` requests; none and `[]` when `limit <= 0`; the first request goes to `url`; on success the result is the first `min(limit, n)` of the `n` items of the fetched pages, in page order |
| Paginator.ContinueFollowsCursors | main.py:22-38 | each recorded page is what its URL served, and each request after the first goes to the cursor of the page before it, which had items |
| Paginator.ContinueStops | main.py:26-38 | a run that ends normally stops because its last page was empty, or the items reached `limit`, or that page had no cursor |
| Paginator.ContinueStopsAtLimit | main.py:31-33 | a run stops once the gathered list reaches `limit`: every request after the first follows a page that left it below `limit` |
| Paginator.StopsAtLimitCons | main.py:31-38 | a page that keeps the list below `limit`, put in front of a run that stops at the limit, gives a run that stops at the limit |
| Paginator.StopsAfterFirst | main.py:35-38 | a run whose first page leads on stops for the cause the rest of the run stops for |
| Paginator.GetDataWithPagination | main.py:19-40 | the `while` loop, with `limit` five by default, returns exactly the outcome of the specified run and requests exactly its URLs |
| PaginatorExamples.TwoPagesLimitFive | main.py:19-40 | pages of 3 and 4 items with the default limit of 5 give both requests and the first five items |
| PaginatorExamples.EmptyPageStops | main.py:26-27 | a page without data ends the loop after one request with `[]` |
| Profile.StatusText | main.py:50 | the report is "Failed to retrieve data. Status code: " followed by exactly the decimal code |
| Profile.Caught | main.py:132-133 | the report is "An error occurred: " followed by exactly the exception's message |
| Profile.Nested | main.py:80 | `v.get(outer, {}).get(inner, default)`: the default when `outer` is missing; the inner value or default when it holds a dict; AttributeError when it holds anything else |
| Profile.Collect | main.py:84 | a list comprehension whose body may raise gives one result per element, in order, or the exception of the first element that raises |
| Profile.CollectAll | main.py:89-107 | when no body raises, the comprehension gives exactly the results of the bodies |
| Profile.CollectStops | main.py:89-107 | the comprehension raises the exception of the first body that raises |
| Profile.KeepTruthy | main.py:72 | the `if` filter keeps exactly the truthy values |
| Profile.KeepTruthyAppend | main.py:72 | the filter works element by element, so it keeps the order of the values |
| Profile.UrlsCollected | main.py:72 | the `url` lookups over a list of dict links give their values in order; the first link that is not a dict raises AttributeError |
| Profile.BioLinks | main.py:72 | for a list of dict links, exactly the truthy `url` values, in order; the first non-dict link raises AttributeError; a non-dict user raises; a null, bool or int `bio_links` raises "not iterable" |
| Profile.EdgeNames | main.py:84 | the names of a list of edges, as for the related profiles (and the tagged users and captions of lines 99-100 and 120-121): a non-dict object raises; a missing outer key gives none; for a list of edges it succeeds exactly when every edge's `node` lookup does, and then gives one name per edge, in order, each the node's field or "N/A" |
| Profile.UserOf | main.py:63-85 | a non-dict user raises; each plain field is the value present or "N/A"; "Followers" and "Following" are the formatted counts; the other counts are the raw values or 0; "Saved Count" equals "Collections Count"; and the record is built exactly when the user is a dict and none of the bio-link, count and related-profile lookups raises |
| Profile.VideoOf | main.py:91-107 | a video record holds each node field, or its default, and the tagged users, captions, counts and location name of its node; an edge or node that is not a dict raises; the record is built exactly when none of the nested lookups raises |
| Profile.ImageOf | main.py:113-129 | the same for an image record, with "Source" and "Accessibility Caption", including when it is built |
| Profile.FirstEdges | main.py:88 | at most five edges are visited, and for a list they are its first five |
| Profile.Extract | main.py:58-60 | an absent or falsy user (with `data` a dict) gives the not-found report with no media, and that report comes from no other case; a document or `data` that is not a dict raises AttributeError; a truthy user gives what `FromUser` builds; at most five videos and five images |
| Profile.FromUser | main.py:63-131 | the record is that of the user object, and the videos and images are the records of the first five edges of their timelines; it succeeds exactly when the record, both timelines and every media record are built |
| Profile.Scrape | main.py:43-133 | every outcome is a message with two empty lists or a record with at most five videos and five images |
| Profile.AppendEach | main.py:89-107 | the `for`/`append` loop builds the same list as the comprehension, or raises the same exception |
| Profile.ScrapeUser | main.py:43-133 | the call with its early returns gives exactly `Scrape` of the response |
| ProfileFacts.UserDefaults | main.py:63-85 | a user object with none of the keys gives "N/A" fields, "0" followers and following, 0 counts and empty lists |
| ProfileFacts.VideoDefaults | main.py:91-107 | a video edge whose node has none of the keys gives the default video record |
| ProfileFacts.ImageDefaults | main.py:113-129 | an image edge whose node has none of the keys gives the default image record |
| ProfileFacts.ScrapeDefaults | main.py:58-131 | a found user with none of the keys gives the default record and no media, not an exception |
| ProfileFacts.StatusTextReadsBack | main.py:50 | the digits after the prefix of a status report read back as the status code |
| ProfileFacts.StatusReported | main.py:49-50 | a status other than 200 is reported with its code and two empty lists |
| ProfileFacts.DecodeReported | main.py:53-56 | a malformed body is reported as "Error decoding JSON response from the server." |
| ProfileFacts.MissingUserReported | main.py:58-60 | an absent, null or empty `data.user` is reported as "User not found or unable to retrieve data." |
| ProfileFacts.NotDictReported | main.py:58 | a document that is not a dict raises at `data.get`, and the call reports that AttributeError |
| ProfileFacts.DataNotDictReported | main.py:58 | a `data` member present but not a dict raises at `.get("user", {})`, and the call reports that AttributeError |
| ProfileFacts.NullDataReported | main.py:58 | the document `{"data": null}` is reported as "'NoneType' object has no attribute 'get'" |
| ProfileFacts.WrappedScrape | main.py:58-133 | for the document `{"data": {"user": u}}` only, with `u` truthy: the call gives what is built from `u`, or reports its exception |
| ProfileFacts.FollowersDenote | main.py:74 | with a non-negative count and a record built, "Followers" is a grouped numeral; without its commas it is exactly the decimal notation of the count, so it reads back as the count and starts with '0' only for zero |
| ProfileFacts.FollowingDenote | main.py:75 | the same for "Following" |
| ProfileFacts.TimelinePrefix | main.py:88 | when a timeline's edges are a list, the loop visits its first `min(5, n)` edges |
| ProfileFacts.CollectPrefix | main.py:88-90 | a comprehension over the first `k` edges gives one result per edge, in order |
| ProfileFacts.VideosFromTimeline | main.py:88-107 | when all records are built, there are `min(5, n)` videos for `n` timeline edges, and video `i` is built from edge `i` |
| ProfileFacts.ImagesFromTimeline | main.py:110-129 | when all records are built, there are `min(5, n)` images for `n` timeline edges, and image `i` is built from edge `i` |
| ProfileFacts.ExtractFromUser | main.py:58-60 | a truthy user object is what the record and the media are built from |
| ProfileFacts.FaultReported | main.py:132-133 | an exception while building the records is reported as "An error occurred: " and its message, with two empty lists |
| ProfileFacts.LocationMustBeDict | main.py:105 | a node whose location is present but not a dict (null, say) makes the video raise |
| ProfileFacts.NullLocationVideo | main.py:105 | a node with `"location": null` raises "'NoneType' object has no attribute 'get'" |
| ProfileFacts.NullLocationFault | main.py:88-107 | the user with that one video raises that AttributeError while building the videos |
| ProfileFacts.NullLocationReported | main.py:132-133 | the call reports that AttributeError instead of a record |
| ProfileFacts.FollowersRaise | main.py:74 | a follower count that cannot be grouped makes the user record raise with that exception |
| ProfileFacts.TextCountRecord | main.py:74 | the user record with the follower count "12" raises "Cannot specify ',' with 's'." |
| ProfileFacts.TextCountFault | main.py:74 | a follower count sent as the string "12" raises "Cannot specify ',' with 's'." |
| ProfileFacts.TextCountReported | main.py:132-133 | the call reports that ValueError instead of a record |
| MediaSort.KeyOf | main.py:190-194 | an int or bool key compares as a number (a bool as 0 or 1), a str as text, and any other value not at all |
| MediaSort.Rank | main.py:189-194 | "Likes", "Comments" and "Date" sort by the record's likes, comment count and taken-at value |
| MediaSort.TextLeTotal | main.py:194 | any two strings are ordered one way or the other |
| MediaSort.TextLeTrans | main.py:194 | the string order is transitive |
| MediaSort.TextLeAntisym | main.py:194 | two strings ordered both ways are equal |
| MediaSort.KeyLeTotal | main.py:189-194 | the key order is total |
| MediaSort.KeyLeTrans | main.py:189-194 | the key order is transitive |
| MediaSort.KeyLeAntisym | main.py:189-194 | keys ordered both ways are equal |
| MediaSort.InsertPermutes | main.py:189-194 | inserting a record adds exactly that record |
| MediaSort.InsertDesc | main.py:189-194 | inserting into a descending list keeps it descending |
| MediaSort.InsertSameKey | main.py:189-194 | an inserted record goes in front of the records of equal key |
| MediaSort.InsertOtherKey | main.py:189-194 | inserting a record leaves the records of every other key as they were |
| MediaSort.SortDescDesc | main.py:189-194 | the sorted list is non-increasing in the key |
| MediaSort.SortDescPermutes | main.py:189-194 | the sorted list is a permutation of the input |
| MediaSort.SortDescStable | main.py:189-194 | records of equal key keep their input order |
| MediaSort.SortMedia | main.py:189-194 | `sorted(..., reverse=True)` raises exactly when there are two or more records whose keys are neither all numbers nor all strings; otherwise it gives a permutation of the input, non-increasing in the key, with ties in input order |

## Left out

- The HTTP client (main.py:9-17, 23, 46) is not modelled. A response, or the upstream as a function from URL to response, is an input. The request URL built from the username is not modelled.
- `json.loads` itself is not modelled. Its outcome is part of the response: a document, a malformed body or an undecodable one.
- JSON floating-point numbers are not part of the value type.
- `@st.cache_data` (main.py:42) is not modelled. `Scrape` is a function, so equal responses give identical results.
- The Streamlit rendering, PIL image loading and `time.strftime` in `display_user_info`, `display_media` and `main` are not modelled. Only the sort in `display_media` is. The early return on an empty media list (main.py:182-184) sorts nothing, and `SortMedia` returns an empty list unchanged.
- Exception texts are those of CPython 3.11. In CPython 3.12 and later a slice is hashable, so `{}[:5]` raises KeyError and not "unhashable type: 'slice'".
- InvalidUrl: the text of httpx's TypeError for a non-string cursor is given in its usual form only.
- MediaSort.SortMedia: list-valued keys count as unorderable here, although Python compares two lists element by element. The TypeError names no operand types here.
- The paginator ignores the status code of each response, as the source does. Raising for a bad status is not part of it.
- The comments of `scrape_user` speak of "NoneType handling" (main.py:62, main.py:87), but only a missing key falls back to its default. The code reads a key that is present with value null as null, and then calls `.get` on it, which raises. The model follows the code (see ProfileFacts.NullLocationReported).
