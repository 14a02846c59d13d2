# NewsAPI.org request builder — a Dafny model

This project models the request side of the Swift NewsAPI.org client
(`Sources/NewsAPI.org/NewsAPI.swift`):

- `Scope`, the three endpoints and the fixed paths they stand for
  (`/v2/top-headlines`, `/v2/everything`, `/v2/sources`);
- `URLRequestBuilder`, a builder object holding the URL's query-item list and
  an optional API key. `apiKey` overwrites the key; `country` and `category`
  each replace the FIRST query item whose **value** equals the new value
  (whatever that item's name is) or append a new item when none does; `build`
  turns the state into a GET request whose `Authorization` header is present
  exactly when a key was set;
- `NewsAPI.buildRequest`, which always chains
  `apiKey(key).country("se").category("technology").build()`.

Files:

- `wrappers.dfy` — module `Wrappers`, the `Option` type.
- `query_items.dfy` — module `QueryItems`: the query item, the first-index
  search, the replace-or-append-by-value update `SetByValue` shared by
  `country` and `category`, and the lemmas about it.
- `news_api.dfy` — module `NewsAPIOrg`: `Scope`, the abstract `Url` and
  `Request`, the class `URLRequestBuilder` (fields updated in place by its
  methods, each returning the builder itself for chaining, as the Swift
  setters return `self`) and the class `NewsAPI` with `BuildRequest`.

The builder's update matches items by value, not by name. The model keeps that
behaviour. Two consequences are proved: `category(x)` followed by `country(x)`
leaves a single `country=x` item (`CategoryThenCountrySameValue`), and setting
`country` twice with two different values keeps both items, so parameter names
are not kept unique (`SameNameTwiceKeepsBoth`). An expectation of one entry
per parameter name, replaced in place, therefore does not describe the code;
this model follows the code. What the code does keep unique is the set of
values: `SetByValuePreservesDistinctValues` proves it of the update, a new
builder starts with no items, and `Country` and `Category` each promise that a
list without repeated values stays so.

## Model

| member | source | states |
|---|---|---|
| `QueryItems.FirstIndexOfValue` | Sources/NewsAPI.org/NewsAPI.swift:26 | the found index is in range, carries the searched value and no earlier item does; no index is found exactly when no item carries the value |
| `QueryItems.SetByValue` | Sources/NewsAPI.org/NewsAPI.swift:26-29 | the list keeps its length when some item already carries the value and grows by one otherwise; the result contains `name=value`; every item not carrying the value stays at its index |
| `QueryItems.SetByValueAppends` | Sources/NewsAPI.org/NewsAPI.swift:26-29 | when no item carries the value, the list grows by exactly one, the new `name=value` item is last and every earlier item is unchanged |
| `QueryItems.SetByValueReplacesFirstMatch` | Sources/NewsAPI.org/NewsAPI.swift:26-27 | when item `i` is the first carrying the value, it becomes `name=value` whatever its old name, the length is unchanged and every other index is unchanged |
| `QueryItems.SetByValueSupersedes` | Sources/NewsAPI.org/NewsAPI.swift:25-41 | two sets with the same value, under any two names, give the same list as the second set alone |
| `QueryItems.SetByValueIdempotent` | Sources/NewsAPI.org/NewsAPI.swift:25-41 | setting the same name and value twice gives the same list as setting it once |
| `QueryItems.CategoryThenCountrySameValue` | Sources/NewsAPI.org/NewsAPI.swift:26-27 | from an empty list, `category(x)` then `country(x)` leaves exactly `[country=x]` and no `category` item |
| `QueryItems.SameNameTwiceKeepsBoth` | Sources/NewsAPI.org/NewsAPI.swift:25-32 | from an empty list, `country(a)` then `country(b)` with `a != b` leaves both `country` items, in that order |
| `QueryItems.SetByValueValues` | Sources/NewsAPI.org/NewsAPI.swift:25-41 | the values present after an update are those present before plus the new value |
| `QueryItems.SetByValuePreservesDistinctValues` | Sources/NewsAPI.org/NewsAPI.swift:25-41 | a list with no repeated value keeps having no repeated value after an update |
| `NewsAPIOrg.ScopePath` | Sources/NewsAPI.org/NewsAPI.swift:59-63 | every scope's path lies under `/v2/` |
| `NewsAPIOrg.ScopePathInjective` | Sources/NewsAPI.org/NewsAPI.swift:59-63 | two scopes have the same path exactly when they are the same scope |
| `NewsAPIOrg.URLRequestBuilder.constructor` | Sources/NewsAPI.org/NewsAPI.swift:10-18 | a new builder has the scope's path, no query items (so no repeated value) and no key |
| `NewsAPIOrg.URLRequestBuilder.ApiKey` | Sources/NewsAPI.org/NewsAPI.swift:20-23 | the stored key becomes the given one, the query items are untouched, the builder itself is returned |
| `NewsAPIOrg.URLRequestBuilder.Country` | Sources/NewsAPI.org/NewsAPI.swift:25-32 | the items become the replace-or-append-by-value update with name `country`, the key is untouched, a list without repeated values stays so, the builder itself is returned |
| `NewsAPIOrg.URLRequestBuilder.Category` | Sources/NewsAPI.org/NewsAPI.swift:34-41 | the items become the replace-or-append-by-value update with name `category`, the key is untouched, a list without repeated values stays so, the builder itself is returned |
| `NewsAPIOrg.URLRequestBuilder.Build` | Sources/NewsAPI.org/NewsAPI.swift:43-49 | a GET request carrying the builder's path and items unchanged; the `Authorization` header is present if and only if a key was set, equals that key, and is the only header |
| `NewsAPIOrg.NewsAPI.constructor` | Sources/NewsAPI.org/NewsAPI.swift:55-57 | the client keeps the API key it was created with |
| `NewsAPIOrg.NewsAPI.BuildRequest` | Sources/NewsAPI.org/NewsAPI.swift:68-74 | the request is a GET on the scope's path with exactly the items `[country=se, category=technology]` and `Authorization` equal to the client's key |

## Left out

- `QueryItems.FirstIndexOfValue`: values are compared character by character (Unicode scalar by scalar), while Swift's `String ==` compares under Unicode canonical equivalence, so a precomposed `é` and `e` followed by a combining accent match in the code but not in the model; the model agrees with the code whenever equal values share one normal form, as the ASCII constants `se` and `technology` used by `buildRequest` do. Unicode normalisation is not modelled.
- `NewsAPIOrg.URLRequestBuilder.constructor`: the Swift initialiser fails when the scope's path cannot be resolved against the base URL; resolution (section 5.2 of RFC 3986) and `URLComponents` percent-encoding are Foundation internals, so the URL is kept as base, path and item list and the constructor never fails (for the three fixed scope paths the resolution always succeeds). It also assumes the resolved URL has no query of its own, as holds for these paths.
- Query-item values are plain strings: Swift's `URLQueryItem` value is optional, but every item the builder creates carries a value and a new builder starts with none.
- The force-unwraps in `build` and `buildRequest` are taken to succeed, as they do for the fixed base URL and scopes.
- The `articles(...)` overloads (callback, `dataTaskPublisher`, the typed publisher and the `Any`-returning one), `URLSession` data tasks and the empty `ArticlePublisher`: network I/O, asynchronous completion and reactive-stream plumbing.
- JSON decoding through `JSONDecoder` and `NewsAPIDecoder` with ISO 8601 dates: a foreign Foundation call; `Article`, `Source` and `NewsAPIResponse` are not part of this model.
- The `Locale.current.regionCode` default and the `country`/`countryCode`/`category` parameters of the `articles` overloads: platform locale, and the parameters have no effect on the request built.
