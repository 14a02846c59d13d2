/**
 * The request side of the NewsAPI.org client: the three endpoint scopes,
 * the stateful `URLRequestBuilder`, and the client's `buildRequest`, which
 * always asks for Swedish technology news with the client's key.
 *
 * A URL is kept abstract as the base it was resolved against, the scope's
 * path and the query-item list; an HTTP request as its method, that URL
 * and its header fields.
 */
module NewsAPIOrg {
  import opened Wrappers
  import opened QueryItems

  /** The three endpoints of the service. */
  datatype Scope = TopHeadlines | Everything | Sources

  /** The path each scope stands for (its raw value). */
  function ScopePath(scope: Scope): (p: string)
    ensures |p| > 4 && p[..4] == "/v2/"
  {
    match scope
    case TopHeadlines => "/v2/top-headlines"
    case Everything => "/v2/everything"
    case Sources => "/v2/sources"
  }

  /** Distinct scopes reach distinct endpoints. */
  lemma ScopePathInjective(a: Scope, b: Scope)
    ensures ScopePath(a) == ScopePath(b) <==> a == b
  {
  }

  datatype Url = Url(base: string, path: string, query: seq<QueryItem>)

  datatype Request = Request(httpMethod: string, url: Url, headers: map<string, string>)

  const AuthorizationHeader := "Authorization"

  /** Builds one request; `country` and `category` replace-or-append by value. */
  class URLRequestBuilder {
    var base: string
    var path: string
    var queryItems: seq<QueryItem>
    var apiKey: Option<string>

    /** A builder for `endpoint` on `baseURL`, with no query items and no key. */
    constructor (baseURL: string, endpoint: Scope)
      ensures base == baseURL && path == ScopePath(endpoint)
      ensures queryItems == [] && apiKey == None
      ensures DistinctValues(queryItems)
    {
      base := baseURL;
      path := ScopePath(endpoint);
      queryItems := [];
      apiKey := None;
    }

    /** Stores `key`, overwriting any earlier one; the URL is untouched. */
    method ApiKey(key: string) returns (self: URLRequestBuilder)
      modifies this`apiKey
      ensures self == this
      ensures apiKey == Some(key)
      ensures queryItems == old(queryItems)
    {
      apiKey := Some(key);
      self := this;
    }

    /** Sets `country=code`, replacing the first item whose value is `code`. */
    method Country(code: string) returns (self: URLRequestBuilder)
      modifies this`queryItems
      ensures self == this
      ensures queryItems == SetByValue(old(queryItems), "country", code)
      ensures apiKey == old(apiKey)
      ensures DistinctValues(old(queryItems)) ==> DistinctValues(queryItems)
    {
      if DistinctValues(queryItems) {
        SetByValuePreservesDistinctValues(queryItems, "country", code);
      }
      var found := FirstIndexOfValue(queryItems, code);
      if found.Some? {
        queryItems := queryItems[found.value := QueryItem("country", code)];
      } else {
        queryItems := queryItems + [QueryItem("country", code)];
      }
      self := this;
    }

    /** Sets `category=category`, replacing the first item whose value is `category`. */
    method Category(category: string) returns (self: URLRequestBuilder)
      modifies this`queryItems
      ensures self == this
      ensures queryItems == SetByValue(old(queryItems), "category", category)
      ensures apiKey == old(apiKey)
      ensures DistinctValues(old(queryItems)) ==> DistinctValues(queryItems)
    {
      if DistinctValues(queryItems) {
        SetByValuePreservesDistinctValues(queryItems, "category", category);
      }
      var found := FirstIndexOfValue(queryItems, category);
      if found.Some? {
        queryItems := queryItems[found.value := QueryItem("category", category)];
      } else {
        queryItems := queryItems + [QueryItem("category", category)];
      }
      self := this;
    }

    /**
     * The finished GET request: the URL as built so far, and an
     * `Authorization` header carrying the key exactly when one was set.
     */
    function Build(): (r: Request)
      reads this
      ensures r.httpMethod == "GET"
      ensures r.url.base == base && r.url.path == path && r.url.query == queryItems
      ensures AuthorizationHeader in r.headers <==> apiKey.Some?
      ensures apiKey.Some? ==> r.headers[AuthorizationHeader] == apiKey.value
      ensures r.headers.Keys <= {AuthorizationHeader}
    {
      var headers := match apiKey
        case Some(key) => map[AuthorizationHeader := key]
        case None => map[];
      Request("GET", Url(base, path, queryItems), headers)
    }
  }

  /** The client: a fixed base URL and the key it was created with. */
  class NewsAPI {
    const baseURL: string := "https://newsapi.org/"
    var apiKey: string

    constructor (apiKey: string)
      ensures this.apiKey == apiKey
    {
      this.apiKey := apiKey;
    }

    /**
     * The request every fetch sends: `country=se` then `category=technology`,
     * the scope's path, and the client's key as `Authorization`.
     */
    method BuildRequest(scope: Scope) returns (r: Request)
      ensures r.httpMethod == "GET"
      ensures r.url == Url(baseURL, ScopePath(scope),
                           [QueryItem("country", "se"), QueryItem("category", "technology")])
      ensures r.headers == map[AuthorizationHeader := apiKey]
    {
      var builder := new URLRequestBuilder(baseURL, scope);
      builder := builder.ApiKey(apiKey);
      builder := builder.Country("se");
      SetByValueAppends([], "country", "se");
      builder := builder.Category("technology");
      SetByValueAppends([QueryItem("country", "se")], "category", "technology");
      r := builder.Build();
    }
  }
}
