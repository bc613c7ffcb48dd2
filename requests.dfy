/** Parameter assembly and routing for the four endpoints: `smart` and
    `research` POST a JSON payload to the chat host, `search` and `news` GET
    with a query string from the search host. Parameter values are any Ruby
    value (the type parameter `V`); `None` is `nil`. */
module Requests {
  import opened Wrappers
  import Uri

  const SmartApiBaseUrl := "https://chat-api.you.com"
  const SearchApiBaseUrl := "https://api.ydc-index.io"

  /** The HTTP methods the client issues. */
  datatype Verb = Get | Post

  /** What a request method hands to the transport: the verb, the full endpoint
      URL, and the POST payload or GET query parameters. */
  datatype Request<V> = Request(verb: Verb, url: string, params: map<string, Option<V>>)

  /** `Hash#compact`: the entries whose value is not nil, unchanged. */
  function Compact<V>(h: map<string, Option<V>>): (r: map<string, Option<V>>)
    ensures forall k :: k in r <==> k in h && h[k].Some?
    ensures forall k :: k in r ==> r[k] == h[k]
  {
    map k | k in h && h[k].Some? :: h[k]
  }

  /** `Hash#merge`: all entries of both, those of `other` winning on a shared key. */
  function Merge<V>(h: map<string, Option<V>>, other: map<string, Option<V>>): (r: map<string, Option<V>>)
    ensures r.Keys == h.Keys + other.Keys
    ensures forall k :: k in other ==> r[k] == other[k]
    ensures forall k :: k in h && k !in other ==> r[k] == h[k]
  {
    h + other
  }

  /** The scheme and both host names are of the modelled URL shape. */
  lemma HostsWellFormed()
    ensures Uri.IsScheme("https")
    ensures Uri.IsHost("chat-api.you.com") && Uri.IsHost("api.ydc-index.io")
  {
  }

  /** A path of the modelled shape on the chat host splits back into host and path. */
  lemma ChatEndpointSplit(path: string)
    requires Uri.IsPath(path)
    ensures Uri.BaseUrl(SmartApiBaseUrl + path) == Some(SmartApiBaseUrl)
    ensures Uri.EndpointPath(SmartApiBaseUrl + path) == Some(path)
  {
    var p := Uri.Parts("https", "chat-api.you.com", path);
    HostsWellFormed();
    assert Uri.Compose(p) == SmartApiBaseUrl + path;
    Uri.SplitCompose(p);
    assert p.scheme + "://" + p.host == SmartApiBaseUrl;
  }

  /** A path of the modelled shape on the search host splits back into host and path. */
  lemma IndexEndpointSplit(path: string)
    requires Uri.IsPath(path)
    ensures Uri.BaseUrl(SearchApiBaseUrl + path) == Some(SearchApiBaseUrl)
    ensures Uri.EndpointPath(SearchApiBaseUrl + path) == Some(path)
  {
    var p := Uri.Parts("https", "api.ydc-index.io", path);
    HostsWellFormed();
    assert Uri.Compose(p) == SearchApiBaseUrl + path;
    Uri.SplitCompose(p);
    assert p.scheme + "://" + p.host == SearchApiBaseUrl;
  }

  /** `smart`: POST to the chat host at `/smart`; the payload holds exactly the
      non-nil ones of query, chat_id and instructions, with their values. */
  function Smart<V>(query: Option<V>, chatId: Option<V> := None, instructions: Option<V> := None): (req: Request<V>)
    ensures req.verb == Post
    ensures Uri.BaseUrl(req.url) == Some(SmartApiBaseUrl) && Uri.EndpointPath(req.url) == Some("/smart")
    ensures forall k :: k in req.params <==>
      (k == "query" && query.Some?) || (k == "chat_id" && chatId.Some?) || (k == "instructions" && instructions.Some?)
    ensures "query" in req.params ==> req.params["query"] == query
    ensures "chat_id" in req.params ==> req.params["chat_id"] == chatId
    ensures "instructions" in req.params ==> req.params["instructions"] == instructions
  {
    assert Uri.IsPath("/smart");
    ChatEndpointSplit("/smart");
    Request(Post, SmartApiBaseUrl + "/smart",
            Compact(map["query" := query, "chat_id" := chatId, "instructions" := instructions]))
  }

  /** `research`: POST to the chat host at `/research`; the payload holds exactly
      the non-nil ones of query and chat_id, with their values. */
  function Research<V>(query: Option<V>, chatId: Option<V> := None): (req: Request<V>)
    ensures req.verb == Post
    ensures Uri.BaseUrl(req.url) == Some(SmartApiBaseUrl) && Uri.EndpointPath(req.url) == Some("/research")
    ensures forall k :: k in req.params <==> (k == "query" && query.Some?) || (k == "chat_id" && chatId.Some?)
    ensures "query" in req.params ==> req.params["query"] == query
    ensures "chat_id" in req.params ==> req.params["chat_id"] == chatId
  {
    assert Uri.IsPath("/research");
    ChatEndpointSplit("/research");
    Request(Post, SmartApiBaseUrl + "/research", Compact(map["query" := query, "chat_id" := chatId]))
  }

  /** `search`: GET from the search host at `/search`; the query parameters are
      `query` and every extra keyword parameter, nil ones included. Ruby binds a
      `query:` keyword to the named parameter, so the extras never hold it. */
  function Search<V>(query: Option<V>, params: map<string, Option<V>>): (req: Request<V>)
    requires "query" !in params
    ensures req.verb == Get
    ensures Uri.BaseUrl(req.url) == Some(SearchApiBaseUrl) && Uri.EndpointPath(req.url) == Some("/search")
    ensures req.params.Keys == {"query"} + params.Keys
    ensures req.params["query"] == query
    ensures forall k :: k in params ==> req.params[k] == params[k]
  {
    assert Uri.IsPath("/search");
    IndexEndpointSplit("/search");
    Request(Get, SearchApiBaseUrl + "/search", Merge(map["query" := query], params))
  }

  /** `news`: GET from the search host at `/news`, with the same parameters as `search`. */
  function News<V>(query: Option<V>, params: map<string, Option<V>>): (req: Request<V>)
    requires "query" !in params
    ensures req.verb == Get
    ensures Uri.BaseUrl(req.url) == Some(SearchApiBaseUrl) && Uri.EndpointPath(req.url) == Some("/news")
    ensures req.params.Keys == {"query"} + params.Keys
    ensures req.params["query"] == query
    ensures forall k :: k in params ==> req.params[k] == params[k]
  {
    assert Uri.IsPath("/news");
    IndexEndpointSplit("/news");
    Request(Get, SearchApiBaseUrl + "/news", Merge(map["query" := query], params))
  }

  /** A POST payload never carries nil, while GET parameters keep a nil extra. */
  lemma NilHandling<V>(query: Option<V>, chatId: Option<V>, instructions: Option<V>,
                       params: map<string, Option<V>>, key: string)
    requires "query" !in params && key in params && params[key].None?
    ensures forall k :: k in Smart(query, chatId, instructions).params ==> Smart(query, chatId, instructions).params[k].Some?
    ensures forall k :: k in Research(query, chatId).params ==> Research(query, chatId).params[k].Some?
    ensures key in Search(query, params).params && Search(query, params).params[key].None?
    ensures key in News(query, params).params && News(query, params).params[key].None?
  {
  }
}
