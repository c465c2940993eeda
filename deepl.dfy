/** Model of src/lib.rs: the `DeepLApiBuilder` that collects the key, the
    account tier and an optional HTTP client, the `DeepLApi` value it
    produces, and how a route is resolved against the API's base URL. */
module DeepL {
  import opened Wrappers

  /** A `reqwest::Client`: the default one, or one configured by the caller
      (told apart only by an identity). */
  datatype HttpClient = DefaultClient | CustomClient(id: nat)

  /** `DeepLApiInner`: the client, the value sent in the `Authorization`
      header, and the base URL every route is resolved against. */
  datatype DeepLApi = DeepLApi(client: HttpClient, key: string, endpoint: string)

  const ProEndpoint: string := "https://api.deepl.com/v2/"
  const FreeEndpoint: string := "https://api-free.deepl.com/v2/"
  const AuthScheme: string := "DeepL-Auth-Key "

  /** The builder returned by `DeepLApi::with`; its setters change one field
      each and hand back the same builder for chaining. */
  class DeepLApiBuilder {
    var isPro: bool
    var client: Option<HttpClient>
    var key: string

    /** `DeepLApiBuilder::init` (reached through `DeepLApi::with`): the key,
        the free tier, and no client. */
    constructor Init(key: string)
      ensures this.key == key && !isPro && client == None
    {
      this.key := key;
      isPro := false;
      client := None;
    }

    /** `client(c)`: use a caller-supplied HTTP client. */
    method SetClient(c: HttpClient) returns (self: DeepLApiBuilder)
      modifies this
      ensures self == this
      ensures client == Some(c)
      ensures isPro == old(isPro) && key == old(key)
    {
      client := Some(c);
      self := this;
    }

    /** `is_pro(b)`: choose the paid (pro) or the free tier. */
    method SetIsPro(isPro: bool) returns (self: DeepLApiBuilder)
      modifies this
      ensures self == this
      ensures this.isPro == isPro
      ensures client == old(client) && key == old(key)
    {
      this.isPro := isPro;
      self := this;
    }

    /** `new(&self)`: reads the builder without changing it. The pro URL is
        chosen exactly when the builder is set to pro, the key is sent as
        `DeepL-Auth-Key <key>` (so it can be read back), and a missing client
        is replaced by the default one. */
    function New(): (api: DeepLApi)
      reads this
      ensures api.endpoint == ProEndpoint <==> isPro
      ensures api.endpoint == FreeEndpoint <==> !isPro
      ensures |api.key| >= |AuthScheme| && api.key[..|AuthScheme|] == AuthScheme
      ensures api.key[|AuthScheme|..] == key
      ensures api.client == (if client.Some? then client.value else DefaultClient)
    {
      var endpoint := if isPro then ProEndpoint else FreeEndpoint;
      DeepLApi(client.GetOr(DefaultClient), AuthScheme + key, endpoint)
    }
  }

  /** The prefix of `url` up to and including its last `/`: the "directory"
      that a relative reference is merged into. */
  function Directory(url: string): (dir: string)
    ensures |dir| <= |url| && dir == url[..|dir|]
    ensures dir == "" || dir[|dir| - 1] == '/'
    ensures forall i :: |dir| <= i < |url| ==> url[i] != '/'
  {
    if |url| == 0 then ""
    else if url[|url| - 1] == '/' then url
    else Directory(url[..|url| - 1])
  }

  /** A route that is a plain relative path: no scheme, no leading `/`, no
      query, fragment, dot segment or character that would be percent-encoded. */
  predicate PlainRoute(route: string)
  {
    && (|route| == 0 || route[0] != '/')
    && forall i :: 0 <= i < |route| ==>
         ('a' <= route[i] <= 'z') || ('A' <= route[i] <= 'Z') || ('0' <= route[i] <= '9')
         || route[i] == '-' || route[i] == '_' || route[i] == '~' || route[i] == '/'
  }

  /** `get_endpoint(route)`: `endpoint.join(route)`. Section 5.2 of RFC 3986
      resolves an empty reference to the base itself and merges a plain
      relative path into the base URL's directory, so against a base ending
      in `/` the result is the base followed by the route. */
  function GetEndpoint(api: DeepLApi, route: string): (url: string)
    requires PlainRoute(route)
    ensures |api.endpoint| > 0 && api.endpoint[|api.endpoint| - 1] == '/' ==> url == api.endpoint + route
    ensures |url| >= |route| && url[|url| - |route|..] == route
    ensures route == "" ==> url == api.endpoint
  {
    if route == "" then api.endpoint else Directory(api.endpoint) + route
  }

  /** Every API made by `new` resolves a plain route to its base URL followed
      by the route, e.g. "https://api.deepl.com/v2/glossaries". */
  lemma RoutesExtendTheBase(b: DeepLApiBuilder, route: string)
    requires PlainRoute(route)
    ensures GetEndpoint(b.New(), route) == b.New().endpoint + route
  {
    var api := b.New();
    assert ProEndpoint[|ProEndpoint| - 1] == '/';
    assert FreeEndpoint[|FreeEndpoint| - 1] == '/';
  }
}
