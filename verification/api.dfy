/** The requests the registration engine sends to the push-notification
    service: endpoint URLs, JSON bodies (as string-to-string maps) and the
    three kinds of request, together with inverse functions that recover the
    path and the interest from a URL. */
module Api {
  import opened Wrappers
  import opened Outbox

  const PlatformType := "gcm"
  const ApiPrefix := "client_api"
  const ApiVersion := "v1"
  const DefaultHost := "nativepushclient-cluster1.pusher.com"
  /** The versioned API prefix that follows the host in every URL. */
  const ApiBase := "/" + ApiPrefix + "/" + ApiVersion

  /** The HTTP methods (verbs) the engine uses. */
  datatype Verb = Post | Put | Delete

  /** The response listener a request is created with, which decides the
      callback that runs on its response: create-client, update-token or
      subscription change. */
  datatype Handler = OnCreate | OnUpdate | OnModify

  /** One request handed to the transport: its listener, method, URL and
      JSON body. */
  datatype Request = Request(handler: Handler, verb: Verb, url: string, body: map<string, string>)

  function Scheme(encrypted: bool): string
  {
    if encrypted then "https://" else "http://"
  }

  /** Everything before the path: scheme, host and the versioned API prefix. */
  function ApiRoot(encrypted: bool, host: string): string
  {
    Scheme(encrypted) + host + ApiBase
  }

  /** buildURL: scheme, host, versioned prefix, then the path. */
  function BuildUrl(encrypted: bool, host: string, path: string): string
  {
    ApiRoot(encrypted, host) + path
  }

  /** The scheme of a built URL is chosen by `encrypted` alone, the path
      comes last, and nothing else varies in length. */
  lemma BuildUrlShape(encrypted: bool, host: string, path: string)
    ensures var url := BuildUrl(encrypted, host, path);
      && |url| == |Scheme(encrypted)| + |host| + 14 + |path|
      && (encrypted <==> url[..8] == "https://")
      && (!encrypted <==> url[..7] == "http://")
      && url[|url| - |path|..] == path
  {
    var scheme := Scheme(encrypted);
    var root := ApiRoot(encrypted, host);
    var url := root + path;
    assert url == scheme + (host + "/" + ApiPrefix + "/" + ApiVersion + path);
    assert url[..|scheme|] == scheme;
    assert url[4] == scheme[4];
    assert url[|root|..] == path;
  }

  /** The path of a URL built for this scheme and host, if it is one. */
  function PathOf(encrypted: bool, host: string, url: string): (path: Option<string>)
    ensures path.Some? ==> BuildUrl(encrypted, host, path.value) == url
  {
    var root := ApiRoot(encrypted, host);
    if |root| <= |url| && url[..|root|] == root then
      assert root + url[|root|..] == url;
      Some(url[|root|..])
    else None
  }

  /** buildURL loses nothing: the path can be read back from the URL. */
  lemma PathOfBuildUrl(encrypted: bool, host: string, path: string)
    ensures PathOf(encrypted, host, BuildUrl(encrypted, host, path)) == Some(path)
  {
  }

  const ClientsPath := "/clients"

  function TokenPath(id: string): string
  {
    "/clients/" + id + "/token"
  }

  function InterestPath(id: string, interest: string): string
  {
    "/clients/" + id + "/interests/" + interest
  }

  /** The interest named by a per-client interest path, if it is one. */
  function InterestOf(id: string, path: string): (interest: Option<string>)
    ensures interest.Some? ==> InterestPath(id, interest.value) == path
  {
    var prefix := "/clients/" + id + "/interests/";
    if |prefix| <= |path| && path[..|prefix|] == prefix then
      assert prefix + path[|prefix|..] == path;
      Some(path[|prefix|..])
    else None
  }

  /** The interest can be read back from the path built for it. */
  lemma InterestOfInterestPath(id: string, interest: string)
    ensures InterestOf(id, InterestPath(id, interest)) == Some(interest)
  {
  }

  /** createRegistrationJSON: the platform type and the device token. */
  function RegistrationBody(token: string): (body: map<string, string>)
    ensures body.Keys == {"platform_type", "token"}
    ensures body["platform_type"] == PlatformType && body["token"] == token
  {
    map["platform_type" := PlatformType, "token" := token]
  }

  /** The body of a subscription change: the application key only. */
  function SubscriptionBody(apiKey: string): map<string, string>
  {
    map["app_key" := apiKey]
  }

  /** A subscription-change request is one that carries the listener of
      modifySubscription. */
  predicate IsSubscriptionChange(r: Request)
  {
    r.handler == OnModify
  }

  /** The "create client" request of uploadRegistrationToken. */
  function CreateClientRequest(encrypted: bool, host: string, token: string): (r: Request)
    ensures r.verb == Post
    ensures r.body == RegistrationBody(token) && !IsSubscriptionChange(r)
  {
    Request(OnCreate, Post, BuildUrl(encrypted, host, ClientsPath), RegistrationBody(token))
  }

  /** The create-client request goes to `/clients`. */
  lemma CreateClientTarget(encrypted: bool, host: string, token: string)
    ensures PathOf(encrypted, host, CreateClientRequest(encrypted, host, token).url) == Some(ClientsPath)
  {
  }

  /** The "update token" request of updateRegistrationToken. */
  function UpdateTokenRequest(encrypted: bool, host: string, id: string, token: string): (r: Request)
    ensures r.verb == Put
    ensures r.body == RegistrationBody(token) && !IsSubscriptionChange(r)
  {
    Request(OnUpdate, Put, BuildUrl(encrypted, host, TokenPath(id)), RegistrationBody(token))
  }

  /** The update-token request goes to the token path of the client id. */
  lemma UpdateTokenTarget(encrypted: bool, host: string, id: string, token: string)
    ensures PathOf(encrypted, host, UpdateTokenRequest(encrypted, host, id, token).url) == Some(TokenPath(id))
  {
  }

  /** The request modifySubscription sends for one outbox item: POST for a
      subscribe, DELETE for an unsubscribe, addressed to the item's interest
      under the client's id. */
  function SubscriptionRequest(encrypted: bool, host: string, apiKey: string, id: string, item: OutboxItem): (r: Request)
    ensures r.verb == Post <==> item.change == Subscribe
    ensures r.verb == Delete <==> item.change == Unsubscribe
    ensures IsSubscriptionChange(r) && r.body == SubscriptionBody(apiKey)
  {
    var path := InterestPath(id, item.interest);
    Request(OnModify, if item.change == Unsubscribe then Delete else Post, BuildUrl(encrypted, host, path), SubscriptionBody(apiKey))
  }

  /** A subscription change is addressed to the item's interest under the
      given client id, on the given scheme and host. */
  lemma SubscriptionRequestTarget(encrypted: bool, host: string, apiKey: string, id: string, item: OutboxItem)
    ensures var path := PathOf(encrypted, host, SubscriptionRequest(encrypted, host, apiKey, id, item).url);
      path.Some? && InterestOf(id, path.value) == Some(item.interest)
  {
  }
}
