/** The `Api` class of phpipam.py: configuration resolution, the token
    request, and `query`, the one primitive every lookup is built on.

    `Api.__init__` writes its fields once and nothing changes them
    afterwards, so an `Api` is a value here, and `Connect` is the
    constructor together with the ways it can fail. The remote service is a
    `Transport`: a function from the request sent to the reply received. */
module Session {
  import opened Outcomes
  import opened PyJson

  /** The trust store used when the configuration names none. */
  const DefaultVerify := "/etc/ssl/certs/ca-certificates.crt"

  /** The path `Api` appends to the configured url. */
  const LookupPrefix := "/api/lookup/"

  datatype Verb = Get | Post

  /** The HTTP Basic credentials of the token request. */
  datatype Credentials = Credentials(user: Json, password: Json)

  /** Everything a `requests.request` call of the module puts on the wire:
      method, url, basic auth, headers and the `verify` argument. */
  datatype Request = Request(
    verb: Verb,
    url: string,
    auth: Option<Credentials>,
    headers: map<string, Json>,
    verify: Json)

  /** A reply: either `raise_for_status()` raised for its status, or its body
      decoded as JSON. */
  datatype Reply = Refused(status: int) | Body(json: Json)

  /** The remote {php}IPAM service. */
  type Transport = Request -> Reply

  /** The four settings `Api.__init__` reads. */
  datatype Settings = Settings(url: Json, user: Json, password: Json, verify: Json)

  /** The fields of an `Api` object after `__init__`. */
  datatype Api = Api(
    phpipamUrl: Json,
    user: Json,
    password: Json,
    apiUrl: string,
    verify: Json,
    token: Json)

  /** `master_opts.get('phpipam', {})`. */
  function Section(opts: map<string, Json>): Json {
    Lookup(opts, "phpipam", Empty)
  }

  /** The section has every required key, each at a dict. */
  predicate HasSettings(section: Json) {
    && section.JObject?
    && "url" in section.fields
    && "auth" in section.fields
    && section.fields["auth"].JObject?
    && "user" in section.fields["auth"].fields
    && "password" in section.fields["auth"].fields
  }

  /** Reading the section stops at a missing key (a `KeyError`). */
  predicate LacksSetting(section: Json) {
    && section.JObject?
    && ("url" !in section.fields
        || "auth" !in section.fields
        || (section.fields["auth"].JObject?
            && ("user" !in section.fields["auth"].fields
                || "password" !in section.fields["auth"].fields)))
  }

  /** The `except KeyError` of `__init__`: a missing key becomes
      CommandExecutionError; other exceptions pass through. */
  function CatchKeyError<T>(r: Result<T>): (c: Result<T>)
    ensures c.Ok? == r.Ok? && (c.Ok? ==> c.value == r.value)
    ensures c.Err? ==> c.error == if r.error.KeyMissing? then ConfigMissing else r.error
  {
    if r.Err? && r.error.KeyMissing? then Err(ConfigMissing) else r
  }

  /** The `try` block of `__init__` and the `verify` default that follows it.
      Only presence is checked: empty strings are accepted. */
  function ReadSettings(section: Json): (r: Result<Settings>)
    ensures r.Ok? <==> HasSettings(section)
    ensures r == Err(ConfigMissing) <==> LacksSetting(section)
    ensures r.Err? && r.error != ConfigMissing ==> r.error == TypeFault
    ensures r.Ok? ==>
      var auth := section.fields["auth"].fields;
      r.value == Settings(section.fields["url"], auth["user"], auth["password"],
                          Lookup(section.fields, "verify", JStr(DefaultVerify)))
  {
    var url :- CatchKeyError(Index(section, "url"));
    var auth :- CatchKeyError(Index(section, "auth"));
    var user :- CatchKeyError(Index(auth, "user"));
    var password :- CatchKeyError(Index(auth, "password"));
    Ok(Settings(url, user, password, Lookup(section.fields, "verify", JStr(DefaultVerify))))
  }

  /** The token request of `_get_token`. */
  function AuthRequest(s: Settings): Request {
    Request(Post, Render(s.url) + LookupPrefix + "/" + "user",
            Some(Credentials(s.user, s.password)), map[], s.verify)
  }

  /** The reply carries `data.token`. */
  predicate HasToken(reply: Reply) {
    && reply.Body?
    && reply.json.JObject?
    && "data" in reply.json.fields
    && reply.json.fields["data"].JObject?
    && "token" in reply.json.fields["data"].fields
  }

  /** `_get_token`: the token is `data.token` of the reply. */
  function FetchToken(s: Settings, net: Transport): (r: Result<Json>)
    ensures r.Ok? <==> HasToken(net(AuthRequest(s)))
    ensures r.Ok? ==> r.value == net(AuthRequest(s)).json.fields["data"].fields["token"]
    ensures net(AuthRequest(s)).Refused? ==> r == Err(HttpError(net(AuthRequest(s)).status))
  {
    match net(AuthRequest(s))
    case Refused(status) => Err(HttpError(status))
    case Body(json) =>
      var data :- Index(json, "data");
      Index(data, "token")
  }

  /** `Api()`: `opts` is the master configuration, `None` when it cannot be
      read; one token request is sent through `net`. */
  function Connect(opts: Option<map<string, Json>>, net: Transport): (r: Result<Api>)
    ensures opts.None? ==> r == Err(ConfigUnreadable)
    ensures opts.Some? && LacksSetting(Section(opts.value)) ==> r == Err(ConfigMissing)
    ensures opts.Some? && !HasSettings(Section(opts.value)) ==> r.Err?
    ensures r.Ok? ==>
      && opts.Some?
      && var section := Section(opts.value).fields;
      && var auth := section["auth"].fields;
      && var api := r.value;
      && api.phpipamUrl == section["url"]
      && api.user == auth["user"]
      && api.password == auth["password"]
      && api.verify == (if "verify" in section then section["verify"] else JStr(DefaultVerify))
      && api.apiUrl == Render(section["url"]) + "/api/lookup/"
      && var reply := net(Request(Post, api.apiUrl + "/" + "user",
                                  Some(Credentials(api.user, api.password)), map[], api.verify));
      && HasToken(reply)
      && api.token == reply.json.fields["data"].fields["token"]
    ensures opts.Some? && HasSettings(Section(opts.value)) ==>
      (r.Ok? <==> HasToken(net(AuthRequest(ReadSettings(Section(opts.value)).value))))
  {
    if opts.None? then Err(ConfigUnreadable)
    else
      var s :- ReadSettings(Section(opts.value));
      var token :- FetchToken(s, net);
      Ok(Api(s.url, s.user, s.password, Render(s.url) + LookupPrefix, s.verify, token))
  }

  /** The request `query(resource)` sends. */
  function QueryRequest(api: Api, resource: string): Request {
    Request(Get, api.apiUrl + "/" + resource, None,
            map["token" := api.token, "Content-Type" := JStr("application/json")],
            api.verify)
  }

  /** The decision `query` takes on a decoded body: a `data` field wins,
      anything else is the empty mapping. `'data' in json` is a key test on a
      dict, a membership test on a list and a substring test on a string, and
      subscripting a list or string with a string raises; so does the
      `json['message']` handed to the debug log, which Python evaluates before
      the call whether or not the message is logged. */
  function Normalise(json: Json): (r: Result<Json>)
    ensures json.JObject? ==> r == Ok(Lookup(json.fields, "data", Empty))
    ensures !json.JObject? && r.Ok? ==> r.value == Empty
    ensures r.Err? ==> r.error == TypeFault
    ensures json.JArray? ==> (r.Ok? <==> JStr("data") !in json.items && JStr("message") !in json.items)
    ensures json.JStr? ==> (r.Ok? <==> !Contains(json.s, "data") && !Contains(json.s, "message"))
    ensures json.JNull? || json.JBool? || json.JInt? ==> r.Err?
  {
    match json
    case JObject(fields) => if "data" in fields then Ok(fields["data"]) else Ok(Empty)
    case JArray(items) =>
      if JStr("data") in items || JStr("message") in items then Err(TypeFault) else Ok(Empty)
    case JStr(s) =>
      if Contains(s, "data") || Contains(s, "message") then Err(TypeFault) else Ok(Empty)
    case _ => Err(TypeFault)
  }

  /** `Api.query(resource)`. */
  function Query(api: Api, net: Transport, resource: string): (r: Result<Json>)
    ensures net(QueryRequest(api, resource)).Refused? ==>
      r == Err(HttpError(net(QueryRequest(api, resource)).status))
    ensures net(QueryRequest(api, resource)).Body? ==>
      r == Normalise(net(QueryRequest(api, resource)).json)
  {
    match net(QueryRequest(api, resource))
    case Refused(status) => Err(HttpError(status))
    case Body(json) => Normalise(json)
  }

  /** A `message` field never changes what `query` returns: only `data`
      decides. */
  lemma MessageIgnored(fields: map<string, Json>, message: Json)
    ensures Normalise(JObject(fields["message" := message]))
         == Normalise(JObject(fields - {"message"}))
  {
  }

  /** Every request of a session goes to the configured url, then
      `/api/lookup/`, a further `/`, then the resource, and carries the token
      the session obtained. */
  lemma RequestUrls(opts: Option<map<string, Json>>, net: Transport, resource: string)
    requires Connect(opts, net).Ok?
    ensures
      var api := Connect(opts, net).value;
      var base := Render(Section(opts.value).fields["url"]);
      && QueryRequest(api, resource).url == base + "/api/lookup/" + "/" + resource
      && QueryRequest(api, resource).headers["token"] == api.token
      && AuthRequest(ReadSettings(Section(opts.value)).value).url
         == base + "/api/lookup/" + "/" + "user"
  {
  }
}
