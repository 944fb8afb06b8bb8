/** The request composition layer of the client: URI building for the two
    API variants, the verb helpers, request construction (body, query,
    headers, basic auth) and the create/send/read/decode chain.

    Everything outside the layer is an oracle held in an `Env`: the form
    encoder, the URL check of `http.NewRequest`, the transport and the body
    reader. The JSON decoder is a parameter of the destination's type. */
module Http {
  import opened Wrappers
  import opened Text

  const BaseUrl := "https://api.twilio.com"
  const Version := "2010-04-01"
  const LookupBaseUrl := "https://lookups.twilio.com"
  const LookupVersion := "v1"
  const UserAgent := "twilio-go/0.0.1"
  const FormUrlEncoded := "application/x-www-form-urlencoded"

  /** The two API surfaces: account-scoped resources and the lookup service. */
  datatype ApiType = Regular | Lookup

  /** `url.Values`: each key with its list of values. */
  type Values = map<string, seq<string>>

  /** `http.Header`: each (canonical) header name with its list of values. */
  type Header = map<string, seq<string>>

  /** `Values.Set`: the key now has exactly this one value. */
  function SetValue(v: Values, key: string, value: string): (r: Values)
    ensures key in r && r[key] == [value]
    ensures forall k :: k in v && k != key ==> k in r && r[k] == v[k]
    ensures r.Keys == v.Keys + {key}
  {
    v[key := [value]]
  }

  /** `Values.Add` and `Header.Add`: the value is appended to the key's list. */
  function AddValue(v: Values, key: string, value: string): (r: Values)
    ensures key in r && r[key] == (if key in v then v[key] else []) + [value]
    ensures forall k :: k in v && k != key ==> k in r && r[k] == v[k]
    ensures r.Keys == v.Keys + {key}
  {
    v[key := (if key in v then v[key] else []) + [value]]
  }

  /** The user name and password of HTTP basic authentication (RFC 7617,
      section 2); the base64 header encoding is not modelled. */
  datatype Credential = Credential(username: string, password: string)

  /** The client's credential pair, fixed at construction. */
  datatype Client = Client(accountSid: string, authToken: string)

  /** An outgoing request. An empty `body` is the empty reader the source
      passes when no form is sent. */
  datatype Request = Request(verb: string, uri: string, body: string, header: Header, basicAuth: Credential)

  /** The body stream of one response, identified by a handle the transport
      assigns; only `Env.readAll` looks inside it. */
  datatype BodyStream = BodyStream(handle: nat)

  /** What the transport hands back: the status, the headers and this
      response's own body stream, which `Env.readAll` reads. */
  datatype Response = Response(statusCode: int, status: string, header: Header, body: BodyStream)

  /** The library and network calls the layer depends on, as oracles. */
  datatype Env = Env(
    encode: Values -> string,              // url.Values.Encode (WHATWG URL Standard, section 5)
    acceptsUri: string -> bool,            // whether http.NewRequest can parse the URI
    send: Request -> Result<Response>,     // the HTTP client's Do
    readAll: BodyStream -> Result<string>) // ioutil.ReadAll of a response's body stream

  /** `getFullUri`: the lookup variant has no account segment and no suffix;
      the regular variant is account-scoped and ".json" is appended once,
      after the whole path part. */
  function FullUri(api: ApiType, pathPart: string, accountSid: string): (uri: string)
    ensures api == Lookup ==> uri == LookupBaseUrl + "/" + LookupVersion + "/" + pathPart
    ensures api == Regular ==>
      uri == BaseUrl + "/" + Version + "/Accounts/" + accountSid + "/" + pathPart + ".json"
  {
    if api == Lookup then
      JoinThree(LookupBaseUrl, LookupVersion, pathPart, "/");
      Join([LookupBaseUrl, LookupVersion, pathPart], "/")
    else
      JoinFive(BaseUrl, Version, "Accounts", accountSid, pathPart + ".json", "/");
      Join([BaseUrl, Version, "Accounts", accountSid, pathPart + ".json"], "/")
  }

  /** The form travels as the body: only for POST and PUT with a non-nil form. */
  predicate SendsBody(verb: string, data: Option<Values>)
  {
    data.Some? && (verb == "POST" || verb == "PUT")
  }

  /** The form travels as the query: only for GET with a non-nil form. */
  predicate SendsQuery(verb: string, data: Option<Values>)
  {
    verb == "GET" && data.Some?
  }

  /** The arguments a verb helper forwards to `MakeRequest`. */
  datatype Call = Call(verb: string, api: ApiType, pathPart: string, data: Option<Values>)

  /** `GetResource`: fetch one resource by sid. */
  function GetResource(pathPart: string, sid: string): (call: Call)
    ensures call.verb == "GET" && call.api == Regular && call.data == None
    ensures call.pathPart == pathPart + "/" + sid
    ensures !SendsBody(call.verb, call.data) && !SendsQuery(call.verb, call.data)
  {
    JoinTwo(pathPart, sid, "/");
    Call("GET", Regular, Join([pathPart, sid], "/"), None)
  }

  /** `CreateResource`: post the form to the collection. */
  function CreateResource(pathPart: string, data: Option<Values>): (call: Call)
    ensures call.verb == "POST" && call.api == Regular
    ensures call.pathPart == pathPart && call.data == data
    ensures SendsBody(call.verb, call.data) <==> data.Some?
    ensures !SendsQuery(call.verb, call.data)
  {
    Call("POST", Regular, pathPart, data)
  }

  /** `UpdateResource`: post to one resource by sid. The caller's form is
      not forwarded, whatever it holds. */
  function UpdateResource(pathPart: string, sid: string, data: Option<Values>): (call: Call)
    ensures call.verb == "POST" && call.api == Regular && call.data == None
    ensures call.pathPart == pathPart + "/" + sid
    ensures !SendsBody(call.verb, call.data) && !SendsQuery(call.verb, call.data)
  {
    JoinTwo(pathPart, sid, "/");
    Call("POST", Regular, Join([pathPart, sid], "/"), None)
  }

  /** `ListResource`: get the collection with the form as query. */
  function ListResource(pathPart: string, data: Option<Values>): (call: Call)
    ensures call.verb == "GET" && call.api == Regular
    ensures call.pathPart == pathPart && call.data == data
    ensures SendsQuery(call.verb, call.data) <==> data.Some?
    ensures !SendsBody(call.verb, call.data)
  {
    Call("GET", Regular, pathPart, data)
  }

  /** `LookupResource`: get one lookup resource by sid with the form as query. */
  function LookupResource(pathPart: string, sid: string, data: Option<Values>): (call: Call)
    ensures call.verb == "GET" && call.api == Lookup && call.data == data
    ensures call.pathPart == pathPart + "/" + sid
    ensures SendsQuery(call.verb, call.data) <==> data.Some?
    ensures !SendsBody(call.verb, call.data)
  {
    JoinTwo(pathPart, sid, "/");
    Call("GET", Lookup, Join([pathPart, sid], "/"), data)
  }

  /** The URI a request is built for: the full URI, followed by "?" and the
      encoded form exactly when the form travels as the query. */
  function TargetUri(c: Client, env: Env, call: Call): (uri: string)
    ensures SendsQuery(call.verb, call.data) ==>
      uri == FullUri(call.api, call.pathPart, c.accountSid) + "?" + env.encode(call.data.value)
    ensures !SendsQuery(call.verb, call.data) ==>
      uri == FullUri(call.api, call.pathPart, c.accountSid)
  {
    var full := FullUri(call.api, call.pathPart, c.accountSid);
    if SendsQuery(call.verb, call.data) then
      JoinTwo(full, env.encode(call.data.value), "?");
      Join([full, env.encode(call.data.value)], "?")
    else full
  }

  /** The headers every request carries, whatever its method or variant. */
  const FixedHeaders: Header :=
    map["Accept-Charset" := ["utf-8"], "Accept" := ["application/json"], "User-Agent" := [UserAgent]]

  /** What `CreateRequest` produces, stated declaratively. */
  function RequestFor(c: Client, env: Env, call: Call): (r: Result<Request>)
    ensures r.Ok? <==> env.acceptsUri(TargetUri(c, env, call))
    ensures r.Err? ==> r.error == RequestConstructionError(TargetUri(c, env, call))
    ensures r.Ok? ==> r.value.verb == call.verb && r.value.uri == TargetUri(c, env, call)
    ensures r.Ok? ==> r.value.basicAuth == Credential(c.accountSid, c.authToken)
    ensures r.Ok? ==>
      && r.value.header.Keys
         == {"Accept-Charset", "Accept", "User-Agent"}
            + (if SendsBody(call.verb, call.data) then {"Content-Type"} else {})
      && r.value.header["Accept-Charset"] == ["utf-8"]
      && r.value.header["Accept"] == ["application/json"]
      && r.value.header["User-Agent"] == ["twilio-go/0.0.1"]
    ensures r.Ok? && SendsBody(call.verb, call.data) ==>
      r.value.body == env.encode(call.data.value) && r.value.header["Content-Type"] == [FormUrlEncoded]
    ensures r.Ok? && !SendsBody(call.verb, call.data) ==> r.value.body == ""
  {
    var uri := TargetUri(c, env, call);
    if !env.acceptsUri(uri) then Err(RequestConstructionError(uri))
    else if SendsBody(call.verb, call.data) then
      Ok(Request(call.verb, uri, env.encode(call.data.value),
                 FixedHeaders["Content-Type" := [FormUrlEncoded]],
                 Credential(c.accountSid, c.authToken)))
    else
      Ok(Request(call.verb, uri, "", FixedHeaders, Credential(c.accountSid, c.authToken)))
  }

  /** `CreateRequest`: choose the body, extend the URI with the query, then
      add basic auth and the headers one by one. */
  method CreateRequest(c: Client, env: Env, call: Call) returns (r: Result<Request>)
    ensures r == RequestFor(c, env, call)
  {
    var rb := "";
    if call.data.Some? && (call.verb == "POST" || call.verb == "PUT") {
      rb := env.encode(call.data.value);
    }
    var uri := FullUri(call.api, call.pathPart, c.accountSid);
    if call.verb == "GET" && call.data.Some? {
      uri := Join([uri, env.encode(call.data.value)], "?");
    }
    if !env.acceptsUri(uri) {
      return Err(RequestConstructionError(uri));
    }
    var auth := Credential(c.accountSid, c.authToken);
    var header: Header := map[];
    header := AddValue(header, "Accept-Charset", "utf-8");
    header := AddValue(header, "Accept", "application/json");
    header := AddValue(header, "User-Agent", UserAgent);
    assert header.Keys == FixedHeaders.Keys;
    assert header["Accept-Charset"] == FixedHeaders["Accept-Charset"];
    assert header["Accept"] == FixedHeaders["Accept"];
    assert header["User-Agent"] == FixedHeaders["User-Agent"];
    assert header == FixedHeaders;
    if call.data.Some? && (call.verb == "POST" || call.verb == "PUT") {
      assert "Content-Type" !in header && [] + [FormUrlEncoded] == [FormUrlEncoded];
      header := AddValue(header, "Content-Type", FormUrlEncoded);
    }
    r := Ok(Request(call.verb, uri, rb, header, auth));
  }

  /** What `MakeRequest` produces: the response and the decoded destination
      when building, sending, reading and decoding all succeed; otherwise
      the error of the first step that failed, in that order. */
  function Perform<T>(c: Client, env: Env, decode: string -> Result<T>, call: Call): (res: Result<(Response, T)>)
    ensures res.Ok? ==>
      && RequestFor(c, env, call).Ok?
      && env.send(RequestFor(c, env, call).value) == Ok(res.value.0)
      && env.readAll(res.value.0.body).Ok?
      && decode(env.readAll(res.value.0.body).value) == Ok(res.value.1)
    ensures RequestFor(c, env, call).Err? ==> res == Err(RequestFor(c, env, call).error)
    ensures RequestFor(c, env, call).Ok? && env.send(RequestFor(c, env, call).value).Err? ==>
      res == Err(env.send(RequestFor(c, env, call).value).error)
    ensures RequestFor(c, env, call).Ok? && env.send(RequestFor(c, env, call).value).Ok? ==>
      var resp := env.send(RequestFor(c, env, call).value).value;
      && (env.readAll(resp.body).Err? ==> res == Err(env.readAll(resp.body).error))
      && (env.readAll(resp.body).Ok? ==>
            (decode(env.readAll(resp.body).value).Err? ==> res == Err(decode(env.readAll(resp.body).value).error))
            && (decode(env.readAll(resp.body).value).Ok? ==> res == Ok((resp, decode(env.readAll(resp.body).value).value))))
  {
    match RequestFor(c, env, call)
    case Err(e) => Err(e)
    case Ok(req) =>
      match env.send(req)
      case Err(e) => Err(e)
      case Ok(resp) =>
        match env.readAll(resp.body)
        case Err(e) => Err(e)
        case Ok(body) =>
          match decode(body)
          case Err(e) => Err(e)
          case Ok(v) => Ok((resp, v))
  }

  /** `MakeRequest`: create, send, read and decode, returning early on the
      first error. */
  method MakeRequest<T>(c: Client, env: Env, decode: string -> Result<T>, call: Call)
    returns (res: Result<(Response, T)>)
    ensures res == Perform(c, env, decode, call)
  {
    var req := CreateRequest(c, env, call);
    if req.Err? {
      return Err(req.error);
    }
    var resp := env.send(req.value);
    if resp.Err? {
      return Err(resp.error);
    }
    var body := env.readAll(resp.value.body);
    if body.Err? {
      return Err(body.error);
    }
    var v := decode(body.value);
    if v.Err? {
      return Err(v.error);
    }
    res := Ok((resp.value, v.value));
  }
}
