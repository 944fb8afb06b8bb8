/** The messages service: creating a message (with its status check),
    building the send form, and the iterator that walks the paginated
    message list. */
module Messages {
  import opened Wrappers
  import opened Text
  import opened Http
  import HttpProperties

  /** The collection every message call addresses. */
  const PathPart := "Messages"

  /** A created message as decoded from the create response. */
  datatype Message = Message(body: string, from: string, to: string, price: string, sid: string)

  /** One listed message. Only its identity matters here; the remaining
      JSON fields are a record layout and are not modelled. */
  datatype MessageDetails = MessageDetails(sid: string, from: string, to: string, body: string, status: string)

  /** The two fields of a decoded list page the iterator uses. */
  datatype Page = Page(messages: seq<MessageDetails>, nextPageUri: string)

  /** What `Next` hands back: a message, the end-of-list signal (the
      source's nil message with a nil error), or an error. */
  datatype NextResult = Item(message: MessageDetails) | End | Failed(error: Error)

  /** `Create`'s status mapping as written: the check "code < 200 and
      code > 299" can never hold, so every dispatched create is accepted. */
  function CreateResultAsWritten(made: Result<(Response, Message)>): (res: Result<Message>)
    ensures made.Err? ==> res == Err(made.error)
    ensures made.Ok? ==> res == Ok(made.value.1)
  {
    match made
    case Err(e) => Err(e)
    case Ok((resp, msg)) =>
      if resp.statusCode < 200 && resp.statusCode > 299 then
        Err(RemoteServiceError(resp.status, resp.statusCode))
      else
        Ok(msg)
  }

  /** `Create`'s status mapping as intended: a response outside 200-299 is
      reported as a remote service error carrying the status line. */
  function CreateResult(made: Result<(Response, Message)>): (res: Result<Message>)
    ensures res.Ok? <==> made.Ok? && 200 <= made.value.0.statusCode <= 299
    ensures res.Ok? ==> res.value == made.value.1
    ensures made.Err? ==> res == Err(made.error)
    ensures made.Ok? && !(200 <= made.value.0.statusCode <= 299) ==>
      res == Err(RemoteServiceError(made.value.0.status, made.value.0.statusCode))
  {
    match made
    case Err(e) => Err(e)
    case Ok((resp, msg)) =>
      if resp.statusCode < 200 || resp.statusCode > 299 then
        Err(RemoteServiceError(resp.status, resp.statusCode))
      else
        Ok(msg)
  }

  /** A server error shows the difference: the check as written accepts a
      500 response as a created message, the intended check rejects it. */
  lemma AsWrittenAcceptsServerError(msg: Message)
    ensures var made := Ok((Response(500, "500 Internal Server Error", map[], BodyStream(0)), msg));
      CreateResultAsWritten(made) == Ok(msg) && CreateResult(made).Err?
  {
  }

  /** `Create`: post the form to the message collection and map the status.
      The source calls MakeRequest here with no ApiType argument, which does
      not match MakeRequest's five parameters; this model sends what
      CreateResource sends: a POST to the regular variant with no sid. */
  method Create(c: Client, env: Env, decode: string -> Result<Message>, data: Option<Values>)
    returns (res: Result<Message>)
    ensures res == CreateResult(Perform(c, env, decode, CreateResource(PathPart, data)))
    ensures res.Ok? ==>
      var req := RequestFor(c, env, CreateResource(PathPart, data));
      && req.Ok?
      && req.value.verb == "POST"
      && req.value.uri == BaseUrl + "/" + Version + "/Accounts/" + c.accountSid + "/Messages.json"
  {
    var made := MakeRequest(c, env, decode, CreateResource(PathPart, data));
    res := CreateResult(made);
  }

  /** The form `SendMessage` posts: one Body, one From and one To value, and
      a MediaUrl list holding the given URLs in order when there are any. */
  function MessageForm(from: string, to: string, body: string, mediaUrls: Option<seq<string>>): (v: Values)
    ensures v.Keys == {"Body", "From", "To"} + (if mediaUrls.Some? && mediaUrls.value != [] then {"MediaUrl"} else {})
    ensures v["Body"] == [body] && v["From"] == [from] && v["To"] == [to]
    ensures "MediaUrl" in v ==> v["MediaUrl"] == mediaUrls.value
  {
    var fields := map["Body" := [body], "From" := [from], "To" := [to]];
    if mediaUrls.Some? && mediaUrls.value != [] then fields["MediaUrl" := mediaUrls.value] else fields
  }

  /** `SendMessage`: set the three fields, add each media URL (each given by
      its rendered text), then create. */
  method SendMessage(c: Client, env: Env, decode: string -> Result<Message>,
                     from: string, to: string, body: string, mediaUrls: Option<seq<string>>)
    returns (res: Result<Message>)
    ensures res == CreateResult(Perform(c, env, decode,
                                        CreateResource(PathPart, Some(MessageForm(from, to, body, mediaUrls)))))
  {
    var v: Values := map[];
    v := SetValue(v, "Body", body);
    v := SetValue(v, "From", from);
    v := SetValue(v, "To", to);
    ghost var fields := v;
    if mediaUrls.Some? {
      var urls := mediaUrls.value;
      var i := 0;
      while i < |urls|
        invariant 0 <= i <= |urls|
        invariant v == if i == 0 then fields else fields["MediaUrl" := urls[..i]]
      {
        assert urls[..i + 1] == (if i == 0 then [] else urls[..i]) + [urls[i]];
        v := AddValue(v, "MediaUrl", urls[i]);
        i := i + 1;
      }
      assert urls[..|urls|] == urls;
    }
    assert v == MessageForm(from, to, body, mediaUrls);
    res := Create(c, env, decode, Some(v));
  }

  /** The parameters `ListMessages` starts from: only the page size, as its
      canonical decimal text, which reads back as the requested number. */
  function PageSizeParams(messagesPerPage: int): (p: Values)
    ensures p.Keys == {"PageSize"} && |p["PageSize"]| == 1
    ensures p["PageSize"] == [Itoa(messagesPerPage)]
    ensures ParseDecimal(p["PageSize"][0]) == messagesPerPage
  {
    ItoaRoundTrip(messagesPerPage);
    map["PageSize" := [Itoa(messagesPerPage)]]
  }

  /** The lazy cursor over the paginated message list. */
  class MessageIterator {
    var pos: int
    var messages: seq<MessageDetails>
    var params: Values

    const client: Client
    const env: Env
    /** json.Unmarshal of a list page. */
    const decodePage: string -> Result<Page>
    /** url.Parse of a next-page URI followed by its Query(). */
    const queryOf: string -> Result<Values>

    /** The buffer position is never past the buffer's end. */
    ghost predicate Valid()
      reads this
    {
      0 <= pos <= |messages|
    }

    /** The page the list call with parameters `p` produces; the response
        itself is discarded. The call is a GET of the message collection
        with `p` as its query. */
    function ListPage(p: Values): (r: Result<Page>)
      ensures r.Ok? ==>
        var req := RequestFor(client, env, ListResource(PathPart, Some(p)));
        && req.Ok?
        && req.value.verb == "GET"
        && req.value.uri == BaseUrl + "/" + Version + "/Accounts/" + client.accountSid
                            + "/Messages.json?" + env.encode(p)
        && req.value.body == ""
      ensures r.Ok? ==> Perform(client, env, decodePage, ListResource(PathPart, Some(p))).Ok?
                        && r.value == Perform(client, env, decodePage, ListResource(PathPart, Some(p))).value.1
      ensures r.Err? ==> Perform(client, env, decodePage, ListResource(PathPart, Some(p))).Err?
                         && r.error == Perform(client, env, decodePage, ListResource(PathPart, Some(p))).error
    {
      HttpProperties.CollectionUris(client, env, PathPart, Some(p));
      match Perform(client, env, decodePage, ListResource(PathPart, Some(p)))
      case Ok(made) => Ok(made.1)
      case Err(e) => Err(e)
    }

    /** `ListMessages`: an iterator with an empty buffer that will ask for
        pages of the given size. */
    constructor ListMessages(client: Client, env: Env, decodePage: string -> Result<Page>,
                             queryOf: string -> Result<Values>, messagesPerPage: int)
      ensures Valid()
      ensures pos == 0 && messages == [] && params == PageSizeParams(messagesPerPage)
      ensures this.client == client && this.env == env
      ensures this.decodePage == decodePage && this.queryOf == queryOf
    {
      this.client := client;
      this.env := env;
      this.decodePage := decodePage;
      this.queryOf := queryOf;
      pos := 0;
      messages := [];
      params := PageSizeParams(messagesPerPage);
    }

    /** `fetch`: list one page with the current parameters; only when both
        the list call and the next-page URI succeed are the buffer, the
        position and the parameters replaced. */
    method Fetch() returns (err: Option<Error>)
      modifies this
      ensures ListPage(old(params)).Err? ==>
        err == Some(ListPage(old(params)).error) && unchanged(this)
      ensures ListPage(old(params)).Ok? && queryOf(ListPage(old(params)).value.nextPageUri).Err? ==>
        err == Some(queryOf(ListPage(old(params)).value.nextPageUri).error) && unchanged(this)
      ensures ListPage(old(params)).Ok? && queryOf(ListPage(old(params)).value.nextPageUri).Ok? ==>
        && err == None
        && messages == ListPage(old(params)).value.messages
        && pos == 0
        && params == queryOf(ListPage(old(params)).value.nextPageUri).value
    {
      var made := MakeRequest(client, env, decodePage, ListResource(PathPart, Some(params)));
      if made.Err? {
        return Some(made.error);
      }
      var page := made.value.1;
      var next := queryOf(page.nextPageUri);
      if next.Err? {
        return Some(next.error);
      }
      params := next.value;
      messages := page.messages;
      pos := 0;
      err := None;
    }

    /** `Next`: yield the buffered message if there is one; otherwise fetch,
        and signal the end when the fetched page is empty. */
    method Next() returns (r: NextResult)
      requires Valid()
      modifies this
      ensures Valid()
      ensures old(pos) < |old(messages)| ==>
        && r == Item(old(messages)[old(pos)])
        && pos == old(pos) + 1
        && messages == old(messages)
        && params == old(params)
      ensures old(pos) >= |old(messages)| && ListPage(old(params)).Err? ==>
        r == Failed(ListPage(old(params)).error) && unchanged(this)
      ensures old(pos) >= |old(messages)| && ListPage(old(params)).Ok?
              && queryOf(ListPage(old(params)).value.nextPageUri).Err? ==>
        r == Failed(queryOf(ListPage(old(params)).value.nextPageUri).error) && unchanged(this)
      ensures old(pos) >= |old(messages)| && ListPage(old(params)).Ok?
              && queryOf(ListPage(old(params)).value.nextPageUri).Ok? ==>
        var page := ListPage(old(params)).value;
        && messages == page.messages
        && params == queryOf(page.nextPageUri).value
        && (page.messages == [] ==> r == End && pos == 0)
        && (page.messages != [] ==> r == Item(page.messages[0]) && pos == 1)
      ensures r == End ==> pos == |messages| == 0
    {
      if pos >= |messages| {
        var err := Fetch();
        if err.Some? {
          return Failed(err.value);
        }
      }
      if |messages| == 0 {
        return End;
      }
      r := Item(messages[pos]);
      pos := pos + 1;
    }
  }
}
