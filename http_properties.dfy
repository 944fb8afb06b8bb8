/** What the verb helpers and the request factory guarantee together:
    where ".json" lands, what update sends, and that the lookup variant is
    not account-scoped. */
module HttpProperties {
  import opened Wrappers
  import opened Http

  /** Fetch and update target `pathPart/sid`, and the regular variant appends
      ".json" after the whole of it, so both URIs end in "/{sid}.json". */
  lemma FetchAndUpdateUris(c: Client, env: Env, pathPart: string, sid: string, data: Option<Values>)
    ensures TargetUri(c, env, GetResource(pathPart, sid))
         == BaseUrl + "/" + Version + "/Accounts/" + c.accountSid + "/" + pathPart + "/" + sid + ".json"
    ensures TargetUri(c, env, UpdateResource(pathPart, sid, data))
         == BaseUrl + "/" + Version + "/Accounts/" + c.accountSid + "/" + pathPart + "/" + sid + ".json"
  {
  }

  /** Create and list address the bare collection; only a non-nil list form
      adds a query after the ".json". */
  lemma CollectionUris(c: Client, env: Env, pathPart: string, data: Option<Values>)
    ensures TargetUri(c, env, CreateResource(pathPart, data))
         == BaseUrl + "/" + Version + "/Accounts/" + c.accountSid + "/" + pathPart + ".json"
    ensures data.None? ==>
      TargetUri(c, env, ListResource(pathPart, data))
        == BaseUrl + "/" + Version + "/Accounts/" + c.accountSid + "/" + pathPart + ".json"
    ensures data.Some? ==>
      TargetUri(c, env, ListResource(pathPart, data))
        == BaseUrl + "/" + Version + "/Accounts/" + c.accountSid + "/" + pathPart + ".json"
           + "?" + env.encode(data.value)
  {
  }

  /** A lookup URI has no account segment and no suffix: it is the same for
      every client, and the query follows the sid directly. */
  lemma LookupUriIgnoresAccount(c: Client, c': Client, env: Env, pathPart: string, sid: string, data: Option<Values>)
    ensures TargetUri(c, env, LookupResource(pathPart, sid, data))
         == TargetUri(c', env, LookupResource(pathPart, sid, data))
    ensures data.None? ==>
      TargetUri(c, env, LookupResource(pathPart, sid, data))
        == LookupBaseUrl + "/" + LookupVersion + "/" + pathPart + "/" + sid
    ensures data.Some? ==>
      TargetUri(c, env, LookupResource(pathPart, sid, data))
        == LookupBaseUrl + "/" + LookupVersion + "/" + pathPart + "/" + sid + "?" + env.encode(data.value)
  {
  }

  /** Update sends the same request whatever form its caller supplies: an
      empty body, no query and no Content-Type header. */
  lemma UpdateDropsForm(c: Client, env: Env, pathPart: string, sid: string, data: Option<Values>)
    ensures RequestFor(c, env, UpdateResource(pathPart, sid, data))
         == RequestFor(c, env, UpdateResource(pathPart, sid, None))
    ensures var r := RequestFor(c, env, UpdateResource(pathPart, sid, data));
      r.Ok? ==>
        && r.value.body == ""
        && "Content-Type" !in r.value.header
        && r.value.uri == FullUri(Regular, pathPart + "/" + sid, c.accountSid)
  {
  }

  /** A successful dispatch went through every step: the request was built
      with the client's credential, sent, its body read, and decoded. */
  lemma DispatchSuccessCarriesCredential<T>(c: Client, env: Env, decode: string -> Result<T>, call: Call)
    ensures Perform(c, env, decode, call).Ok? ==>
      && RequestFor(c, env, call).Ok?
      && RequestFor(c, env, call).value.basicAuth == Credential(c.accountSid, c.authToken)
      && env.send(RequestFor(c, env, call).value) == Ok(Perform(c, env, decode, call).value.0)
  {
  }
}
