/**
 * The request handler of the worker (src/index.ts): the route and username
 * check, the profile-page fetch, the pinned-name extractor and the call into
 * the enrichment step.  Every upstream reply is a parameter, given as a
 * function of the username the request is made for.
 */
module Handler {
  import opened Wrappers
  import opened PinnedRepos

  /** An element matched by the pinned-item selector, reduced to the text that is read from it. */
  datatype Element = Element(innerText: string)

  /** What `fetchHTML` resolves to: the page markup or an `Error`. */
  datatype Page = Html(text: string) | PageError(message: string)

  /** The body a `Response` is built from: plain text or the value given to `JSON.stringify`. */
  datatype Body = Text(text: string) | Json(result: ApiResult)

  datatype Response = Response(body: Body, status: int)

  /** The outcome of the route and parameter check. */
  datatype Validation = Reject | Accept(username: string)

  /** One step of the pipeline as the handler performs it, in order. */
  datatype Step = FetchProfile(username: string) | ExtractNames(html: string) | FetchRepoList(username: string, pinned: seq<string>)

  const Route: string := "/get"
  const IncorrectRequest: string := "Incorrect request"
  /** `new Response(body)` without options answers with status 200. */
  const DefaultStatus: int := 200
  const IncorrectRequestStatus: int := 502

  /** JavaScript truthiness of a query value: present and not the empty string. */
  predicate Truthy(v: Option<string>)
  {
    v.Some? && v.value != ""
  }

  /** `fetchHTML`: a non-ok status gives the `Error("Request error")` value, never page text. */
  function FetchHtml(reply: Reply<string>): (page: Page)
    ensures page.PageError? <==> !reply.ok
    ensures page.PageError? ==> page.message == RequestError
    ensures page.Html? ==> page.text == reply.body
  {
    if !reply.ok then PageError(RequestError) else Html(reply.body)
  }

  /**
   * `getPinnedRepoNamesFromData` after the selector query: the text of each
   * matched element, one name per element, in document order.
   */
  function PinnedNames(matched: seq<Element>): (names: seq<string>)
    ensures |names| == |matched|
    ensures forall i :: 0 <= i < |matched| ==> names[i] == matched[i].innerText
  {
    if matched == [] then [] else [matched[0].innerText] + PinnedNames(matched[1..])
  }

  /** The extractor works element by element, so it commutes with splitting the document. */
  lemma PinnedNamesAppend(a: seq<Element>, b: seq<Element>)
    ensures PinnedNames(a + b) == PinnedNames(a) + PinnedNames(b)
  {
  }

  /**
   * The username is `u` when that is present and non-empty and `user`
   * otherwise; the request is accepted exactly when the path is the route and
   * that username is non-empty.
   */
  function ValidateRequest(path: string, u: Option<string>, user: Option<string>): (v: Validation)
    ensures v.Reject? <==> path != Route || (!Truthy(u) && !Truthy(user))
    ensures v.Accept? ==> v.username != ""
    ensures v.Accept? && Truthy(u) ==> v.username == u.value
    ensures v.Accept? && !Truthy(u) ==> user == Some(v.username)
  {
    var param := if Truthy(u) then u else user;
    if path != Route || !Truthy(param) then Reject else Accept(param.value)
  }

  /** The two parameter names are aliases: either alone selects the same username. */
  lemma ParameterAliases(path: string, name: string)
    ensures ValidateRequest(path, Some(name), None) == ValidateRequest(path, None, Some(name))
    ensures ValidateRequest(path, Some(""), Some(name)) == ValidateRequest(path, None, Some(name))
  {
  }

  /**
   * The exported `fetch` handler.  A rejected request answers 502 with
   * "Incorrect request" and contacts nothing.  An accepted one fetches the
   * profile page; on a non-ok status it answers "Request error" without
   * running the extractor.  Otherwise it extracts the pinned names and always
   * queries the repository listing (there is no short-circuit on an empty
   * name list), answering with the enrichment result.
   */
  method Fetch(path: string, u: Option<string>, user: Option<string>,
               profile: string -> Reply<string>,
               select: string -> seq<Element>,
               listing: string -> Reply<seq<GithubRepo>>)
    returns (resp: Response, trace: seq<Step>)
    ensures ValidateRequest(path, u, user).Reject? ==>
              resp == Response(Text(IncorrectRequest), IncorrectRequestStatus) && trace == []
    ensures ValidateRequest(path, u, user).Accept? ==>
              var name := ValidateRequest(path, u, user).username;
              (!profile(name).ok ==>
                 resp == Response(Text(RequestError), DefaultStatus) && trace == [FetchProfile(name)])
    ensures ValidateRequest(path, u, user).Accept? ==>
              var name := ValidateRequest(path, u, user).username;
              var html := profile(name).body;
              var pinned := PinnedNames(select(html));
              (profile(name).ok ==>
                 trace == [FetchProfile(name), ExtractNames(html), FetchRepoList(name, pinned)] &&
                 resp.status == DefaultStatus &&
                 resp.body == Json(if listing(name).ok then Projects(Select(listing(name).body, pinned))
                                   else Failure(RequestError)))
  {
    var validation := ValidateRequest(path, u, user);
    if validation.Reject? {
      return Response(Text(IncorrectRequest), IncorrectRequestStatus), [];
    }
    var name := validation.username;
    trace := [FetchProfile(name)];
    var html := FetchHtml(profile(name));
    if html.PageError? {
      return Response(Text(RequestError), DefaultStatus), trace;
    }
    trace := trace + [ExtractNames(html.text)];
    var pinned := PinnedNames(select(html.text));
    trace := trace + [FetchRepoList(name, pinned)];
    var dataFromApi := FetchPinnedRepos(listing(name), pinned);
    resp := Response(Json(dataFromApi), DefaultStatus);
  }
}
