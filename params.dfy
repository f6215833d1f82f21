/**
 * How `ReCaptcha.get` and `ReCaptcha.post` complete the parameters their
 * callers pass: placeholders left as None are filled from the session, and a
 * User-Agent header is added unless one is given.
 */
module Params {
  import opened Wrappers
  import opened Json
  import opened Errors
  import opened Http
  import opened Types

  /** Fills `key` when the caller left it as None (`params.get(key, "") is None`). */
  function Fill(m: map<string, Json>, key: string, value: Json): map<string, Json> {
    if key in m && m[key] == JNull then m[key := value] else m
  }

  /** A fill keeps the keys, sets a placeholder `key` and leaves every other entry alone. */
  lemma FillSpec(m: map<string, Json>, key: string, value: Json)
    ensures Fill(m, key, value).Keys == m.Keys
    ensures key in m && m[key] == JNull ==> Fill(m, key, value)[key] == value
    ensures forall k :: k in m && (k != key || m[k] != JNull) ==> Fill(m, key, value)[k] == m[k]
  {
  }

  /** Reference: every placeholder that has a fill receives it, everything else is kept. */
  function Filled(m: map<string, Json>, fills: map<string, Json>): map<string, Json> {
    map k | k in m :: if k in fills && m[k] == JNull then fills[k] else m[k]
  }

  /** The query of `get`: None stands for `{"k": None, "v": None}`; then k, v and p are filled. */
  function GetQuery(params: Option<map<string, Json>>, apiKey: string, rcVersion: string, p: Json): map<string, Json> {
    var base := if params.Some? then params.value else map["k" := JNull, "v" := JNull];
    Fill(Fill(Fill(base, "k", JStr(apiKey)), "v", JStr(rcVersion)), "p", p)
  }

  /** The query of `post`: None stands for `{"k": None}`; then k is filled. */
  function PostQuery(params: Option<map<string, Json>>, apiKey: string): map<string, Json> {
    var base := if params.Some? then params.value else map["k" := JNull];
    Fill(base, "k", JStr(apiKey))
  }

  /** The body of `post`: None stands for `{"v": None}`; a form has v and c filled, bytes are kept. */
  function PostBody(data: Option<Body>, rcVersion: string, token: Json): Body {
    var base := if data.Some? then data.value else Form(map["v" := JNull]);
    match base
    case Form(fields) => Form(Fill(Fill(fields, "v", JStr(rcVersion)), "c", token))
    case _ => base
  }

  /** The query string a request carries. */
  function Query(req: Request, apiKey: string, rcVersion: string): map<string, Json> {
    match req.verb
    case HttpGet => GetQuery(req.params, apiKey, rcVersion, req.session)
    case HttpPost => PostQuery(req.params, apiKey)
  }

  /** The body a request carries: a get has none. */
  function Content(req: Request, rcVersion: string): Body {
    match req.verb
    case HttpGet => NoBody
    case HttpPost => PostBody(req.data, rcVersion, req.session)
  }

  /** The headers a request carries. */
  function Headers(req: Request, userAgent: string): map<string, string> {
    WithAgent(req.headers, userAgent)
  }

  /** The sequential fills of `get` are the simultaneous fill with k, v and p. */
  lemma GetQueryFilled(params: map<string, Json>, apiKey: string, rcVersion: string, p: Json)
    ensures GetQuery(Some(params), apiKey, rcVersion, p)
         == Filled(params, map["k" := JStr(apiKey), "v" := JStr(rcVersion), "p" := p])
  {
  }

  /** The sequential fills of a form in `post` are the simultaneous fill with v and c. */
  lemma PostBodyFilled(fields: map<string, Json>, rcVersion: string, token: Json)
    ensures PostBody(Some(Form(fields)), rcVersion, token)
         == Form(Filled(fields, map["v" := JStr(rcVersion), "c" := token]))
  {
  }

  /** Filling twice is filling once, as long as the fills are not placeholders themselves. */
  lemma FilledIdempotent(m: map<string, Json>, fills: map<string, Json>)
    requires forall k :: k in fills ==> fills[k] != JNull
    ensures Filled(Filled(m, fills), fills) == Filled(m, fills)
  {
  }

  /** Example: the anchor request's query gets the key and the version, and no p. */
  lemma AnchorQuery(co: string, apiKey: string, rcVersion: string, p: Json)
    ensures GetQuery(Some(map["ar" := JStr("1"), "k" := JNull, "co" := JStr(co), "hl" := JStr("en"),
                              "v" := JNull, "size" := JStr("normal"), "sa" := JStr("action")]),
                     apiKey, rcVersion, p)
         == map["ar" := JStr("1"), "k" := JStr(apiKey), "co" := JStr(co), "hl" := JStr("en"),
                "v" := JStr(rcVersion), "size" := JStr("normal"), "sa" := JStr("action")]
  {
  }

  /**
   * `get_headers`: the caller's headers (None and {} alike), with a
   * User-Agent added only when none is given.
   */
  function WithAgent(headers: Option<map<string, string>>, userAgent: string): map<string, string> {
    var given := if headers.Some? then headers.value else map[];
    if "User-Agent" in given then given else given["User-Agent" := userAgent]
  }

  /** The completed headers always carry a User-Agent, the caller's own if given; all else is the caller's. */
  lemma WithAgentSpec(headers: Option<map<string, string>>, userAgent: string)
    ensures "User-Agent" in WithAgent(headers, userAgent)
    ensures headers.Some? && "User-Agent" in headers.value ==>
      WithAgent(headers, userAgent)["User-Agent"] == headers.value["User-Agent"]
    ensures headers.None? || "User-Agent" !in headers.value ==> WithAgent(headers, userAgent)["User-Agent"] == userAgent
    ensures forall k :: k != "User-Agent" ==> (k in WithAgent(headers, userAgent) <==> headers.Some? && k in headers.value)
    ensures forall k :: k != "User-Agent" && k in WithAgent(headers, userAgent) ==>
      headers.Some? && WithAgent(headers, userAgent)[k] == headers.value[k]
  {
  }

  /** Completing the headers a second time changes nothing. */
  lemma WithAgentIdempotent(headers: Option<map<string, string>>, userAgent: string)
    ensures WithAgent(Some(WithAgent(headers, userAgent)), userAgent) == WithAgent(headers, userAgent)
  {
  }

  /** The replies left after one exchange. */
  function Popped(replies: seq<Reply>): seq<Reply> {
    if replies == [] then [] else replies[1..]
  }

  /** The outcome of one exchange with the reply queue `before`. */
  function Answer(before: seq<Reply>): (r: Result<Reply, Error>)
    ensures r.Failure? <==> before == []
    ensures r.Failure? ==> r.error == TransportError
    ensures r.Success? ==> r.value == before[0]
  {
    if before == [] then Failure(TransportError) else Success(before[0])
  }

  /** `get_image(r.content)`: the reply's image; content that is not one fails. */
  function ImageOf(reply: Reply): (r: Result<Image, Error>)
    ensures r.Success? <==> reply.image.Some?
    ensures r.Success? ==> r.value == reply.image.value
    ensures r.Failure? ==> r.error == ImageError
  {
    if reply.image.Some? then Success(reply.image.value) else Failure(ImageError)
  }

  /** The image of the next reply, if there is one and it holds an image. */
  function ImageAnswer(replies: seq<Reply>): (r: Result<Image, Error>)
    ensures r.Success? <==> replies != [] && replies[0].image.Some?
    ensures r.Success? ==> r.value == replies[0].image.value
    ensures r.Failure? ==> r.error == (if replies == [] then TransportError else ImageError)
  {
    if replies == [] then Failure(TransportError) else ImageOf(replies[0])
  }
}
