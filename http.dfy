/**
 * The client's view of HTTP: the requests it sends and the replies it gets.
 * The server is an oracle: a queue of replies handed out one per request.
 * An exhausted queue stands for any failed exchange (a connection error or
 * an error status rejected by `raise_for_status`).
 */
module Http {
  import opened Wrappers
  import opened Json
  import opened Bytes
  import opened Types
  import opened PyStr
  import opened SiteUrl

  datatype Verb = HttpGet | HttpPost

  /** A request body: none, form fields, or raw bytes. */
  datatype Body = NoBody | Form(fields: map<string, Json>) | Raw(bytes: seq<byte>)

  /**
   * A call of `get` or `post` on the endpoint `endpoint` of the API
   * (`"anchor"`, `"reload"`, ...): the arguments the caller passed (None where
   * it passed none) and `session`, the session value the call fills in (the
   * current p for a get, the current token for a post). The query, body and
   * headers that go on the wire follow from these.
   */
  datatype Request = Request(verb: Verb, endpoint: string, params: Option<map<string, Json>>,
                             data: Option<Body>, headers: Option<map<string, string>>, session: Json)
  {
    /** The URL the request goes to: `get_full_url(endpoint)`. */
    function Url(): (r: string)
      ensures r == BaseUrl + LStrip(endpoint, '/')
    {
      FullUrl(endpoint)
    }
  }

  /** A reply: its text, and the image its content decodes to, if it is one. */
  datatype Reply = Reply(text: string, image: Option<Image>)

  class Transport {
    /** Every request sent so far, in order. */
    var sent: seq<Request>
    /** The replies the server will give, in order. */
    var replies: seq<Reply>

    constructor(replies: seq<Reply>)
      ensures sent == [] && this.replies == replies
    {
      sent := [];
      this.replies := replies;
    }

    /** Sends `req` and takes the next reply; None when the exchange fails. */
    method Exchange(req: Request) returns (reply: Option<Reply>)
      modifies this
      ensures sent == old(sent) + [req]
      ensures old(replies) == [] ==> reply.None? && replies == []
      ensures old(replies) != [] ==> reply == Some(old(replies)[0]) && replies == old(replies)[1..]
    {
      sent := sent + [req];
      if replies == [] {
        return None;
      }
      reply := Some(replies[0]);
      replies := replies[1..];
    }
  }
}
