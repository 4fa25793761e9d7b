/** What the modelled files receive from and hand to code outside them:
    the JSON body of a Lambda request (`lambda_http`'s `json()`), the
    API Gateway management client (`post_to_connection`,
    `delete_connection`), and the crate-level `WebsocketError`. */
module Transport {

  /** What `Request::json()` yields: a body that does not parse, no body at
      all, or a parsed message. */
  datatype JsonPayload<+T> = Unparsable | Missing | Parsed(message: T)

  /** One call of `post_to_connection`: the target, the serialised data,
      and whether API Gateway delivered it. */
  datatype Post = Post(connectionId: string, data: string, delivered: bool)

  /** The API Gateway management API, reduced to a log of what was posted
      and which connections were asked to close. Whether a call succeeds is
      decided by an oracle the caller passes in (a connection that has gone
      away refuses). */
  class Gateway {
    var posts: seq<Post>
    var evictions: seq<string>

    constructor ()
      ensures posts == [] && evictions == []
    {
      posts := [];
      evictions := [];
    }

    /** `post_to_connection().connection_id(c).data(d).send()`. */
    method PostToConnection(connectionId: string, data: string, accepts: string -> bool) returns (ok: bool)
      modifies this
      ensures ok == accepts(connectionId)
      ensures posts == old(posts) + [Post(connectionId, data, ok)]
      ensures evictions == old(evictions)
    {
      ok := accepts(connectionId);
      posts := posts + [Post(connectionId, data, ok)];
    }

    /** `delete_connection().connection_id(c).send()`. */
    method DeleteConnection(connectionId: string, accepts: string -> bool) returns (ok: bool)
      modifies this
      ensures ok == accepts(connectionId)
      ensures evictions == old(evictions) + [connectionId]
      ensures posts == old(posts)
    {
      ok := accepts(connectionId);
      evictions := evictions + [connectionId];
    }
  }

  /** The variants of `crate::WebsocketError` that the modelled files
      construct. Its `Display` text and its `&'static str` tag are defined
      outside them, so the conversions take both as parameters. */
  datatype WebsocketError = InvalidRequest(reason: string) | NonExistentGame(gameId: string) | AlreadyInGame
}
