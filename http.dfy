/**
 * Requests the client sends and responses it receives. The network is not
 * modelled: a handler returns the requests it issued and takes what the
 * server answered as a parameter.
 */
module Http {
  import opened Wrappers
  import opened Notes

  /** `error.response.data`: a plain string, a JSON object with an optional `error` field, or nothing. */
  datatype Body = TextBody(text: string) | ObjectBody(error: Option<string>) | EmptyBody

  /** A rejected request: the server answered with a non-success status, or no answer arrived. */
  datatype Failure = HttpError(status: int, body: Body) | NoResponse

  /** The outcome of one request whose success payload has type `T`. */
  datatype Response<T> = Ok(payload: T) | Failed(failure: Failure)

  /** The requests of the notes client, each with the bearer token it carries in its `Authorization` header. */
  datatype Request =
    | GetNotes(bearer: string)
    | CreateNote(bearer: string, title: string, content: string)
    | UpdateNote(bearer: string, id: string, title: string, content: string)
    | DeleteNote(bearer: string, id: string)
    | Enrich(bearer: string, kind: AiKind, id: string)
    | GetProfile(bearer: string)
    | Login(email: string, password: string)
}
