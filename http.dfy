/** What a view hands back to the web framework, and the two error handlers
    that turn an aborted request into a response. */
module Http {
  import opened Json

  /** An abort raised by a view: its status code and the optional message passed to it. */
  datatype HttpError =
    | NotFoundError(description: Option<string>)
    | BadRequestError(description: Option<string>)

  /** The outcome of one view call: a JSON body with a status, or an abort. */
  datatype Outcome = Done(status: int, body: Value) | Raised(error: HttpError)

  /** What the client receives. */
  datatype Response = Response(status: int, body: Value)

  function ErrorBody(message: string): Value
  {
    Obj(map["error" := Str(message)])
  }

  /** The handler registered for 404. */
  function NotFound(error: HttpError): (r: Response)
    ensures r.status == 404
    ensures r.body.Obj? && r.body.fields.Keys == {"error"} && r.body.fields["error"] == Str("Not found")
  {
    Response(404, ErrorBody("Not found"))
  }

  /** The handler registered for 400. */
  function BadRequest(error: HttpError): (r: Response)
    ensures r.status == 400
    ensures r.body.Obj? && r.body.fields.Keys == {"error"} && r.body.fields["error"] == Str("Bad Request")
  {
    Response(400, ErrorBody("Bad Request"))
  }

  /** The response the client sees for an outcome: a finished view is passed
      through, an abort goes to the handler registered for its code. */
  function Respond(o: Outcome): (r: Response)
    ensures o.Done? ==> r.status == o.status && r.body == o.body
    ensures o.Raised? && o.error.NotFoundError? ==> r.status == 404 && r.body == ErrorBody("Not found")
    ensures o.Raised? && o.error.BadRequestError? ==> r.status == 400 && r.body == ErrorBody("Bad Request")
  {
    match o
    case Done(status, body) => Response(status, body)
    case Raised(e) => if e.NotFoundError? then NotFound(e) else BadRequest(e)
  }

  /** The message given to an abort never reaches the client. */
  lemma DescriptionIsDropped(e1: HttpError, e2: HttpError)
    requires e1.NotFoundError? == e2.NotFoundError?
    ensures Respond(Raised(e1)) == Respond(Raised(e2))
  {
  }
}
