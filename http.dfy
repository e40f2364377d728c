/**
 * What an Express handler or middleware does with a request: it writes a
 * response, forwards to the next handler, forwards an error to the central
 * error handler, or does neither. Errors thrown inside an async handler reach
 * the error handler the same way (`catchAsync`).
 */
module Http {
  import opened Wrappers
  import opened Json
  import opened AppErrors
  import ApiTranslation
  import Coercions

  datatype Reply =
    | Respond(status: int, body: Value)            // res.status(s).json(body)
    | RespondThenNext(status: int, body: Value)    // a response followed by next()
    | Next                                         // next()
    | NextError(err: Err)                          // next(err), or a throw caught by catchAsync
    | Silent                                       // neither a response nor next()

  /** The part of an incoming request the handlers read. */
  datatype Request = Request(
    params: Fields,
    query: Fields,                 // req.query as Express parsed it
    parsedQuery: Option<Fields>,   // req.parsedQuery, set by the application's qs parser
    body: Value,
    user: Option<Fields>           // req.user, the stored user document set by protect
  ) {
    /** `req.parsedQuery || req.query`. */
    function QueryObject(): Fields {
      if parsedQuery.Some? then parsedQuery.value else query
    }

    /** `req.query.lang`. */
    function Lang(): Option<Value> {
      Get(query, "lang")
    }
  }

  /** The key `Object.hasOwn` looks up for a `lang` value (`undefined` selects the default). */
  function LangKey(lang: Option<Value>): (r: Option<string>)
    ensures lang.None? <==> r.None?
    ensures lang.Some? && lang.value.Str? ==> r == Some(lang.value.s)
  {
    if lang.None? then None else Some(Coercions.Stringify(lang.value))
  }

  /** `apiTranslation.translate(lang, field)`; an unknown field gives the empty message. */
  function Message(tr: ApiTranslation.ApiTranslation, lang: Option<Value>, field: string): string {
    tr.Text(LangKey(lang), field)
  }

  /** `next(new AppError(apiTranslation.translate(lang, field), code))`. */
  function Refuse(tr: ApiTranslation.ApiTranslation, lang: Option<Value>, field: string, code: int): (r: Reply)
    ensures r.NextError? && r.err.statusCode == Some(code) && r.err.isOperational
    ensures r.err.message == Message(tr, lang, field)
  {
    NextError(NewAppError(Message(tr, lang, field), Some(code)))
  }

  /** `{ status, data }`. */
  function Envelope(status: string, data: Value): (r: Value)
    ensures r.Obj? && Get(r.fields, "status") == Some(Str(status)) && Get(r.fields, "data") == Some(data)
  {
    Obj([("status", Str(status)), ("data", data)])
  }

  /** `{ status: "success", data: null }`, the body of every 204 response. */
  const NoContent: Value := Envelope("success", Null)

  function Records(docs: seq<Fields>): (r: Value)
    ensures r.Arr? && |r.items| == |docs|
    ensures forall i :: 0 <= i < |docs| ==> r.items[i] == Obj(docs[i])
  {
    Arr(seq(|docs|, i requires 0 <= i < |docs| => Obj(docs[i])))
  }
}
