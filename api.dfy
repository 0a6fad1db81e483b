/**
 * What the gateway's handlers exchange: the process configuration, the call
 * made to the DeepLX translation engine, the engine's reply, and the HTTP
 * responses the handlers write.
 */
module Api {
  import opened Wrappers

  /** The fields of the process configuration the handlers read. */
  datatype Config = Config(token: string, proxy: string, dlSession: string)

  /**
   * The arguments of one `translate.TranslateByDeepLX` call, in its order:
   * source language, target language, text, tag handling, proxy URL, session.
   */
  datatype Call = Call(
    sourceLang: string,
    targetLang: string,
    text: string,
    tagHandling: string,
    proxy: string,
    dlSession: string)

  /** The fields of the engine's result that the handlers read. */
  datatype DeepLXResult = DeepLXResult(
    code: int,
    id: int,
    message: string,
    data: string,
    alternatives: seq<string>,
    sourceLang: string,
    targetLang: string,
    methodUsed: string)

  /** What the engine call gives back: a Go `error`, or a result. */
  datatype Reply = Failed(err: string) | Returned(result: DeepLXResult)

  /**
   * One event of the `text/event-stream` of the chat endpoint: a
   * `chat.completion.chunk` object with its single choice's delta, or the
   * literal `data: [DONE]` line. `role == ""` is the omitted role; a `None`
   * finish reason is JSON `null`. The chunk id, `chatcmpl-` followed by a
   * Unix time, comes from a clock read of its own and is not modelled.
   */
  datatype Event =
    | Chunk(created: int, model: string, role: string, content: string, finishReason: Option<string>)
    | DoneMarker

  /** The JSON bodies the handlers write. */
  datatype Body =
    | CodeMessage(code: int, message: string)
    | Translation(
        code: int, id: int, data: string, alternatives: seq<string>,
        sourceLang: string, targetLang: string, methodUsed: string)
    | ErrorMessage(error: string)

  /**
   * A handler's effect: one JSON response, a stream of events (status 200),
   * or `log.Fatalf`, which ends the whole process without answering.
   */
  datatype Response =
    | Json(status: int, body: Body)
    | EventStream(events: seq<Event>)
    | Fatal(log: string)

  /** Either the handler answers before the engine is called, or it calls it. */
  datatype Admission = Refuse(response: Response) | Proceed(call: Call)

  const StatusOK := 200
  const StatusBadRequest := 400
  const StatusUnauthorized := 401
  const StatusInternalServerError := 500
}
