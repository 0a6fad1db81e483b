/**
 * The three translation routes, each behind the access-token gate. The
 * translation engine is a parameter: a function from the call to its reply.
 */
module Router {
  import opened Wrappers
  import opened Api
  import Auth
  import Translate
  import Chat
  import Stream

  datatype Endpoint =
    | FreeTranslate(request: Translate.Bound)         // POST /translate
    | ProTranslate(request: Translate.Bound)          // POST /v1/translate
    | ChatCompletions(body: Option<Chat.ChatRequest>)  // POST /v1/chat/completions

  /** What the handlers read of a request; a missing header or parameter reads as "". */
  datatype Request = Request(authorization: string, tokenQuery: string, cookie: string, endpoint: Endpoint)

  /** The gate, then the route's checks: an early response, or the one engine call. */
  function Plan(cfg: Config, req: Request): (a: Admission)
    ensures !Auth.Allows(cfg.token, req.authorization, req.tokenQuery) ==> a == Refuse(Auth.Rejection)
    ensures a.Refuse? ==> a.response.Json?
  {
    if !Auth.Allows(cfg.token, req.authorization, req.tokenQuery) then Refuse(Auth.Rejection)
    else
      match req.endpoint
      case FreeTranslate(b) => Translate.AdmitFree(cfg, b.payload)
      case ProTranslate(b) => Translate.AdmitPro(cfg, req.cookie, b.payload)
      case ChatCompletions(body) => Chat.Admit(cfg, body)
  }

  /** A translate route whose handler ran on a body that did not bind. */
  predicate BindFailed(cfg: Config, req: Request) {
    && Auth.Allows(cfg.token, req.authorization, req.tokenQuery)
    && (req.endpoint.FreeTranslate? || req.endpoint.ProTranslate?)
    && !req.endpoint.request.ok
  }

  /**
   * The whole exchange: the planned early response, or the route's handling of
   * the engine's reply; on a translate route whose body did not bind, with the
   * 400 Gin has already sent.
   */
  function Serve(cfg: Config, req: Request, engine: Call -> Reply, created: int): (r: Response)
    ensures !BindFailed(cfg, req) && Plan(cfg, req).Refuse? ==> r == Plan(cfg, req).response
    ensures BindFailed(cfg, req) ==> r.Fatal? || (r.Json? && r.status == StatusBadRequest)
    ensures r.EventStream? ==> req.endpoint.ChatCompletions?
    ensures r.Fatal? ==> Plan(cfg, req).Proceed? && !req.endpoint.ChatCompletions? && engine(Plan(cfg, req).call).Failed?
  {
    match Plan(cfg, req)
    case Refuse(early) => Translate.AfterBind(!BindFailed(cfg, req), early)
    case Proceed(call) =>
      match req.endpoint
      case FreeTranslate(b) => Translate.AfterBind(b.ok, Translate.Respond(engine(call)))
      case ProTranslate(b) => Translate.AfterBind(b.ok, Translate.Respond(engine(call)))
      case ChatCompletions(body) => Chat.Respond(engine(call), created, body.value.model)
  }

  /**
   * A translate body that does not bind: the gate still answers first; past it
   * the client sees status 400 with whatever body the handler writes for the
   * fields that were decoded, and an engine error still ends the process.
   */
  lemma BindFailureKeeps400(cfg: Config, req: Request, engine: Call -> Reply, created: int)
    requires req.endpoint.FreeTranslate? || req.endpoint.ProTranslate?
    requires !req.endpoint.request.ok
    ensures var r := Serve(cfg, req, engine, created);
      var r0 := Serve(cfg, req.(endpoint := req.endpoint.(request := req.endpoint.request.(ok := true))), engine, created);
      && (!Auth.Allows(cfg.token, req.authorization, req.tokenQuery) ==> r == Auth.Rejection)
      && (Auth.Allows(cfg.token, req.authorization, req.tokenQuery) ==>
            && (r0.Json? ==> r == Json(StatusBadRequest, r0.body))
            && (r0.Fatal? ==> r == r0))
  {
  }

  /** A request the gate turns away gets the fixed 401, whatever the engine would have said. */
  lemma UnauthorizedNeverTranslates(cfg: Config, req: Request, engine: Call -> Reply, created: int)
    requires cfg.token != ""
    requires Auth.HeaderToken(req.authorization) != cfg.token && req.tokenQuery != cfg.token
    ensures Serve(cfg, req, engine, created) == Json(401, CodeMessage(401, "Invalid access token"))
  {
  }

  /** On both translate routes an unknown `tag_handling` is a 400 before the engine is reached. */
  lemma InvalidTagNeverTranslates(cfg: Config, req: Request, engine: Call -> Reply, created: int)
    requires Auth.Allows(cfg.token, req.authorization, req.tokenQuery)
    requires req.endpoint.FreeTranslate? || req.endpoint.ProTranslate?
    requires req.endpoint.request.payload.tagHandling !in {"", "html", "xml"}
    ensures Serve(cfg, req, engine, created)
         == Json(400, CodeMessage(400, "Invalid tag_handling value. Allowed values are 'html' and 'xml'."))
  {
  }

  /**
   * On the pro route the engine is called only with a non-empty session free
   * of `.`, that session is the resolved one, and the raw cookie (or the
   * configured session) holds no `.` either.
   */
  lemma ProCallSession(cfg: Config, req: Request)
    requires req.endpoint.ProTranslate? && Plan(cfg, req).Proceed?
    ensures var s := Plan(cfg, req).call.dlSession;
      && s == Translate.ResolveSession(cfg.dlSession, req.cookie)
      && s != "" && '.' !in s
      && '.' !in (if req.cookie != "" then req.cookie else cfg.dlSession)
      && req.endpoint.request.payload.tagHandling in {"", "html", "xml"}
  {
    Translate.SessionDotFromSource(cfg.dlSession, req.cookie);
  }

  /** The free route calls the engine with the body's fields, the configured proxy and no session. */
  lemma FreeCallFields(cfg: Config, req: Request)
    requires req.endpoint.FreeTranslate? && Plan(cfg, req).Proceed?
    ensures var p := req.endpoint.request.payload;
      Plan(cfg, req).call == Call(p.sourceLang, p.targetLang, p.text, p.tagHandling, cfg.proxy, "")
  {
  }

  /** The chat route auto-detects the source, uses no tag handling and no session. */
  lemma ChatCallFields(cfg: Config, req: Request)
    requires req.endpoint.ChatCompletions? && Plan(cfg, req).Proceed?
    ensures var c := Plan(cfg, req).call;
      c.sourceLang == "" && c.tagHandling == "" && c.dlSession == "" && c.proxy == cfg.proxy
  {
  }

  /**
   * On every route an upstream result other than 200 keeps its code as the
   * HTTP status, unless Gin already sent 400 for a translate body that did not bind.
   */
  lemma ResultCodePassesThrough(cfg: Config, req: Request, engine: Call -> Reply, created: int)
    requires Plan(cfg, req).Proceed?
    requires engine(Plan(cfg, req).call).Returned?
    requires engine(Plan(cfg, req).call).result.code != 200
    ensures var r := Serve(cfg, req, engine, created);
      r.Json? && r.status == (if BindFailed(cfg, req) then StatusBadRequest else engine(Plan(cfg, req).call).result.code)
  {
  }

  /** An engine error ends the process on the translate routes and is a 500 on the chat route. */
  lemma EngineErrorOutcome(cfg: Config, req: Request, engine: Call -> Reply, created: int)
    requires Plan(cfg, req).Proceed?
    requires engine(Plan(cfg, req).call).Failed?
    ensures req.endpoint.ChatCompletions? <==> Serve(cfg, req, engine, created).Json?
    ensures req.endpoint.ChatCompletions? ==> Serve(cfg, req, engine, created).status == 500
    ensures !req.endpoint.ChatCompletions? <==> Serve(cfg, req, engine, created).Fatal?
  {
  }

  /**
   * A successful chat translation is streamed for the request's model, and a
   * client that concatenates the deltas gets exactly the translated text.
   */
  lemma ChatStreamsTranslation(cfg: Config, req: Request, engine: Call -> Reply, created: int)
    requires req.endpoint.ChatCompletions? && Plan(cfg, req).Proceed?
    requires engine(Plan(cfg, req).call).Returned?
    requires engine(Plan(cfg, req).call).result.code == 200
    ensures var data := engine(Plan(cfg, req).call).result.data;
      var r := Serve(cfg, req, engine, created);
      && r.EventStream?
      && r.events == Stream.StreamEvents(created, req.endpoint.body.value.model, data)
      && Stream.Transcript(r.events) == data
  {
  }
}
