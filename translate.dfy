/**
 * The `/translate` (free) and `/v1/translate` (pro) handlers: checking the
 * body, resolving the pro session, and turning the engine's reply into a
 * response.
 */
module Translate {
  import opened Api
  import Strings

  const TagHandlingMessage := "Invalid tag_handling value. Allowed values are 'html' and 'xml'."
  const NoSessionMessage := "No dl_session Found"
  const NotProMessage := "Your account is not a Pro account. Please upgrade your account or switch to a different account."
  /** The key that is cut out of the `Cookie` header. */
  const SessionKey := "dl_session="

  /** The JSON body both handlers bind (`PayloadFree`). */
  datatype Payload = Payload(text: string, sourceLang: string, targetLang: string, tagHandling: string)

  /**
   * The body as `c.BindJSON` leaves it: the fields it managed to decode, and
   * whether binding succeeded. The handlers go on with the fields either way.
   */
  datatype Bound = Bound(payload: Payload, ok: bool)

  /**
   * On a bind failure Gin has already written status 400 before the handler
   * goes on, so the handler's later `c.JSON` keeps its body but not its status.
   * `log.Fatalf` still ends the process.
   */
  function AfterBind(ok: bool, r: Response): (sent: Response)
    ensures ok ==> sent == r
    ensures !ok && r.Json? ==> sent.Json? && sent.status == StatusBadRequest && sent.body == r.body
    ensures !r.Json? ==> sent == r
  {
    if !ok && r.Json? then Json(StatusBadRequest, r.body) else r
  }

  /** The handlers' test on `tag_handling`, as written: not some other non-empty value. */
  predicate TagHandlingOk(tag: string) {
    !(tag != "" && tag != "html" && tag != "xml")
  }

  /** The 400 response for an unrecognised `tag_handling`. */
  const TagRejection := Json(StatusBadRequest, CodeMessage(StatusBadRequest, TagHandlingMessage))

  /** The free handler: a valid `tag_handling` leads to the engine call, without a session. */
  function AdmitFree(cfg: Config, p: Payload): (a: Admission)
    ensures a.Proceed? <==> p.tagHandling in {"", "html", "xml"}
    ensures a.Refuse? ==> a.response == TagRejection
    ensures a.Proceed? ==> a.call == Call(p.sourceLang, p.targetLang, p.text, p.tagHandling, cfg.proxy, "")
  {
    if !TagHandlingOk(p.tagHandling) then Refuse(TagRejection)
    else Proceed(Call(p.sourceLang, p.targetLang, p.text, p.tagHandling, cfg.proxy, ""))
  }

  /**
   * The pro session: a non-empty `Cookie` header, with every `dl_session=`
   * cut out, replaces the configured session.
   */
  function ResolveSession(configured: string, cookie: string): (s: string)
    ensures cookie == "" ==> s == configured
    ensures |s| <= if cookie == "" then |configured| else |cookie|
  {
    if cookie != "" then Strings.RemoveAll(cookie, SessionKey) else configured
  }

  /**
   * The pro handler: the `tag_handling` check, then the two session checks in
   * order (missing, then containing a `.`), then the engine call with the
   * resolved session.
   */
  function AdmitPro(cfg: Config, cookie: string, p: Payload): (a: Admission)
    ensures var s := ResolveSession(cfg.dlSession, cookie);
      && (p.tagHandling !in {"", "html", "xml"} ==> a == Refuse(TagRejection))
      && (p.tagHandling in {"", "html", "xml"} && s == "" ==>
            a == Refuse(Json(StatusUnauthorized, CodeMessage(StatusUnauthorized, NoSessionMessage))))
      && (p.tagHandling in {"", "html", "xml"} && s != "" && '.' in s ==>
            a == Refuse(Json(StatusUnauthorized, CodeMessage(StatusUnauthorized, NotProMessage))))
      && (a.Proceed? <==> p.tagHandling in {"", "html", "xml"} && s != "" && '.' !in s)
      && (a.Proceed? ==> a.call == Call(p.sourceLang, p.targetLang, p.text, p.tagHandling, cfg.proxy, s))
  {
    if !TagHandlingOk(p.tagHandling) then Refuse(TagRejection)
    else
      var dlSession := ResolveSession(cfg.dlSession, cookie);
      if dlSession == "" then
        Refuse(Json(StatusUnauthorized, CodeMessage(StatusUnauthorized, NoSessionMessage)))
      else if '.' in dlSession then
        Refuse(Json(StatusUnauthorized, CodeMessage(StatusUnauthorized, NotProMessage)))
      else Proceed(Call(p.sourceLang, p.targetLang, p.text, p.tagHandling, cfg.proxy, dlSession))
  }

  /** Cutting the key out never adds or removes a `.`: the "not Pro" test looks at the raw source. */
  lemma SessionDotFromSource(configured: string, cookie: string)
    ensures '.' in ResolveSession(configured, cookie) <==> '.' in (if cookie != "" then cookie else configured)
  {
    if cookie != "" {
      Strings.RemoveAllKeeps(cookie, SessionKey, '.');
    }
  }

  /** A session is missing exactly when the cookie is absent and nothing is configured, or the cookie is nothing but keys. */
  lemma SessionMissing(configured: string, cookie: string)
    ensures ResolveSession(configured, cookie) == "" <==>
      (cookie == "" && configured == "") || (cookie != "" && exists k :: cookie == Strings.Repeat(SessionKey, k))
  {
    if cookie != "" {
      if Strings.RemoveAll(cookie, SessionKey) == "" {
        Strings.RemoveAllEmpty(cookie, SessionKey);
      }
      if exists k :: cookie == Strings.Repeat(SessionKey, k) {
        var k :| cookie == Strings.Repeat(SessionKey, k);
        Strings.RemoveAllRepeat(SessionKey, k);
      }
    }
  }

  /** The usual cookie `dl_session=<value>` yields `<value>` when the value holds no further key. */
  lemma SessionFromCookie(configured: string, value: string)
    requires !Strings.Contains(value, SessionKey)
    ensures ResolveSession(configured, SessionKey + value) == value
  {
    Strings.RemoveAllPrefixed(SessionKey, value);
    Strings.RemoveAllAbsent(value, SessionKey);
  }

  /**
   * Both handlers' reply handling: an engine error ends the process; a result
   * with code 200 becomes the translation body; any other code is passed
   * through as the status with its message.
   */
  function Respond(reply: Reply): (r: Response)
    ensures reply.Failed? <==> r.Fatal?
    ensures reply.Failed? ==> r.log == "Translation failed: " + reply.err
    ensures reply.Returned? ==>
      && r.Json? && r.status == reply.result.code
      && (r.body.CodeMessage? || r.body.Translation?) && r.body.code == reply.result.code
    ensures reply.Returned? ==> (r.body.Translation? <==> reply.result.code == StatusOK)
    ensures reply.Returned? && r.body.Translation? ==>
      var x := reply.result;
      r.body == Translation(StatusOK, x.id, x.data, x.alternatives, x.sourceLang, x.targetLang, x.methodUsed)
    ensures reply.Returned? && !r.body.Translation? ==> r.body == CodeMessage(reply.result.code, reply.result.message)
  {
    match reply
    case Failed(err) => Fatal("Translation failed: " + err)
    case Returned(x) =>
      if x.code == StatusOK then
        Json(StatusOK, Translation(StatusOK, x.id, x.data, x.alternatives, x.sourceLang, x.targetLang, x.methodUsed))
      else Json(x.code, CodeMessage(x.code, x.message))
  }
}
