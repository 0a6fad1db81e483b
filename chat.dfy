/**
 * The `/v1/chat/completions` handler: reading the request's last message,
 * recognising an inline `Translate to <lang>: <text>` command, and choosing
 * between an error response and the event stream.
 */
module Chat {
  import opened Wrappers
  import opened Api
  import Strings
  import Stream

  const CommandPrefix := "Translate to "
  /** The target language when the last message holds no command. */
  const DefaultTarget := "ZH"
  const InvalidFormatMessage := "Invalid request format"
  const NoMessagesMessage := "No messages provided"

  const FormatRejection := Json(StatusBadRequest, ErrorMessage(InvalidFormatMessage))
  const EmptyRejection := Json(StatusBadRequest, ErrorMessage(NoMessagesMessage))

  datatype Message = Message(role: string, content: string)
  datatype ChatRequest = ChatRequest(messages: seq<Message>, model: string)

  /** The language pair and text the handler extracts from the last message. */
  datatype Command = Command(sourceLang: string, targetLang: string, text: string)

  /**
   * With the prefix `Translate to ` and a `:` somewhere, the target is the
   * trimmed piece between prefix and first colon and the text is the trimmed
   * rest; otherwise the target is `ZH` and the text is the message unchanged.
   * The source language is always left to auto-detection.
   */
  function ParseCommand(last: string): (c: Command)
    ensures c.sourceLang == ""
  {
    var lastMessage, sourceLang, targetLang := last, "", DefaultTarget;
    if Strings.HasPrefix(lastMessage, CommandPrefix) then
      var parts := Strings.SplitFirst(lastMessage, ':');
      if |parts| == 2 then
        Command(sourceLang,
                Strings.TrimSpace(Strings.TrimPrefix(parts[0], CommandPrefix)),
                Strings.TrimSpace(parts[1]))
      else Command(sourceLang, targetLang, lastMessage)
    else Command(sourceLang, targetLang, lastMessage)
  }

  /** Without the prefix, or without a colon, the message is translated as it is into `ZH`. */
  lemma CommandDefault(last: string)
    requires !Strings.HasPrefix(last, CommandPrefix) || ':' !in last
    ensures ParseCommand(last) == Command("", DefaultTarget, last)
  {
  }

  /** A command's target and text are the trimmed pieces around its first colon. */
  lemma CommandOverrides(lang: string, text: string)
    requires ':' !in lang
    ensures ParseCommand(CommandPrefix + lang + ":" + text)
         == Command("", Strings.TrimSpace(lang), Strings.TrimSpace(text))
  {
    var s := CommandPrefix + lang + ":" + text;
    assert s == (CommandPrefix + lang) + [':'] + text;
    assert ':' !in CommandPrefix + lang;
    Strings.SplitFirstAt(CommandPrefix + lang, ':', text);
    assert CommandPrefix <= s;
    assert Strings.TrimPrefix(CommandPrefix + lang, CommandPrefix) == lang;
  }

  /** The documented example: `Translate to FR: Hello` asks for French and translates `Hello`. */
  lemma CommandExample()
    ensures ParseCommand("Translate to FR: Hello") == Command("", "FR", "Hello")
  {
    ExampleSpelling();
    ExampleTrims();
    CommandOverrides("FR", " Hello");
  }

  lemma ExampleSpelling()
    ensures CommandPrefix + "FR" + ":" + " Hello" == "Translate to FR: Hello"
  {
  }

  lemma ExampleTrims()
    ensures Strings.TrimSpace("FR") == "FR" && Strings.TrimSpace(" Hello") == "Hello"
  {
  }

  /**
   * The handler up to the engine call: an unbindable body and an empty message
   * list are 400s; otherwise the last message's command is translated without
   * tag handling or session, through the configured proxy.
   */
  function Admit(cfg: Config, body: Option<ChatRequest>): (a: Admission)
    ensures body.None? ==> a == Refuse(FormatRejection)
    ensures body.Some? && body.value.messages == [] ==> a == Refuse(EmptyRejection)
    ensures a.Proceed? <==> body.Some? && body.value.messages != []
    ensures a.Proceed? ==>
      var c := ParseCommand(body.value.messages[|body.value.messages| - 1].content);
      a.call == Call("", c.targetLang, c.text, "", cfg.proxy, "")
  {
    match body
    case None => Refuse(FormatRejection)
    case Some(req) =>
      if req.messages == [] then Refuse(EmptyRejection)
      else
        var lastMessage := req.messages[|req.messages| - 1].content;
        var c := ParseCommand(lastMessage);
        Proceed(Call(c.sourceLang, c.targetLang, c.text, "", cfg.proxy, ""))
  }

  /**
   * The handler after the engine call: an engine error is a 500, a result code
   * other than 200 is passed through as the status with the message, and a
   * successful translation is streamed; the stream's deltas rebuild the text.
   */
  function Respond(reply: Reply, created: int, model: string): (r: Response)
    ensures reply.Failed? ==> r == Json(StatusInternalServerError, ErrorMessage("Translation failed: " + reply.err))
    ensures reply.Returned? && reply.result.code != StatusOK ==>
      r == Json(reply.result.code, ErrorMessage(reply.result.message))
    ensures r.EventStream? <==> reply.Returned? && reply.result.code == StatusOK
    ensures r.EventStream? ==> Stream.Transcript(r.events) == reply.result.data
  {
    match reply
    case Failed(err) => Json(StatusInternalServerError, ErrorMessage("Translation failed: " + err))
    case Returned(x) =>
      if x.code != StatusOK then Json(x.code, ErrorMessage(x.message))
      else
        Stream.StreamTranscript(created, model, x.data);
        EventStream(Stream.StreamEvents(created, model, x.data))
  }
}
