# DeepLX gateway handlers, modelled in Dafny

DeepLX is an HTTP gateway in front of one DeepL translation call. Its `main.go`
puts three routes behind an access-token gate:

- `POST /translate`, the free API;
- `POST /v1/translate`, the pro API, which needs a `dl_session` credential;
- `POST /v1/chat/completions`, an OpenAI-style chat endpoint that always streams
  its answer as server-sent events.

This project takes each decision rule out of its handler and models it on its own:

- the token gate;
- the `tag_handling` check;
- resolving and checking the pro session;
- parsing the chat's `Translate to <lang>: <text>` command;
- choosing the status and envelope from the engine's reply;
- the emitter loop that writes the translated text one code point at a time.

The translation engine is never modelled. Where the handlers call it, the model
takes its reply as an input: module `Router` passes the engine in as a function.

Layout (one module per file):

- `wrappers.dfy` (`Wrappers`): `Option`.
- `strings.dfy` (`Strings`): the Go `strings` functions the handlers use:
  - `Split` on a space;
  - `SplitN(…, 2)` on a colon;
  - `HasPrefix` and `TrimPrefix`;
  - `TrimSpace`, using Go's `unicode.IsSpace` set;
  - `Replace(…, "", -1)`.
- `api.dfy` (`Api`): shared values:
  - the configuration record;
  - the engine call and its reply;
  - JSON bodies, stream events and responses;
  - `Admission`, which is either an early response or the engine call.
- `auth.dfy` (`Auth`): `authMiddleware`.
- `translate.dfy` (`Translate`): the free and pro handlers.
- `stream.dfy` (`Stream`): the event stream. `StreamEvents` is its specification and
  `EmitStream` is the handler's loop, written as an imperative method and proved
  equal to `StreamEvents`.
- `chat.dfy` (`Chat`): the chat handler.
- `router.dfy` (`Router`): the routes end to end, through the gate, the checks, the
  engine and the response.

Notes on what `main.go` does:

- The `Authorization` header must be `Bearer <t>` or `DeepL-Auth-Key <t>`, split
  on single spaces. A bare token in the header yields no token.
- The pro session is the `Cookie` header with every `dl_session=` deleted when
  that header is non-empty; otherwise it is the configured session.
- An engine error on the free and pro routes calls `log.Fatalf`, which ends the
  process.
- On the free and pro routes `c.BindJSON` has Gin write status 400 when the body
  does not bind. The handler then goes on with the fields it has, and its later
  response keeps its body but not its status.
- The chat route has no `stream` flag and no model-name table. Its default target
  is `ZH` and its source is always auto-detect.
- There are three POST routes behind the gate, `/translate`, `/v1/translate` and
  `/v1/chat/completions`, plus the `GET /` banner, which is left out.

## Model

| member | source | states |
|---|---|---|
| `Strings.Split` | main.go:38 | splitting on a separator gives one more piece than there are separators; no piece contains the separator; joining the pieces gives the input back |
| `Strings.SplitWithout` | main.go:45-47 | a string without the separator splits into itself alone |
| `Strings.SplitOnce` | main.go:39-41 | a string with exactly one separator splits into the two pieces around it |
| `Strings.TrimPrefix` | main.go:275 | a string that has the prefix is the prefix followed by the result; any other string is returned unchanged |
| `Strings.IndexOf` | main.go:273 | the index returned holds the character, and no earlier position does |
| `Strings.SplitFirst` | main.go:273-274 | `SplitN(s, ":", 2)` gives two pieces exactly when a colon occurs; the first piece has no colon, and the pieces with the colon rebuild `s`; otherwise there is one piece, `s` itself |
| `Strings.SplitFirstAt` | main.go:273-276 | the cut falls at the first colon, even when later colons follow |
| `Strings.LeadingSpaces` | main.go:275-276 | the count covers only white space and stops at the first non-space |
| `Strings.TrailingStart` | main.go:275-276 | everything from the index on is white space, and the character just before it is not |
| `Strings.TrimSpace` | main.go:275-276 | the result neither starts nor ends with white space; it is a slice of the input with only white space on either side |
| `Strings.TrimSpacePadded` | main.go:275-276 | trimming white-space padding from a string with no white space at its ends gives that string back |
| `Strings.RemoveAll` | main.go:210 | deleting every `dl_session=` never makes a string longer |
| `Strings.RemoveAllKeeps` | main.go:210 | a character that the deleted key does not contain is in the result iff it is in the input |
| `Strings.RemoveAllAbsent` | main.go:210 | a string in which the key does not occur is left unchanged |
| `Strings.RemoveAllRepeat` | main.go:210 | deleting from copies of the key placed back to back leaves the empty string |
| `Strings.RemoveAllEmpty` | main.go:210 | the result is empty only when the input is copies of the key back to back |
| `Strings.RemoveAllPrefixed` | main.go:210 | a leading key is deleted and the scan goes on right after it |
| `Auth.HeaderToken` | main.go:36-48 | the token taken from the `Authorization` header never contains a space |
| `Auth.HeaderTokenOfScheme` | main.go:38-41 | `Bearer <t>` and `DeepL-Auth-Key <t>` yield `t` when `t` has no space |
| `Auth.HeaderTokenShape` | main.go:38-47 | a non-empty header token came from exactly `Bearer ` or `DeepL-Auth-Key ` followed by that token |
| `Auth.HeaderTokenOfBare` | main.go:45-47 | a header with no space, such as a bare token, yields no token |
| `Auth.Allows` | main.go:32-57 | a request passes iff no token is configured, or the header token equals the configured token, or the `token` query value does |
| `Auth.BareHeaderRefused` | main.go:37-57 | with a token configured, a bare token in the header and a wrong query value are refused |
| `Auth.SchemeHeaderAllowed` | main.go:39-41 | a recognised scheme, one space and the configured space-free token always pass |
| `Auth.SpacedTokenOnlyByQuery` | main.go:37-57 | a configured token that contains a space can pass only as the query parameter |
| `Translate.AdmitFree` | main.go:148-163 | the engine is called iff `tag_handling` is `""`, `html` or `xml`; the call carries the body's fields, the configured proxy and an empty session; any other value is the fixed 400 |
| `Translate.ResolveSession` | main.go:198-211 | with no cookie the configured session is used; the resolved session is never longer than the value it came from |
| `Translate.AdmitPro` | main.go:192-227 | the tag check comes first (400), then the missing-session check (401 "No dl_session Found"), then the `.` check (401 "not a Pro account"); the engine is called iff all three pass, and then with the resolved session |
| `Translate.SessionDotFromSource` | main.go:208-219 | the resolved session contains `.` iff the cookie does, or the configured session does when there is no cookie |
| `Translate.SessionMissing` | main.go:208-218 | the session is missing iff neither a cookie nor a configured session exists, or the cookie is only `dl_session=` repeated |
| `Translate.SessionFromCookie` | main.go:208-211 | the cookie `dl_session=<v>` yields `v` when `v` contains no further key |
| `Translate.Respond` | main.go:164-184 | an engine error ends the process; result code 200 gives status 200 with the id, data, alternatives, languages and method; any other code becomes the status, with `{code, message}`; the pro handler repeats this at main.go:228-248 |
| `Stream.StreamTranscript` | main.go:339-358 | the delta contents of the stream, concatenated in order, equal the translated text |
| `Stream.StreamShape` | main.go:339-369 | the first event is the assistant role with empty content and no finish reason; event k carries code point k-1 alone, with no role and a null finish reason; a non-empty text of n code points gives 1 + n + 2 events ending in the `stop` chunk and `[DONE]`; an empty text gives the role chunk alone |
| `Stream.StreamFinishesOnce` | main.go:359-369 | exactly one finish chunk for a non-empty text and none for an empty one; only `[DONE]` follows a finish chunk |
| `Stream.ContentChunksAt` | main.go:351-357 | there is one content chunk per code point, and chunk k carries code point k |
| `Stream.ContentChunksTranscript` | main.go:351-357 | the content chunks carry exactly the text |
| `Stream.ContentChunksUnfinished` | main.go:351-357 | no content chunk has a finish reason |
| `Stream.EmitStream` | main.go:339-373 | the handler's loop, which updates the delta in place and writes each chunk, produces exactly `StreamEvents` |
| `Chat.ParseCommand` | main.go:268-278 | the source language is always left to auto-detection |
| `Chat.CommandDefault` | main.go:269-272 | without the `Translate to ` prefix, or without a colon, the target is `ZH` and the text is the last message unchanged |
| `Chat.CommandOverrides` | main.go:272-277 | `Translate to <lang>:<text>` with no colon in `lang` gives target `TrimSpace(lang)` and text `TrimSpace(text)` |
| `Chat.CommandExample` | main.go:272-277 | `Translate to FR: Hello` gives target `FR` and text `Hello` |
| `Chat.Admit` | main.go:253-281 | an unbindable body is a 400 "Invalid request format"; no messages is a 400 "No messages provided"; otherwise the last message's command is sent with source `""`, no tag handling, no session and the configured proxy |
| `Chat.Respond` | main.go:281-294 | an engine error is a 500 "Translation failed: …"; a result code other than 200 becomes the status, with `{error: message}`; code 200 streams, and the stream's deltas rebuild the translated text |
| `Router.Plan` | main.go:144 | a request the gate refuses gets the 401 before any route check, on this route and on the two that the gate also wraps at main.go:188 and main.go:252; every early response is a JSON response |
| `Router.Serve` | main.go:144-185 | for the free handler here, the pro handler at main.go:188-249 and the chat handler at main.go:252-374: an early response of the plan is exactly what the client gets, unless a translate body did not bind, which always gives status 400 or ends the process; only the chat route streams; the process ends only on a translate route whose engine call failed |
| `Translate.AfterBind` | main.go:146 | when binding failed, a JSON response keeps its body and gets status 400; a `Fatal` outcome, and any response after a successful bind, is unchanged; the pro handler binds the same way at main.go:190 |
| `Router.BindFailureKeeps400` | main.go:144-146 | a translate body that does not bind is still turned away by the gate first; past it, the client gets status 400 with the body the handler writes for the decoded fields, and an engine error still ends the process |
| `Router.UnauthorizedNeverTranslates` | main.go:50-57 | a refused token gives 401 "Invalid access token" whatever the engine would reply |
| `Router.InvalidTagNeverTranslates` | main.go:155-161 | on both translate routes, an unknown `tag_handling` gives 400 whatever the engine would reply |
| `Router.ProCallSession` | main.go:198-227 | a pro engine call carries the resolved session, which is non-empty and free of `.`, and its raw source has no `.` |
| `Router.FreeCallFields` | main.go:163 | a free engine call carries the body's fields, the configured proxy and no session |
| `Router.ChatCallFields` | main.go:281 | a chat engine call auto-detects the source and has no tag handling, no session and the configured proxy |
| `Router.ResultCodePassesThrough` | main.go:179-183 | on every route, a result code other than 200 becomes the HTTP status, except that a translate body that did not bind keeps the 400 already sent |
| `Router.EngineErrorOutcome` | main.go:282-287 | an engine error is a 500 on the chat route (these lines) and ends the process on the translate routes (main.go:164-166 and main.go:228-230) |
| `Router.ChatStreamsTranslation` | main.go:296-373 | a successful chat translation is the event stream for the request's model, and its deltas rebuild the translated text |

## Left out

- The Gin router, CORS, the HTTP server and the `GET /` banner carry no decision logic.
- Proxy set-up in `main` is left out. It reads a `PROXY` environment variable, parses the URL and replaces the process-wide transport. The handlers themselves pass the configured proxy string, and that is what the model passes.
- `initConfig` is not part of this model. The configuration is the record `{token, proxy, dlSession}`.
- `translate.TranslateByDeepLX` is a network call and is not modelled. Its reply is an input: an error, or a result record.
- JSON binding and marshalling are left out:
  - Free and pro bodies are given as the fields `BindJSON` decoded and a flag saying whether binding succeeded. Which fields a malformed body still fills is not modelled; any values can be given.
  - A chat body that does not bind is `None`.
  - Responses and stream chunks are values, not bytes.
- The chunk `id` is `chatcmpl-` followed by a Unix time. It comes from its own `time.Now()` call (main.go:317), separate from the one for `created` (main.go:319), and is not modelled. `object` and `index` are constants and are not carried. `created` is a parameter, because it comes from the clock.
- The 50 ms pause after each chunk and the `Flush` after each write are timing effects. The model treats every write as succeeding; the handler ignores write errors on a disconnected client.
- UTF-8 decoding is left out. The translated text is taken as a sequence of code points, so invalid bytes becoming U+FFFD is not modelled.
- The `Authorization` and `Cookie` header values are also taken as code points. Go's `Split`, `SplitN`, `HasPrefix`, `TrimPrefix`, `Replace` and `Contains` work on bytes. The two agree on valid UTF-8, but header bytes that are not valid UTF-8 are not modelled.
- `log.Fatalf` is the outcome `Fatal`. Ending the process, and so every other request, is not modelled further.
- Status codes are unbounded integers. What the HTTP library does with an out-of-range result code is not modelled.
- The `role` of chat messages is never read. It appears in the model only as a field.
