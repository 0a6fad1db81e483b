/**
 * The access-token gate that runs before every translation handler: the
 * `Authorization` header is first reduced to a token, then compared with the
 * configured token, as is the `token` query parameter.
 */
module Auth {
  import opened Api
  import Strings

  const InvalidTokenMessage := "Invalid access token"

  /** The two scheme labels accepted in front of a token; case matters. */
  predicate IsScheme(s: string) {
    s == "Bearer" || s == "DeepL-Auth-Key"
  }

  /**
   * The token carried by an `Authorization` header: the second piece when the
   * header splits on single spaces into exactly two pieces and the first is a
   * recognised scheme; the empty string for any other header.
   */
  function HeaderToken(header: string): (t: string)
    ensures ' ' !in t
  {
    if header != "" then
      var parts := Strings.Split(header, ' ');
      if |parts| == 2 then
        if IsScheme(parts[0]) then parts[1] else ""
      else ""
    else header
  }

  /** A scheme, one space and a token without spaces yield that token. */
  lemma HeaderTokenOfScheme(scheme: string, token: string)
    requires IsScheme(scheme) && ' ' !in token
    ensures HeaderToken(scheme + " " + token) == token
  {
    assert IsScheme(scheme) ==> ' ' !in scheme;
    Strings.SplitOnce(scheme, ' ', token);
  }

  /** A non-empty header token always came from a scheme, one space and that token. */
  lemma HeaderTokenShape(header: string)
    requires HeaderToken(header) != ""
    ensures header == "Bearer " + HeaderToken(header) || header == "DeepL-Auth-Key " + HeaderToken(header)
  {
    var parts := Strings.Split(header, ' ');
    assert |parts| == 2 && IsScheme(parts[0]) && HeaderToken(header) == parts[1];
    assert parts[1..] == [parts[1]];
    assert header == Strings.Join(parts, ' ') == parts[0] + " " + parts[1];
  }

  /** A header without a space, such as a bare token, yields no token. */
  lemma HeaderTokenOfBare(header: string)
    requires ' ' !in header
    ensures HeaderToken(header) == ""
  {
  }

  /**
   * `authMiddleware`'s decision: with no configured token everything passes;
   * otherwise the request is turned away when neither the header token nor
   * the query token equals the configured one.
   */
  function Allows(token: string, authorization: string, queryToken: string): (ok: bool)
    ensures ok <==> token == "" || HeaderToken(authorization) == token || queryToken == token
  {
    if token != "" then
      var headerToken := HeaderToken(authorization);
      !(headerToken != token && queryToken != token)
    else true
  }

  /** The response written when the gate turns a request away. */
  const Rejection := Json(StatusUnauthorized, CodeMessage(StatusUnauthorized, InvalidTokenMessage))

  /** A bare configured token in the header never opens the gate by itself. */
  lemma BareHeaderRefused(token: string, authorization: string, queryToken: string)
    requires token != "" && ' ' !in authorization && queryToken != token
    ensures !Allows(token, authorization, queryToken)
  {
  }

  /** Either scheme followed by a configured space-free token opens the gate. */
  lemma SchemeHeaderAllowed(token: string, scheme: string, queryToken: string)
    requires IsScheme(scheme) && ' ' !in token
    ensures Allows(token, scheme + " " + token, queryToken)
  {
    HeaderTokenOfScheme(scheme, token);
  }

  /** A configured token containing a space can only be presented as the query parameter. */
  lemma SpacedTokenOnlyByQuery(token: string, authorization: string, queryToken: string)
    requires ' ' in token
    ensures Allows(token, authorization, queryToken) <==> queryToken == token
  {
  }
}
