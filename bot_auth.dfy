/**
 * `verifyBotRequest`: the guard chain that authenticates an inbound Bot Framework
 * request from its `Authorization: Bearer <JWT>` header (section 2.1 of RFC 6750).
 *
 * The JWT library and the JWKS client are not modelled: they are the three
 * uninterpreted functions of a `JwtLibrary` value. The model records every call made
 * to them, in order, so that the order of the guards can be stated.
 */
module BotAuth {
  import opened Wrappers
  import JsString

  const BearerPrefix := "Bearer "
  const HeaderError := "⚠️ Missing or invalid Authorization header"
  const Unauthorized := "Unauthorized bot request"
  const Issuer := "https://api.botframework.com"
  const Rs256 := "RS256"
  const TeamsChannel := "msteams"

  /** The JOSE header of a token (section 4 of RFC 7515), reduced to `alg` and `kid`. */
  datatype JoseHeader = JoseHeader(alg: string, kid: Option<string>)

  /** What `jwt.verify` returns: a bare string, or a claim set with `iss` and `aud`. */
  datatype Payload = StringPayload(s: string) | Claims(iss: Option<string>, aud: Option<string>)

  /** The options handed to `jwt.verify`. */
  datatype VerifyOptions = VerifyOptions(algorithms: seq<string>, issuer: string, audience: Option<string>)

  /**
   * The external collaborators, each `None` where the source's call returns null or throws:
   * `jwt.decode(token, { complete: true })` reduced to its header, the JWKS signing-key lookup,
   * and `jwt.verify` (signature, algorithm, `iss`, `aud` and `exp` checks, with its clock).
   */
  datatype JwtLibrary = JwtLibrary(
    decodeHeader: string -> Option<JoseHeader>,
    signingKey: string -> Option<string>,
    verify: (string, string, VerifyOptions) -> Option<Payload>)

  /** The request: its `authorization` header and its parsed JSON body, reduced to `channelId`. */
  datatype BotRequest = BotRequest(authorization: Option<string>, body: Option<RequestBody>)

  datatype RequestBody = RequestBody(channelId: Option<string>)

  /** A call made to the external collaborators. */
  datatype LibraryCall =
    | Decode(token: string)
    | FetchKey(kid: string)
    | Verify(token: string, key: string, options: VerifyOptions)

  /** The result (`true`, or the message of the error thrown) and the calls made on the way. */
  datatype Verification = Verification(outcome: Result<bool, string>, calls: seq<LibraryCall>)

  /** `authHeader && authHeader.startsWith("Bearer ")`. */
  predicate WellFormedAuthorization(authorization: Option<string>)
    ensures WellFormedAuthorization(authorization) <==>
              authorization.Some? && |authorization.value| >= 7 && authorization.value[..7] == "Bearer "
    ensures authorization == Some("") ==> !WellFormedAuthorization(authorization)
  {
    authorization.Some? && BearerPrefix <= authorization.value
  }

  /** `authHeader.split(" ")[1]`: the characters after "Bearer " up to the next space. */
  function BearerToken(header: string): (token: string)
    requires BearerPrefix <= header
    ensures ' ' !in token
    ensures token <= header[|BearerPrefix|..]
    ensures |BearerPrefix| + |token| < |header| ==> header[|BearerPrefix| + |token|] == ' '
  {
    var rest := header[|BearerPrefix|..];
    assert header == "Bearer" + [' '] + rest;
    JsString.SplitAfterField("Bearer", ' ', rest);
    JsString.FirstField(rest, ' ');
    JsString.Split(header, ' ')[1]
  }

  /** `decodedHeader.header.kid`, when the header decodes and its `kid` is truthy. */
  function KeyId(header: Option<JoseHeader>): (kid: Option<string>)
    ensures kid.Some? <==> header.Some? && header.value.kid.Some? && header.value.kid.value != ""
    ensures kid.Some? ==> header.value.kid == kid
  {
    if header.Some? && header.value.kid.Some? && header.value.kid.value != "" then header.value.kid
    else None
  }

  /** The options of the source's `jwt.verify` call: RS256 only, the Bot Framework issuer, `APP_ID` as audience. */
  function Rs256Options(appId: Option<string>): (options: VerifyOptions)
    ensures Rs256 in options.algorithms && forall a :: a in options.algorithms ==> a == Rs256
    ensures options.issuer == "https://api.botframework.com" && options.audience == appId
  {
    VerifyOptions([Rs256], Issuer, appId)
  }

  /** `!req.body.channelId || req.body.channelId !== "msteams"` fails. */
  predicate FromTeams(body: Option<RequestBody>)
    ensures FromTeams(body) <==>
              body.Some? && body.value.channelId.Some? && body.value.channelId.value == "msteams"
    ensures body == Some(RequestBody(Some(""))) ==> !FromTeams(body)
  {
    body.Some? && body.value.channelId == Some(TeamsChannel)
  }

  /** `verifyBotRequest(req)` with `appId` for `process.env.APP_ID`. */
  function VerifyBotRequest(req: BotRequest, appId: Option<string>, lib: JwtLibrary): (v: Verification)
    // it returns true or throws one of two messages
    ensures v.outcome.Ok? ==> v.outcome.value
    ensures v.outcome.Err? ==> v.outcome.error == HeaderError || v.outcome.error == Unauthorized
    // the header check comes first and touches nothing else
    ensures v.outcome == Err(HeaderError) <==> !WellFormedAuthorization(req.authorization)
    ensures v.calls == [] <==> !WellFormedAuthorization(req.authorization)
    // then decode, key lookup and verification, each only when the one before succeeded
    ensures |v.calls| <= 3
    ensures |v.calls| >= 1 ==>
              WellFormedAuthorization(req.authorization)
              && v.calls[0] == Decode(BearerToken(req.authorization.value))
    ensures |v.calls| >= 2 ==>
              v.calls[1].FetchKey? && KeyId(lib.decodeHeader(v.calls[0].token)) == Some(v.calls[1].kid)
    ensures (WellFormedAuthorization(req.authorization)
             && KeyId(lib.decodeHeader(BearerToken(req.authorization.value))).Some?) ==> |v.calls| >= 2
    ensures WellFormedAuthorization(req.authorization) ==>
              var kid := KeyId(lib.decodeHeader(BearerToken(req.authorization.value)));
              kid.Some? && lib.signingKey(kid.value).Some? ==> |v.calls| == 3
    ensures |v.calls| == 3 ==>
              lib.signingKey(v.calls[1].kid).Some?
              && v.calls[2] == Verify(v.calls[0].token, lib.signingKey(v.calls[1].kid).value, Rs256Options(appId))
    // acceptance: the RS256 verification returned a claim set and the channel is Teams
    ensures v.outcome.Ok? <==>
              && |v.calls| == 3
              && var call := v.calls[2];
              && lib.verify(call.token, call.key, call.options).Some?
              && lib.verify(call.token, call.key, call.options).value.Claims?
              && FromTeams(req.body)
  {
    if !WellFormedAuthorization(req.authorization) then Verification(Err(HeaderError), [])
    else
      var token := BearerToken(req.authorization.value);
      var kid := KeyId(lib.decodeHeader(token));
      if kid.None? then Verification(Err(Unauthorized), [Decode(token)])
      else
        var key := lib.signingKey(kid.value);
        if key.None? then Verification(Err(Unauthorized), [Decode(token), FetchKey(kid.value)])
        else
          var options := Rs256Options(appId);
          var calls := [Decode(token), FetchKey(kid.value), Verify(token, key.value, options)];
          var payload := lib.verify(token, key.value, options);
          if payload.None? || payload.value.StringPayload? then Verification(Err(Unauthorized), calls)
          else if !FromTeams(req.body) then Verification(Err(Unauthorized), calls)
          else Verification(Ok(true), calls)
  }

  /**
   * A library whose `verify` honours its options: it returns a payload only for a token whose
   * header names an allowed algorithm, and a claim set only with the required `iss` and, when
   * an audience is configured (non-empty), that `aud`.
   */
  ghost predicate HonoursOptions(lib: JwtLibrary)
  {
    forall token, key, options :: lib.verify(token, key, options).Some? ==>
      && lib.decodeHeader(token).Some?
      && lib.decodeHeader(token).value.alg in options.algorithms
      && (lib.verify(token, key, options).value.Claims? ==>
            && lib.verify(token, key, options).value.iss == Some(options.issuer)
            && (options.audience.Some? && options.audience.value != "" ==>
                  lib.verify(token, key, options).value.aud == options.audience))
  }

  /**
   * Anti-downgrade: with a library that honours its options, an accepted request carries a
   * token whose `alg` is RS256 (never "none" or "HS256"), issued by the Bot Framework
   * for the configured application.
   */
  lemma AcceptedTokenIsRs256(req: BotRequest, appId: Option<string>, lib: JwtLibrary)
    requires HonoursOptions(lib)
    requires VerifyBotRequest(req, appId, lib).outcome.Ok?
    ensures var token := BearerToken(req.authorization.value);
            && lib.decodeHeader(token).Some?
            && lib.decodeHeader(token).value.alg == Rs256
            && KeyId(lib.decodeHeader(token)).Some?
    ensures var token := BearerToken(req.authorization.value);
            var key := lib.signingKey(KeyId(lib.decodeHeader(token)).value);
            && key.Some?
            && lib.verify(token, key.value, Rs256Options(appId)).Some?
            && lib.verify(token, key.value, Rs256Options(appId)).value.iss == Some(Issuer)
            && (appId.Some? && appId.value != "" ==> lib.verify(token, key.value, Rs256Options(appId)).value.aud == appId)
  {
    var v := VerifyBotRequest(req, appId, lib);
    var call := v.calls[2];
    assert lib.verify(call.token, call.key, call.options).Some?;
  }

  /**
   * A library that checks what its options ask for, and only that: tokens are "<alg>.<kid>"
   * pairs read from a fixed table, and every signature is taken as valid.
   */
  function TableLibrary(headers: map<string, JoseHeader>, keys: map<string, string>): (lib: JwtLibrary)
    ensures HonoursOptions(lib)
  {
    JwtLibrary(
      (token: string) => if token in headers then Some(headers[token]) else None,
      (kid: string) => if kid in keys then Some(keys[kid]) else None,
      (token: string, key: string, options: VerifyOptions) =>
        if token in headers && headers[token].alg in options.algorithms
        then Some(Claims(Some(options.issuer), options.audience))
        else None)
  }

  /** The table library of the two lemmas below: "t1" is an RS256 token, "t2" an HS256 one, both with kid "k1". */
  function SampleLibrary(): JwtLibrary
  {
    TableLibrary(map["t1" := JoseHeader(Rs256, Some("k1")), "t2" := JoseHeader("HS256", Some("k1"))],
                 map["k1" := "public key"])
  }

  /** The token, key and verification result a well-formed request leads to, when decoding and key lookup succeed. */
  predicate Verified(req: BotRequest, appId: Option<string>, lib: JwtLibrary)
    requires WellFormedAuthorization(req.authorization)
  {
    var token := BearerToken(req.authorization.value);
    var kid := KeyId(lib.decodeHeader(token));
    && kid.Some?
    && lib.signingKey(kid.value).Some?
    && lib.verify(token, lib.signingKey(kid.value).value, Rs256Options(appId)).Some?
    && lib.verify(token, lib.signingKey(kid.value).value, Rs256Options(appId)).value.Claims?
  }

  /** Completeness: a well-formed Teams request whose token passes decoding, key lookup and RS256 verification is accepted. */
  lemma AcceptedWhenEveryCheckPasses(req: BotRequest, appId: Option<string>, lib: JwtLibrary)
    requires WellFormedAuthorization(req.authorization)
    requires Verified(req, appId, lib)
    requires FromTeams(req.body)
    ensures VerifyBotRequest(req, appId, lib).outcome == Ok(true)
  {
  }

  /** A well-formed request whose token decodes and whose key is found, but which RS256 verification rejects, is refused with the uniform message. */
  lemma RefusedWhenVerificationFails(req: BotRequest, appId: Option<string>, lib: JwtLibrary)
    requires WellFormedAuthorization(req.authorization)
    requires var kid := KeyId(lib.decodeHeader(BearerToken(req.authorization.value)));
             kid.Some? && lib.signingKey(kid.value).Some?
    requires !Verified(req, appId, lib)
    ensures VerifyBotRequest(req, appId, lib).outcome == Err(Unauthorized)
  {
  }

  /** With the sample library, a Teams request bearing the RS256 token is accepted. */
  lemma Rs256TeamsRequestIsAccepted()
    ensures VerifyBotRequest(BotRequest(Some(BearerPrefix + "t1"), Some(RequestBody(Some(TeamsChannel)))),
                             Some("app"), SampleLibrary()).outcome == Ok(true)
  {
    var lib := SampleLibrary();
    var req := BotRequest(Some(BearerPrefix + "t1"), Some(RequestBody(Some(TeamsChannel))));
    TokenOfPlainHeader("t1");
    assert lib.decodeHeader("t1") == Some(JoseHeader(Rs256, Some("k1")));
    assert lib.verify("t1", "public key", Rs256Options(Some("app"))).Some?;
    AcceptedWhenEveryCheckPasses(req, Some("app"), lib);
  }

  /** With the sample library, the same request bearing the HS256 token is refused (anti-downgrade). */
  lemma Hs256TokenIsRefused()
    ensures VerifyBotRequest(BotRequest(Some(BearerPrefix + "t2"), Some(RequestBody(Some(TeamsChannel)))),
                             Some("app"), SampleLibrary()).outcome == Err(Unauthorized)
  {
    var lib := SampleLibrary();
    var req := BotRequest(Some(BearerPrefix + "t2"), Some(RequestBody(Some(TeamsChannel))));
    TokenOfPlainHeader("t2");
    assert lib.decodeHeader("t2") == Some(JoseHeader("HS256", Some("k1")));
    assert "HS256" !in Rs256Options(Some("app")).algorithms;
    RefusedWhenVerificationFails(req, Some("app"), lib);
  }

  /** Any channel other than Teams is refused whatever the token, with the uniform message. */
  lemma OnlyTeamsIsAccepted(req: BotRequest, appId: Option<string>, lib: JwtLibrary)
    requires WellFormedAuthorization(req.authorization)
    requires !FromTeams(req.body)
    ensures VerifyBotRequest(req, appId, lib).outcome == Err(Unauthorized)
  {
  }

  /** The token of a header "Bearer t" with no further space is exactly `t`. */
  lemma {:induction false} TokenOfPlainHeader(t: string)
    requires ' ' !in t
    ensures BearerToken(BearerPrefix + t) == t
  {
    var header := BearerPrefix + t;
    assert header[|BearerPrefix|..] == t;
  }

  /** A second space ends the token: "Bearer a b" yields "a", and "Bearer  a" yields "". */
  lemma {:induction false} TokenStopsAtSpace(t: string, extra: string)
    requires ' ' !in t
    ensures BearerToken(BearerPrefix + t + " " + extra) == t
  {
    var header := BearerPrefix + t + " " + extra;
    var rest := t + " " + extra;
    assert header == "Bearer" + [' '] + rest;
    JsString.SplitAfterField("Bearer", ' ', rest);
    JsString.SplitAfterField(t, ' ', extra);
  }
}
