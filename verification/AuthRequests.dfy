/** internal/storage/oidc_types.go: the stored authorization request, the way an incoming
    request becomes one, and what its getters report to the token endpoint. */
module AuthRequests {
  import opened Prelude
  import opened Users

  datatype CodeChallenge = CodeChallenge(challenge: string, kind: string)

  /** What the request only carries along for the login pages. */
  datatype Hints = Hints(uiLocales: seq<string>, loginHint: string, maxAuthAge: Option<Time>)

  /** The authorization request as it arrives at the authorize endpoint. */
  datatype IncomingRequest = IncomingRequest(
    clientId: string, redirectUri: string, state: string, prompt: seq<string>,
    scopes: seq<string>, responseType: string, responseMode: string, nonce: string,
    codeChallenge: string, codeChallengeMethod: string,
    uiLocales: seq<string>, loginHint: string, maxAge: Option<nat>)

  datatype AuthRequest = AuthRequest(
    id: string, applicationId: string, callbackUri: string, transferState: string,
    prompt: seq<string>, userId: string, scopes: seq<string>, responseType: string,
    responseMode: string, nonce: string, codeChallenge: Option<CodeChallenge>,
    acr: string, amr: seq<string>, done: bool, authTime: Time, creationDate: Time, hints: Hints)
  {
    function Amr(): seq<string> {
      if |amr| > 0 then amr else if done then ["pwd"] else []
    }

    function Audience(): seq<string> {
      [applicationId]
    }

    /** The challenge as the token endpoint sees it: any method but S256 reads as plain. */
    function Challenge(): Option<CodeChallenge> {
      match codeChallenge
      case None => None
      case Some(c) => Some(CodeChallenge(c.challenge, if c.kind == "S256" then "S256" else "plain"))
    }

    /** True when the other request carries the same authorization parameters. */
    predicate SameParameters(other: AuthRequest) {
      && id == other.id
      && applicationId == other.applicationId
      && callbackUri == other.callbackUri
      && transferState == other.transferState
      && prompt == other.prompt
      && scopes == other.scopes
      && responseType == other.responseType
      && responseMode == other.responseMode
      && nonce == other.nonce
      && codeChallenge == other.codeChallenge
      && creationDate == other.creationDate
      && hints == other.hints
    }
  }

  predicate KnownPrompt(p: string) {
    p == "none" || p == "login" || p == "consent" || p == "select_account"
  }

  function KnownPrompts(prompts: seq<string>): seq<string> {
    if prompts == [] then []
    else (if KnownPrompt(prompts[0]) then [prompts[0]] else []) + KnownPrompts(prompts[1..])
  }

  /** Section 3.1.2.1 of OpenID Connect Core 1.0: the prompts it defines, in the order sent. */
  ghost predicate PromptsKept(kept: seq<string>, sent: seq<string>) {
    Selects(kept, sent, (p: string) => p in {"none", "login", "consent", "select_account"})
  }

  lemma {:induction false} KnownPromptsKept(prompts: seq<string>)
    ensures PromptsKept(KnownPrompts(prompts), prompts)
  {
    var known := (p: string) => p in {"none", "login", "consent", "select_account"};
    if prompts == [] {
      SelectNothing(known);
    } else {
      KnownPromptsKept(prompts[1..]);
      SelectOneMore(prompts[0], KnownPrompts(prompts[1..]), prompts[1..], known);
      assert prompts == [prompts[0]] + prompts[1..];
    }
  }

  method PromptToInternal(prompts: seq<string>) returns (kept: seq<string>)
    ensures kept == KnownPrompts(prompts)
    ensures PromptsKept(kept, prompts)
  {
    kept := [];
    for i := 0 to |prompts|
      invariant kept + KnownPrompts(prompts[i..]) == KnownPrompts(prompts)
    {
      if KnownPrompt(prompts[i]) {
        kept := kept + [prompts[i]];
      }
    }
    assert kept == KnownPrompts(prompts);
    KnownPromptsKept(prompts);
  }

  function FromIncoming(incoming: IncomingRequest, userId: string, id: string, now: Time): AuthRequest {
    AuthRequest(id, incoming.clientId, incoming.redirectUri, incoming.state,
                KnownPrompts(incoming.prompt), userId, incoming.scopes, incoming.responseType,
                incoming.responseMode, incoming.nonce,
                if incoming.codeChallenge == "" then None
                else Some(CodeChallenge(incoming.codeChallenge, incoming.codeChallengeMethod)),
                "", [], false, 0, now, Hints(incoming.uiLocales, incoming.loginHint, incoming.maxAge))
  }

  /** What the request carries is what was sent to the authorize endpoint, field by field. */
  ghost predicate CarriesSent(req: AuthRequest, incoming: IncomingRequest) {
    && req.applicationId == incoming.clientId
    && req.callbackUri == incoming.redirectUri
    && req.transferState == incoming.state
    && req.nonce == incoming.nonce
    && req.scopes == incoming.scopes
    && req.responseType == incoming.responseType
    && req.responseMode == incoming.responseMode
    && (incoming.codeChallenge == "" ==> req.codeChallenge == None)
    && (incoming.codeChallenge != "" ==>
          req.codeChallenge == Some(CodeChallenge(incoming.codeChallenge, incoming.codeChallengeMethod)))
    && req.hints.uiLocales == incoming.uiLocales
    && req.hints.loginHint == incoming.loginHint
    && req.hints.maxAuthAge == incoming.maxAge
    && PromptsKept(req.prompt, incoming.prompt)
  }

  lemma FromIncomingCarries(incoming: IncomingRequest, userId: string, id: string, now: Time, req: AuthRequest)
    requires req.SameParameters(FromIncoming(incoming, userId, id, now))
    ensures CarriesSent(req, incoming) && req.id == id && req.creationDate == now
  {
    KnownPromptsKept(incoming.prompt);
  }

  function NewAuthenticated(id: string, clientId: string, user: User, scopes: seq<string>, now: Time): AuthRequest {
    AuthRequest(id, clientId, "", "", [], user.SubjectOrId(), scopes, "code", "", "", None,
                user.acr, user.amr, true, now, now, Hints([], "", None))
  }
}
