/** The token methods of internal/storage/storage.go as written, over tables held in fields. Each
    does exactly what its program in TokenMachine does when it runs without interference. */
module TokenStorage {
  import opened Prelude
  import opened TokenTables
  import opened TokenMachine
  import opened TokenAlone

  /** The access token row of a new pair. */
  ghost predicate PairRow(clients: map<string, Lifetimes>, request: TokenRequest, refreshId: string, accessId: string, now: Time,
                          t: TokenRow)
  {
    && t.id == accessId && t.refreshTokenId == refreshId
    && PairAsked(request, t.applicationId, t.subject, t.audience, t.scopes)
    && t.expiration == now + (
         if t.applicationId in clients && clients[t.applicationId].access > 0 then clients[t.applicationId].access else 300)
  }

  /** Both rows of a login. */
  ghost predicate LoginRows(clients: map<string, Lifetimes>, request: TokenRequest, refreshId: string, accessId: string, now: Time,
                            t: TokenRow, r: RefreshRow)
  {
    && PairRow(clients, request, refreshId, accessId, now, t)
    && r.id == refreshId && r.token == refreshId && r.accessToken == accessId
    && r.userId == t.subject && r.applicationId == t.applicationId && r.audience == t.audience && r.scopes == t.scopes
    && SignedInAs(request, r.authTime, r.amr)
    && r.expiration == now + (
         if t.applicationId in clients && clients[t.applicationId].refresh > 0 then clients[t.applicationId].refresh else 18000)
  }

  lemma RowsOfALogin(db: Tables, request: TokenRequest, refreshId: string, accessId: string, now: Time)
    ensures var t := Dated(db, Draft(accessId, request.Application(), refreshId, request, now));
      && PairRow(db.clients, request, refreshId, accessId, now, t)
      && LoginRows(db.clients, request, refreshId, accessId, now, t,
           FirstRefreshRow(t, request.Amr(), request.AuthTime(), now + RefreshLifetime(db.clients, t.applicationId)))
  {
  }

  class Storage {
    var tokens: map<string, TokenRow>
    var refreshTokens: map<string, RefreshRow>
    var clients: map<string, Lifetimes>

    /** NewStorage works on whatever the tables already hold. */
    constructor (db: Tables)
      ensures Db() == db
    {
      tokens, refreshTokens, clients := db.tokens, db.refreshTokens, db.clients;
    }

    function Db(): Tables
      reads this
    {
      Tables(tokens, refreshTokens, clients)
    }

    method AccessTokenLifetime(client: string) returns (lifetime: Time)
      ensures lifetime == AccessLifetime(clients, client)
      ensures lifetime == if client in clients && clients[client].access > 0 then clients[client].access else 300
    {
      if client in clients && clients[client].access > 0 {
        return clients[client].access;
      }
      return FIVE_MINUTES;
    }

    /** accessToken: stores a new access token row under a drawn id. */
    method AccessToken(application: string, refreshId: string, subject: string, audience: seq<string>, scopes: seq<string>,
                       id: string, now: Time)
      returns (row: Option<TokenRow>)
      modifies this`tokens
      ensures id in old(tokens) ==> row == None && tokens == old(tokens)
      ensures id !in old(tokens) ==> row.Some? && tokens == old(tokens)[id := row.value]
      ensures row.Some? ==>
        && row.value.expiration == now + AccessLifetime(clients, application)
        && row.value == TokenRow(id, application, subject, refreshId, audience, scopes, row.value.expiration)
    {
      var lifetime := AccessTokenLifetime(application);
      var t := TokenRow(id, application, subject, refreshId, audience, scopes, now + lifetime);
      if t.id in tokens {
        return None;
      }
      tokens := tokens[t.id := t];
      return Some(t);
    }

    method CreateAccessToken(request: TokenRequest, accessId: string, now: Time) returns (outcome: Outcome)
      modifies this`tokens
      ensures (Db(), Done(outcome)) ==
        Steps(old(Db()), now, WithIds(Entry(IssueAccess(request)), "", accessId, now), 2)
      ensures if accessId in old(tokens) then outcome == Failed(IdTaken) && tokens == old(tokens)
        else accessId in tokens && tokens == old(tokens)[accessId := tokens[accessId]]
             && outcome == AccessIssued(accessId, tokens[accessId].expiration)
      ensures outcome.AccessIssued? ==> var row := tokens[accessId];
        && row.id == accessId && row.refreshTokenId == ""
        && AccessAsked(request, row.applicationId, row.subject, row.audience, row.scopes)
        && row.expiration == now + (
             if row.applicationId in clients && clients[row.applicationId].access > 0 then clients[row.applicationId].access else 300)
    {
      var row := AccessToken(request.AccessApplication(), "", request.Subject(), request.Audience(), request.Scopes(), accessId, now);
      if row.None? {
        return Failed(IdTaken);
      }
      return AccessIssued(row.value.id, row.value.expiration);
    }

    /** createRefreshToken: stores the refresh token row that belongs to a new access token. */
    method CreateRefreshToken(t: TokenRow, amr: seq<string>, authTime: Time, now: Time) returns (ok: bool)
      modifies this`refreshTokens
      ensures ok == (t.refreshTokenId !in old(refreshTokens))
      ensures refreshTokens == if !ok then old(refreshTokens) else
        old(refreshTokens)[t.refreshTokenId :=
          FirstRefreshRow(t, amr, authTime, now + RefreshLifetime(clients, t.applicationId))]
      ensures ok ==> refreshTokens == old(refreshTokens)[t.refreshTokenId :=
        RefreshRow(t.refreshTokenId, t.refreshTokenId, authTime, amr, t.audience, t.subject, t.applicationId,
                   now + (if t.applicationId in clients && clients[t.applicationId].refresh > 0
                          then clients[t.applicationId].refresh else 18000),
                   t.scopes, t.id)]
    {
      var lifetime := FIVE_HOURS;
      if t.applicationId in clients && clients[t.applicationId].refresh > 0 {
        lifetime := clients[t.applicationId].refresh;
      }
      if t.refreshTokenId in refreshTokens {
        return false;
      }
      refreshTokens := refreshTokens[t.refreshTokenId := FirstRefreshRow(t, amr, authTime, now + lifetime)];
      return true;
    }

    method LoadRefreshToken(token: string) returns (row: Option<RefreshRow>)
      ensures row == if token in refreshTokens then Some(refreshTokens[token]) else None
    {
      if token !in refreshTokens {
        return None;
      }
      return Some(refreshTokens[token]);
    }

    method TokenRequestByRefreshToken(token: string) returns (request: Option<TokenRequest>)
      ensures request == if token in refreshTokens then Some(FromRefresh(refreshTokens[token])) else None
      ensures request.Some? ==> Advance(Db(), 0, Entry(Renew(token))) == (Db(), InRenew(RenewLoaded(token, request.value.row)))
      ensures request.None? ==> Advance(Db(), 0, Entry(Renew(token))) == (Db(), Done(Failed(InvalidRefreshToken)))
    {
      var row := LoadRefreshToken(token);
      if row.None? {
        return None;
      }
      return Some(FromRefresh(row.value));
    }

    /** renewRefreshToken: exchanges the current refresh token and its access token for new ones. */
    method RenewRefreshToken(current: string, t: TokenRow, now: Time) returns (outcome: Outcome)
      modifies this`tokens, this`refreshTokens
      ensures (Db(), Done(outcome)) == Steps(old(Db()), now, InRenew(RenewReload(current, t)), 4)
      ensures outcome == (
        if current !in old(refreshTokens) then Failed(InvalidRefreshToken)
        else if old(refreshTokens)[current].expiration < now then Failed(ExpiredRefreshToken)
        else if t.refreshTokenId in old(refreshTokens) && t.refreshTokenId != current then Failed(IdTaken)
        else Renewed(t.id, t.refreshTokenId, t.expiration))
      ensures outcome.Renewed? ==> var prior := old(refreshTokens)[current];
        && tokens == old(tokens) - {prior.accessToken}
        && refreshTokens == (old(refreshTokens) - {current})[t.refreshTokenId :=
             RefreshRow(t.refreshTokenId, t.refreshTokenId, prior.authTime, prior.amr, prior.audience, prior.userId,
                        prior.applicationId, now + 18000, prior.scopes, t.id)]
    {
      ghost var db0 := Db();
      var row := LoadRefreshToken(current);
      if row.None? {
        return Failed(InvalidRefreshToken);
      }
      if row.value.expiration < now {
        return Failed(ExpiredRefreshToken);
      }
      StepsCompose(db0, now, InRenew(RenewReload(current, t)), 1, 3);
      refreshTokens := refreshTokens - {current};
      StepsCompose(db0, now, InRenew(RenewDeleteRefresh(current, t, row.value)), 1, 2);
      tokens := tokens - {row.value.accessToken};
      if t.refreshTokenId in refreshTokens {
        return Failed(IdTaken);
      }
      refreshTokens := refreshTokens[t.refreshTokenId := RenewedRow(row.value, t.refreshTokenId, t.id, now + FIVE_HOURS)];
      return Renewed(t.id, t.refreshTokenId, t.expiration);
    }

    /** The branch without a current token: a login. */
    method IssuePair(request: TokenRequest, refreshId: string, accessId: string, now: Time) returns (outcome: Outcome)
      modifies this`tokens, this`refreshTokens
      ensures (Db(), Done(outcome)) == Steps(old(Db()), now, WithIds(Entry(Issue(request)), refreshId, accessId, now), 4)
      ensures accessId in old(tokens) ==> outcome == Failed(IdTaken) && Db() == old(Db())
      ensures outcome.Issued? <==> accessId !in old(tokens) && refreshId !in old(refreshTokens)
      ensures outcome.Issued? ==>
        && accessId in tokens && tokens == old(tokens)[accessId := tokens[accessId]]
        && refreshId in refreshTokens && refreshTokens == old(refreshTokens)[refreshId := refreshTokens[refreshId]]
        && LoginRows(clients, request, refreshId, accessId, now, tokens[accessId], refreshTokens[refreshId])
        && outcome == Issued(accessId, refreshId, tokens[accessId].expiration)
      ensures outcome.Issued? || outcome == Failed(IdTaken)
    {
      ghost var db0 := Db();
      ghost var d := Draft(accessId, request.Application(), refreshId, request, now);
      var row := AccessToken(request.Application(), refreshId, request.Subject(), request.Audience(), request.Scopes(), accessId, now);
      if accessId in old(tokens) || refreshId in refreshTokens {
        IssueFails(db0, now, d, request.Amr(), request.AuthTime());
      } else {
        IssueSteps(db0, now, d, request.Amr(), request.AuthTime());
      }
      if row.None? {
        return Failed(IdTaken);
      }
      RowsOfALogin(db0, request, refreshId, accessId, now);
      var ok := CreateRefreshToken(row.value, request.Amr(), request.AuthTime(), now);
      if !ok {
        return Failed(IdTaken);
      }
      return Issued(row.value.id, refreshId, row.value.expiration);
    }

    /** The other branch: the current token is renewed. */
    method RenewPair(request: TokenRequest, current: string, refreshId: string, accessId: string, now: Time)
      returns (outcome: Outcome)
      modifies this`tokens, this`refreshTokens
      ensures (Db(), Done(outcome)) ==
        Steps(old(Db()), now, InRenew(RenewLookup(current, Draft(accessId, request.Application(), refreshId, request, now))), 6)
      ensures outcome == (
        if accessId in old(tokens) then Failed(IdTaken)
        else if current !in old(refreshTokens) then Failed(InvalidRefreshToken)
        else if old(refreshTokens)[current].expiration < now then Failed(ExpiredRefreshToken)
        else if refreshId in old(refreshTokens) && refreshId != current then Failed(IdTaken)
        else Renewed(accessId, refreshId, outcome.expires))
      ensures accessId in old(tokens) ==> Db() == old(Db())
      ensures outcome.Renewed? ==> var prior := old(refreshTokens)[current];
        refreshTokens == (old(refreshTokens) - {current})[refreshId :=
          RefreshRow(refreshId, refreshId, prior.authTime, prior.amr, prior.audience, prior.userId,
                     prior.applicationId, now + 18000, prior.scopes, accessId)]
      ensures outcome.Renewed? ==> var prior := old(refreshTokens)[current];
        exists t | PairRow(clients, request, refreshId, accessId, now, t) ::
          tokens == old(tokens)[accessId := t] - {prior.accessToken} && outcome.expires == t.expiration
    {
      ghost var db0 := Db();
      ghost var d := Draft(accessId, request.Application(), refreshId, request, now);
      var row := AccessToken(request.Application(), refreshId, request.Subject(), request.Audience(), request.Scopes(), accessId, now);
      StepsCompose(db0, now, InRenew(RenewLookup(current, d)), 2, 4);
      if row.None? {
        return Failed(IdTaken);
      }
      RowsOfALogin(db0, request, refreshId, accessId, now);
      StoreSteps(db0, now, current, d);
      outcome := RenewRefreshToken(current, row.value, now);
    }

    /** With no current token this is a login; otherwise the current token is renewed. */
    method CreateAccessAndRefreshTokens(request: TokenRequest, current: string, refreshId: string, accessId: string, now: Time)
      returns (outcome: Outcome)
      modifies this`tokens, this`refreshTokens
      ensures (Db(), Done(outcome)) ==
        if current == "" then Steps(old(Db()), now, WithIds(Entry(Issue(request)), refreshId, accessId, now), 4)
        else Steps(old(Db()), now,
                   InRenew(RenewLookup(current, Draft(accessId, request.Application(), refreshId, request, now))), 6)
      ensures accessId in old(tokens) ==> outcome == Failed(IdTaken) && Db() == old(Db())
      ensures outcome.Issued? <==> current == "" && accessId !in old(tokens) && refreshId !in old(refreshTokens)
      ensures outcome.Issued? ==>
        && accessId in tokens && tokens == old(tokens)[accessId := tokens[accessId]]
        && refreshId in refreshTokens && refreshTokens == old(refreshTokens)[refreshId := refreshTokens[refreshId]]
        && LoginRows(clients, request, refreshId, accessId, now, tokens[accessId], refreshTokens[refreshId])
        && outcome == Issued(accessId, refreshId, tokens[accessId].expiration)
      ensures outcome.Renewed? <==>
        && current != "" && accessId !in old(tokens) && current in old(refreshTokens)
        && now <= old(refreshTokens)[current].expiration && (refreshId in old(refreshTokens) ==> refreshId == current)
      ensures outcome.Renewed? ==> var prior := old(refreshTokens)[current];
        && outcome == Renewed(accessId, refreshId, outcome.expires)
        && refreshTokens == (old(refreshTokens) - {current})[refreshId :=
             RefreshRow(refreshId, refreshId, prior.authTime, prior.amr, prior.audience, prior.userId,
                        prior.applicationId, now + 18000, prior.scopes, accessId)]
      ensures outcome.Renewed? ==> var prior := old(refreshTokens)[current];
        exists t | PairRow(clients, request, refreshId, accessId, now, t) ::
          tokens == old(tokens)[accessId := t] - {prior.accessToken} && outcome.expires == t.expiration
    {
      if current == "" {
        outcome := IssuePair(request, refreshId, accessId, now);
      } else {
        outcome := RenewPair(request, current, refreshId, accessId, now);
      }
    }

    method RevokeToken(token: string, user: string, client: string) returns (outcome: Outcome)
      modifies this`tokens, this`refreshTokens
      ensures (Db(), Done(outcome)) == Steps(old(Db()), 0, Entry(Revoke(token, user, client)), 4)
      ensures token in old(tokens) ==>
        if old(tokens)[token].applicationId == client
        then outcome == RevokedAccess && tokens == old(tokens) - {token} && refreshTokens == old(refreshTokens)
        else outcome == Failed(WrongClient) && Db() == old(Db())
      ensures token !in old(tokens) && token in old(refreshTokens) ==> var row := old(refreshTokens)[token];
        if row.applicationId == client
        then outcome == RevokedRefresh && refreshTokens == old(refreshTokens) - {row.id} && tokens == old(tokens) - {row.accessToken}
        else outcome == Failed(WrongClient) && Db() == old(Db())
      ensures token !in old(tokens) && token !in old(refreshTokens) ==> outcome == RevokedUnknown && Db() == old(Db())
    {
      RevokeSteps(Db(), 0, token, client);
      if token in tokens {
        if tokens[token].applicationId != client {
          return Failed(WrongClient);
        }
        tokens := tokens - {token};
        return RevokedAccess;
      }
      var row := LoadRefreshToken(token);
      if row.None? {
        return RevokedUnknown;
      }
      if row.value.applicationId != client {
        return Failed(WrongClient);
      }
      refreshTokens := refreshTokens - {row.value.id};
      tokens := tokens - {row.value.accessToken};
      return RevokedRefresh;
    }

    method TerminateSession(user: string, client: string)
      modifies this`tokens, this`refreshTokens
      ensures (Db(), Done(Terminated)) == Steps(old(Db()), 0, Entry(Terminate(user, client)), 2)
      ensures forall r :: r in refreshTokens <==>
        r in old(refreshTokens) && !(old(refreshTokens)[r].userId == user && old(refreshTokens)[r].applicationId == client)
      ensures forall a :: a in tokens <==>
        a in old(tokens) && !(old(tokens)[a].subject == user && old(tokens)[a].applicationId == client)
      ensures forall r :: r in refreshTokens ==> refreshTokens[r] == old(refreshTokens)[r]
      ensures forall a :: a in tokens ==> tokens[a] == old(tokens)[a]
    {
      TerminateSteps(Db(), 0, user, client);
      refreshTokens := refreshTokens - RefreshTokensOf(Db(), user, client);
      tokens := tokens - AccessTokensOf(Db(), user, client);
    }
  }
}
