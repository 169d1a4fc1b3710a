/** What the userinfo and introspection endpoints answer for an access token
    (internal/storage/storage.go). */
module Userinfo {
  import opened Prelude
  import opened Claims
  import TokenStorage

  /** The token's scopes and client come from its row; subject and client of the userinfo in an
      introspection answer are the caller's. */
  datatype Introspection = Introspection(expiration: Time, info: UserInfo, scopes: seq<string>, clientId: string)

  class TokenInfo {
    const storage: TokenStorage.Storage
    const source: ClaimSource

    constructor (storage: TokenStorage.Storage, source: ClaimSource)
      ensures this.storage == storage && this.source == source
    {
      this.storage, this.source := storage, source;
    }

    method SetUserinfoFromToken(start: UserInfo, id: string, now: Time) returns (info: Option<UserInfo>)
      ensures info.Some? <==> id in storage.tokens && now <= storage.tokens[id].expiration
      ensures info.Some? ==> var row := storage.tokens[id];
        UserinfoFor(source.users.users, source.parseTag, start, row.subject, source.Custom(row.applicationId),
                    row.applicationId, ScopeSet(row.scopes), info.value)
        && Tells(source.users.users, source.parseTag, start, row.subject, source.Custom(row.applicationId),
                 row.applicationId, ScopeSet(row.scopes), info.value)
    {
      if id !in storage.tokens || storage.tokens[id].expiration < now {
        return None;
      }
      var row := storage.tokens[id];
      var result := source.SetUserinfo(start, row.subject, row.applicationId, row.scopes);
      return Some(result);
    }

    /** blank is the userinfo without any field set. */
    method SetIntrospectionFromToken(blank: UserInfo, id: string, subject: string, client: string, now: Time)
      returns (answer: Option<Introspection>)
      ensures answer.Some? <==>
        id in storage.tokens && now <= storage.tokens[id].expiration && client in storage.tokens[id].audience
      ensures answer.Some? ==> var row := storage.tokens[id];
        && answer.value.expiration == row.expiration && answer.value.scopes == row.scopes
        && answer.value.clientId == row.applicationId
        && UserinfoFor(source.users.users, source.parseTag, blank, subject, source.Custom(client), client,
                       ScopeSet(row.scopes), answer.value.info)
        && Tells(source.users.users, source.parseTag, blank, subject, source.Custom(client), client,
                 ScopeSet(row.scopes), answer.value.info)
    {
      if id !in storage.tokens || storage.tokens[id].expiration < now {
        return None;
      }
      var row := storage.tokens[id];
      for i := 0 to |row.audience|
        invariant client !in row.audience[..i]
      {
        if row.audience[i] == client {
          var info := source.SetUserinfo(blank, subject, client, row.scopes);
          return Some(Introspection(row.expiration, info, row.scopes, row.applicationId));
        }
      }
      return None;
    }
  }
}
