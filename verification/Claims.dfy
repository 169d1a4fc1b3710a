/** The two paths that collect a user's claims: for userinfo and id tokens, and for JWT access
    tokens (internal/storage/storage.go, internal/storage/models.go). */
module Claims {
  import opened Prelude
  import opened Users

  // ---- Conditional claims -----------------------------------------------------------------------

  function ScopeSet(scopes: seq<string>): set<string> {
    set s | s in scopes
  }

  predicate Matches(rule: Rule, client: string, scopes: set<string>) {
    && (rule.clientId == "" || rule.clientId == client)
    && forall s :: s in rule.scopes ==> s in scopes
  }

  /** The claims of all matching rules, later rules over earlier ones; None when no rule matches. */
  function Conditional(rules: seq<Rule>, client: string, scopes: set<string>): Option<Claims> {
    if rules == [] then None
    else
      var earlier := Conditional(rules[..|rules| - 1], client, scopes);
      var last := rules[|rules| - 1];
      if !Matches(last, client, scopes) then earlier
      else Some((if earlier.Some? then earlier.value else map[]) + last.claims)
  }

  /** Rule i is the last matching rule that mentions k. */
  predicate LastMention(rules: seq<Rule>, client: string, scopes: set<string>, k: string, i: nat) {
    && i < |rules| && Matches(rules[i], client, scopes) && k in rules[i].claims
    && forall j :: i < j < |rules| && Matches(rules[j], client, scopes) ==> k !in rules[j].claims
  }

  /** No value at all exactly when no rule matches; otherwise each claim has the value of the last
      matching rule that mentions it, and there are no other claims. */
  lemma {:induction false} ConditionalIsLastMention(rules: seq<Rule>, client: string, scopes: set<string>, k: string)
    ensures var out := Conditional(rules, client, scopes);
      && (out.None? <==> forall i :: 0 <= i < |rules| ==> !Matches(rules[i], client, scopes))
      && (out.Some? && k in out.value <==> exists i: nat :: LastMention(rules, client, scopes, k, i))
      && (forall i: nat :: out.Some? && k in out.value && LastMention(rules, client, scopes, k, i) ==>
            out.value[k] == rules[i].claims[k])
  {
    if rules != [] {
      var n := |rules| - 1;
      var front := rules[..n];
      ConditionalIsLastMention(front, client, scopes, k);
      if Matches(rules[n], client, scopes) && k in rules[n].claims {
        assert LastMention(rules, client, scopes, k, n);
      } else {
        assert forall i: nat :: LastMention(front, client, scopes, k, i) ==> LastMention(rules, client, scopes, k, i);
        assert forall i: nat :: LastMention(rules, client, scopes, k, i) ==> LastMention(front, client, scopes, k, i);
      }
    }
  }

  /** Asking for more scopes never takes a claim name away. */
  lemma {:induction false} MoreScopesMoreClaims(rules: seq<Rule>, client: string, scopes: set<string>, more: set<string>)
    requires scopes <= more
    ensures Conditional(rules, client, scopes).Some? ==>
      Conditional(rules, client, more).Some? &&
      Conditional(rules, client, scopes).value.Keys <= Conditional(rules, client, more).value.Keys
  {
    if rules != [] {
      MoreScopesMoreClaims(rules[..|rules| - 1], client, scopes, more);
    }
  }

  /** Ranging over a Go map visits its keys in any order. */
  method Merge(into: Claims, from: Claims) returns (out: Claims)
    ensures out == into + from
  {
    out := into;
    var left := from.Keys;
    while left != {}
      invariant left <= from.Keys
      invariant out == into + map k | k in from && k !in left :: from[k]
      decreases |left|
    {
      var k :| k in left;
      out := out[k := from[k]];
      left := left - {k};
    }
  }

  /** The same, leaving one reserved key out. */
  method MergeWithout(into: Claims, from: Claims, reserved: string) returns (out: Claims)
    ensures out == into + (from - {reserved})
  {
    out := into;
    var left := from.Keys;
    while left != {}
      invariant left <= from.Keys
      invariant out == into + map k | k in from && k !in left && k != reserved :: from[k]
      decreases |left|
    {
      var k :| k in left;
      left := left - {k};
      if k == reserved {
        continue;
      }
      out := out[k := from[k]];
    }
  }

  method HasAllScopes(have: set<string>, want: seq<string>) returns (all: bool)
    ensures all <==> forall s :: s in want ==> s in have
  {
    for i := 0 to |want|
      invariant forall j :: 0 <= j < i ==> want[j] in have
    {
      if want[i] !in have {
        return false;
      }
    }
    return true;
  }

  method EvaluateConditionalClaims(u: User, client: string, scopes: seq<string>) returns (out: Option<Claims>)
    ensures out == Conditional(u.conditionalClaims, client, ScopeSet(scopes))
    ensures out.None? <==> forall i :: 0 <= i < |u.conditionalClaims| ==> var rule := u.conditionalClaims[i];
      (rule.clientId != "" && rule.clientId != client) || exists s :: s in rule.scopes && s !in scopes
  {
    ConditionalIsLastMention(u.conditionalClaims, client, ScopeSet(scopes), "");
    if |u.conditionalClaims| == 0 {
      return None;
    }
    var scopeSet := {};
    for i := 0 to |scopes|
      invariant scopeSet == ScopeSet(scopes[..i])
    {
      scopeSet := scopeSet + {scopes[i]};
    }
    assert scopes[..|scopes|] == scopes;
    var rules := u.conditionalClaims;
    out := None;
    for i := 0 to |rules|
      invariant out == Conditional(rules[..i], client, scopeSet)
    {
      assert rules[..i + 1][..i] == rules[..i];
      if rules[i].clientId != "" && rules[i].clientId != client {
        continue;
      }
      var all := HasAllScopes(scopeSet, rules[i].scopes);
      if !all {
        continue;
      }
      var merged := Merge(if out.Some? then out.value else map[], rules[i].claims);
      out := Some(merged);
    }
    assert rules[..|rules|] == rules;
    assert forall i :: 0 <= i < |rules| ==> (Matches(rules[i], client, scopeSet) <==>
      (rules[i].clientId == "" || rules[i].clientId == client) && forall s :: s in rules[i].scopes ==> s in scopes);
  }

  // ---- Userinfo -----------------------------------------------------------------------------------

  datatype Address = Address(
    formatted: string, streetAddress: string, locality: string, region: string,
    postalCode: string, country: string)

  datatype UserInfo = UserInfo(
    subject: string, email: string, emailVerified: bool, preferredUsername: string, name: string,
    familyName: string, givenName: string, locale: string, phoneNumber: string,
    phoneNumberVerified: bool, address: Option<Address>, claims: Claims)

  /** The scopes that release standard fields. */
  datatype Standard = OpenId | Email | Profile | Phone | PostalAddress | NotStandard

  function Kind(scope: string): Standard {
    match scope
    case "openid" => OpenId
    case "email" => Email
    case "profile" => Profile
    case "phone" => Phone
    case "address" => PostalAddress
    case _ => NotStandard
  }

  function Kinds(scopes: set<string>): set<Standard> {
    set s | s in scopes :: Kind(s)
  }

  /** The claim reserved for the address scope. */
  const ADDRESS := "address"

  function Text(fields: Claims, k: string): string {
    if k in fields && fields[k].JString? then fields[k].text else ""
  }

  function ToAddress(fields: Claims): Address {
    Address(Text(fields, "formatted"), Text(fields, "street_address"), Text(fields, "locality"),
            Text(fields, "region"), Text(fields, "postal_code"), Text(fields, "country"))
  }

  function JoinName(first: string, last: string): string {
    if first == "" then last else if last == "" then first else first + " " + last
  }

  /** parseTag stands for the library's language tag parser. */
  function LocaleTag(parseTag: string -> Option<string>, s: string): string {
    if s == "" then "en" else match parseTag(s) case Some(t) => t case None => "en"
  }

  function OrEmpty(claims: Option<Claims>): Claims {
    match claims case Some(c) => c case None => map[]
  }

  function WithKind(parseTag: string -> Option<string>, info: UserInfo, u: User, kind: Standard): UserInfo {
    match kind
    case OpenId => info.(subject := u.SubjectOrId())
    case Email => info.(email := u.email, emailVerified := u.emailVerified)
    case Profile =>
      info.(preferredUsername := u.username, name := JoinName(u.firstName, u.lastName),
            familyName := u.lastName, givenName := u.firstName,
            locale := LocaleTag(parseTag, u.preferredLanguage))
    case Phone => info.(phoneNumber := u.phone, phoneNumberVerified := u.phoneVerified)
    case PostalAddress => info.(address := AddressOf(u.claims, info.address))
    case NotStandard => info
  }

  function AddressOf(claims: Claims, otherwise: Option<Address>): Option<Address> {
    if ADDRESS in claims && claims[ADDRESS].JObject? then Some(ToAddress(claims[ADDRESS].fields)) else otherwise
  }

  /** The standard fields that a set of scopes releases; the order of the scopes plays no part. */
  function Released(parseTag: string -> Option<string>, info: UserInfo, u: User, kinds: set<Standard>): UserInfo {
    var email, profile, phone := Email in kinds, Profile in kinds, Phone in kinds;
    info.(
      subject := if OpenId in kinds then u.SubjectOrId() else info.subject,
      email := if email then u.email else info.email,
      emailVerified := if email then u.emailVerified else info.emailVerified,
      preferredUsername := if profile then u.username else info.preferredUsername,
      name := if profile then JoinName(u.firstName, u.lastName) else info.name,
      familyName := if profile then u.lastName else info.familyName,
      givenName := if profile then u.firstName else info.givenName,
      locale := if profile then LocaleTag(parseTag, u.preferredLanguage) else info.locale,
      phoneNumber := if phone then u.phone else info.phoneNumber,
      phoneNumberVerified := if phone then u.phoneVerified else info.phoneNumberVerified,
      address := if PostalAddress in kinds then AddressOf(u.claims, info.address) else info.address)
  }

  lemma ReleaseOne(parseTag: string -> Option<string>, info: UserInfo, u: User, kinds: set<Standard>, kind: Standard)
    ensures WithKind(parseTag, Released(parseTag, info, u, kinds), u, kind) == Released(parseTag, info, u, kinds + {kind})
  {
  }

  /** What the loop over the requested scopes does, one scope after another. */
  function InOrder(parseTag: string -> Option<string>, info: UserInfo, u: User, scopes: seq<string>): UserInfo {
    if scopes == [] then info
    else
      var last := |scopes| - 1;
      WithKind(parseTag, InOrder(parseTag, info, u, scopes[..last]), u, Kind(scopes[last]))
  }

  lemma {:induction false} InOrderReleases(parseTag: string -> Option<string>, info: UserInfo, u: User, scopes: seq<string>)
    ensures InOrder(parseTag, info, u, scopes) == Released(parseTag, info, u, Kinds(ScopeSet(scopes)))
  {
    if scopes != [] {
      var last := |scopes| - 1;
      var front := scopes[..last];
      InOrderReleases(parseTag, info, u, front);
      assert ScopeSet(scopes) == ScopeSet(front) + {scopes[last]};
      KindsOneMore(ScopeSet(front), scopes[last]);
      ReleaseOne(parseTag, info, u, Kinds(ScopeSet(front)), Kind(scopes[last]));
    }
  }

  /** Section 5.4 of OpenID Connect Core 1.0: the order and repetition of scopes play no part. */
  lemma ScopeOrderIsImmaterial(parseTag: string -> Option<string>, info: UserInfo, u: User, a: seq<string>, b: seq<string>)
    requires ScopeSet(a) == ScopeSet(b)
    ensures InOrder(parseTag, info, u, a) == InOrder(parseTag, info, u, b)
  {
    InOrderReleases(parseTag, info, u, a);
    InOrderReleases(parseTag, info, u, b);
  }

  lemma KindsOneMore(scopes: set<string>, scope: string)
    ensures Kinds(scopes + {scope}) == Kinds(scopes) + {Kind(scope)}
  {
    assert scope in scopes + {scope};
  }

  /** The claims asserted beside the standard fields, for a user or for none. */
  function ExtraClaims(u: Option<User>, custom: Option<Claims>, client: string, scopes: set<string>): Claims {
    match u
    case None => OrEmpty(custom)
    case Some(user) =>
      (user.claims - {ADDRESS}) + OrEmpty(Conditional(user.conditionalClaims, client, scopes)) + OrEmpty(custom)
  }

  // ---- What userinfo tells, scope by scope and claim by claim ----------------------------------------

  /** text is the entry k of a JSON object, or empty when that is no string. */
  ghost predicate Reads(fields: Claims, k: string, text: string) {
    if k in fields && fields[k].JString? then text == fields[k].text else text == ""
  }

  ghost predicate ReadsAddress(fields: Claims, a: Address) {
    && Reads(fields, "formatted", a.formatted) && Reads(fields, "street_address", a.streetAddress)
    && Reads(fields, "locality", a.locality) && Reads(fields, "region", a.region)
    && Reads(fields, "postal_code", a.postalCode) && Reads(fields, "country", a.country)
  }

  ghost predicate ProfileTold(parseTag: string -> Option<string>, u: User, info: UserInfo) {
    && info.preferredUsername == u.username && info.givenName == u.firstName && info.familyName == u.lastName
    && (u.firstName == "" ==> info.name == u.lastName)
    && (u.lastName == "" ==> info.name == u.firstName)
    && (u.firstName != "" && u.lastName != "" ==> info.name == u.firstName + " " + u.lastName)
    && (u.preferredLanguage == "" || parseTag(u.preferredLanguage).None? ==> info.locale == "en")
    && (u.preferredLanguage != "" && parseTag(u.preferredLanguage).Some? ==> parseTag(u.preferredLanguage) == Some(info.locale))
  }

  /** Section 5.4 of OpenID Connect Core 1.0: each scope fills in its fields from the user; the fields of
      the other scopes are as they were. */
  ghost predicate FieldsTold(parseTag: string -> Option<string>, start: UserInfo, u: User, scopes: set<string>, info: UserInfo) {
    && (if "openid" in scopes then info.subject == (if u.subject == "" then u.id else u.subject) else info.subject == start.subject)
    && (if "email" in scopes then info.email == u.email && info.emailVerified == u.emailVerified
        else info.email == start.email && info.emailVerified == start.emailVerified)
    && (if "profile" in scopes then ProfileTold(parseTag, u, info)
        else info.preferredUsername == start.preferredUsername && info.name == start.name && info.familyName == start.familyName
             && info.givenName == start.givenName && info.locale == start.locale)
    && (if "phone" in scopes then info.phoneNumber == u.phone && info.phoneNumberVerified == u.phoneVerified
        else info.phoneNumber == start.phoneNumber && info.phoneNumberVerified == start.phoneNumberVerified)
    && (if "address" in scopes && "address" in u.claims && u.claims["address"].JObject?
        then info.address.Some? && ReadsAddress(u.claims["address"].fields, info.address.value)
        else info.address == start.address)
  }

  /** Claim k of userinfo: the client's, else that of the last matching rule, else the user's own but for
      address, else as it was. */
  ghost predicate ClaimTold(start: Claims, u: User, custom: Option<Claims>, client: string, scopes: set<string>, claims: Claims,
                            k: string)
  {
    if custom.Some? && k in custom.value then k in claims && claims[k] == custom.value[k]
    else if i: nat :| LastMention(u.conditionalClaims, client, scopes, k, i) then
      k in claims && claims[k] == u.conditionalClaims[i].claims[k]
    else if k in u.claims && k != "address" then k in claims && claims[k] == u.claims[k]
    else (k in claims <==> k in start) && (k in start ==> claims[k] == start[k])
  }

  /** Without a user: the subject as asked for, and the client's claims. */
  ghost predicate NobodyTold(start: UserInfo, sub: string, custom: Option<Claims>, info: UserInfo) {
    && info == start.(subject := sub, claims := info.claims)
    && (custom.None? ==> info.claims == start.claims)
    && (custom.Some? ==> info.claims == start.claims + custom.value)
  }

  /** What userinfo may tell about a subject. */
  ghost predicate Tells(users: UserTable, parseTag: string -> Option<string>, start: UserInfo, sub: string, custom: Option<Claims>,
                        client: string, scopes: set<string>, info: UserInfo)
  {
    exists u :: Resolves(users, sub, u)
      && (u.None? ==> NobodyTold(start, sub, custom, info))
      && (u.Some? ==> FieldsTold(parseTag, start, u.value, scopes, info))
      && (u.Some? ==> forall k :: ClaimTold(start.claims, u.value, custom, client, scopes, info.claims, k))
  }

  /** The kinds are those of the five scopes. */
  lemma KindsAsked(scopes: set<string>)
    ensures OpenId in Kinds(scopes) <==> "openid" in scopes
    ensures Email in Kinds(scopes) <==> "email" in scopes
    ensures Profile in Kinds(scopes) <==> "profile" in scopes
    ensures Phone in Kinds(scopes) <==> "phone" in scopes
    ensures PostalAddress in Kinds(scopes) <==> "address" in scopes
  {
    assert Kind("openid") == OpenId && Kind("email") == Email && Kind("profile") == Profile;
    assert Kind("phone") == Phone && Kind("address") == PostalAddress;
  }

  lemma ReleasedTells(parseTag: string -> Option<string>, start: UserInfo, u: User, scopes: set<string>)
    ensures FieldsTold(parseTag, start, u, scopes, Released(parseTag, start, u, Kinds(scopes)))
  {
    KindsAsked(scopes);
  }

  lemma ExtraTells(start: Claims, u: User, custom: Option<Claims>, client: string, scopes: set<string>, k: string)
    ensures ClaimTold(start, u, custom, client, scopes, start + ExtraClaims(Some(u), custom, client, scopes), k)
  {
    ConditionalIsLastMention(u.conditionalClaims, client, scopes, k);
  }

  /** The whole userinfo: a function of the resolved user, the client and the set of scopes. */
  function UserinfoOf(parseTag: string -> Option<string>, info: UserInfo, u: Option<User>, sub: string,
                      custom: Option<Claims>, client: string, scopes: set<string>): UserInfo
  {
    var released := match u
      case None => info.(subject := sub)
      case Some(user) => Released(parseTag, info, user, Kinds(scopes));
    released.(claims := info.claims + ExtraClaims(u, custom, client, scopes))
  }

  function PrivateClaims(u: Option<User>, custom: Option<Claims>, client: string, scopes: set<string>): Claims {
    match u
    case None => OrEmpty(custom)
    case Some(user) => user.claims + OrEmpty(Conditional(user.conditionalClaims, client, scopes)) + OrEmpty(custom)
  }

  /** Section 5.4 of OpenID Connect Core 1.0 and the JWT access token agree on every extra claim.
      The one difference: an `address` taken from the user's static claims is kept out of userinfo. */
  lemma PathsAgree(u: Option<User>, custom: Option<Claims>, client: string, scopes: set<string>, k: string)
    ensures var extra := ExtraClaims(u, custom, client, scopes); var private := PrivateClaims(u, custom, client, scopes);
      && (k in extra ==> k in private && private[k] == extra[k])
      && (k in private && k !in extra <==>
            && k == ADDRESS && u.Some? && ADDRESS in u.value.claims
            && ADDRESS !in OrEmpty(Conditional(u.value.conditionalClaims, client, scopes))
            && ADDRESS !in OrEmpty(custom))
  {
  }

  /** info may be the userinfo for a subject, whichever of several rows its lookup picks. */
  ghost predicate UserinfoFor(users: UserTable, parseTag: string -> Option<string>, start: UserInfo, sub: string,
                              custom: Option<Claims>, client: string, scopes: set<string>, info: UserInfo)
  {
    exists u :: Resolves(users, sub, u) && info == UserinfoOf(parseTag, start, u, sub, custom, client, scopes)
  }

  lemma SomeoneTold(parseTag: string -> Option<string>, start: UserInfo, u: User, sub: string, custom: Option<Claims>,
                    client: string, scopes: set<string>)
    ensures var info := UserinfoOf(parseTag, start, Some(u), sub, custom, client, scopes);
      && FieldsTold(parseTag, start, u, scopes, info)
      && info.claims == start.claims + ExtraClaims(Some(u), custom, client, scopes)
  {
    ReleasedTells(parseTag, start, u, scopes);
  }

  lemma SomeoneTells(users: UserTable, parseTag: string -> Option<string>, start: UserInfo, u: User, sub: string,
                     custom: Option<Claims>, client: string, scopes: set<string>)
    requires Resolves(users, sub, Some(u))
    ensures Tells(users, parseTag, start, sub, custom, client, scopes,
                  UserinfoOf(parseTag, start, Some(u), sub, custom, client, scopes))
  {
    var info := UserinfoOf(parseTag, start, Some(u), sub, custom, client, scopes);
    SomeoneTold(parseTag, start, u, sub, custom, client, scopes);
    forall k
      ensures ClaimTold(start.claims, u, custom, client, scopes, info.claims, k)
    {
      ExtraTells(start.claims, u, custom, client, scopes, k);
    }
  }

  lemma NobodyTells(users: UserTable, parseTag: string -> Option<string>, start: UserInfo, sub: string,
                    custom: Option<Claims>, client: string, scopes: set<string>)
    requires Resolves(users, sub, None)
    ensures Tells(users, parseTag, start, sub, custom, client, scopes,
                  UserinfoOf(parseTag, start, None, sub, custom, client, scopes))
  {
    assert NobodyTold(start, sub, custom, UserinfoOf(parseTag, start, None, sub, custom, client, scopes));
  }

  /** Whatever userinfo is given for a subject tells just this. */
  lemma UserinfoTells(users: UserTable, parseTag: string -> Option<string>, start: UserInfo, sub: string, custom: Option<Claims>,
                      client: string, scopes: set<string>, info: UserInfo)
    requires UserinfoFor(users, parseTag, start, sub, custom, client, scopes, info)
    ensures Tells(users, parseTag, start, sub, custom, client, scopes, info)
  {
    var u :| Resolves(users, sub, u) && info == UserinfoOf(parseTag, start, u, sub, custom, client, scopes);
    match u
    case None => NobodyTells(users, parseTag, start, sub, custom, client, scopes);
    case Some(user) => SomeoneTells(users, parseTag, start, user, sub, custom, client, scopes);
  }

  function Reported(claims: Claims): (result: Option<Claims>)
    ensures OrEmpty(result) == claims
    ensures result.None? <==> claims == map[]
  {
    if claims == map[] then None else Some(claims)
  }

  /** The same for the claims of a JWT access token; no claims at all are reported as none. */
  ghost predicate PrivateClaimsFor(users: UserTable, sub: string, custom: Option<Claims>, client: string,
                                   scopes: set<string>, result: Option<Claims>)
  {
    exists u :: Resolves(users, sub, u) && result == Reported(PrivateClaims(u, custom, client, scopes))
  }

  lemma OneRowResolvesOnce(users: UserTable, sub: string, u: Option<User>, v: Option<User>)
    requires forall x, y | x in SubjectRows(users, sub) && y in SubjectRows(users, sub) :: x == y
    requires Resolves(users, sub, u) && Resolves(users, sub, v)
    ensures u == v
  {
  }

  /** The static address claim, unless a conditional or client claim of that name overrides it. */
  function Hidden(u: Option<User>, custom: Option<Claims>, client: string, scopes: set<string>): set<string> {
    match u
    case None => {}
    case Some(user) =>
      if ADDRESS in OrEmpty(Conditional(user.conditionalClaims, client, scopes)) || ADDRESS in OrEmpty(custom) then {}
      else {ADDRESS}
  }

  lemma ExtraIsPrivateButHidden(u: Option<User>, custom: Option<Claims>, client: string, scopes: set<string>)
    ensures ExtraClaims(u, custom, client, scopes) == PrivateClaims(u, custom, client, scopes) - Hidden(u, custom, client, scopes)
  {
  }

  /** The rows a lookup by custom subject may pick from; an empty subject is not looked up. */
  function Candidates(users: UserTable, sub: string): set<string> {
    if sub == "" then {} else SubjectRows(users, sub)
  }

  /** Whatever rows the lookups of the two methods pick, userinfo appends the claims of the JWT access
      token, the reserved address aside. */
  ghost predicate ResultsAlwaysAgree(users: UserTable, parseTag: string -> Option<string>, start: UserInfo, sub: string,
                                     custom: Option<Claims>, client: string, scopes: set<string>)
  {
    forall info, result | UserinfoFor(users, parseTag, start, sub, custom, client, scopes, info)
        && PrivateClaimsFor(users, sub, custom, client, scopes, result) ::
      info.claims - {ADDRESS} == (start.claims + OrEmpty(result)) - {ADDRESS}
  }

  /** What a row makes the methods assert on top of start, the reserved address aside. */
  function Asserted(start: Claims, u: User, custom: Option<Claims>, client: string, scopes: set<string>): Claims {
    (start + PrivateClaims(Some(u), custom, client, scopes)) - {ADDRESS}
  }

  ghost predicate SameAsserted(users: UserTable, start: Claims, sub: string, custom: Option<Claims>, client: string, scopes: set<string>) {
    forall x, y | x in Candidates(users, sub) && y in Candidates(users, sub) ::
      Asserted(start, users[x], custom, client, scopes) == Asserted(start, users[y], custom, client, scopes)
  }

  lemma UserinfoClaims(parseTag: string -> Option<string>, start: UserInfo, u: Option<User>, sub: string,
                       custom: Option<Claims>, client: string, scopes: set<string>)
    ensures UserinfoOf(parseTag, start, u, sub, custom, client, scopes).claims == start.claims + ExtraClaims(u, custom, client, scopes)
  {
  }

  lemma WithoutAddress(start: Claims, u: Option<User>, custom: Option<Claims>, client: string, scopes: set<string>)
    ensures (start + ExtraClaims(u, custom, client, scopes)) - {ADDRESS}
         == (start + PrivateClaims(u, custom, client, scopes)) - {ADDRESS}
  {
  }

  lemma SameAssertedAgree(users: UserTable, parseTag: string -> Option<string>, start: UserInfo, sub: string,
                          custom: Option<Claims>, client: string, scopes: set<string>)
    requires SameAsserted(users, start.claims, sub, custom, client, scopes)
    ensures ResultsAlwaysAgree(users, parseTag, start, sub, custom, client, scopes)
  {
    forall info, result | UserinfoFor(users, parseTag, start, sub, custom, client, scopes, info)
        && PrivateClaimsFor(users, sub, custom, client, scopes, result)
      ensures info.claims - {ADDRESS} == (start.claims + OrEmpty(result)) - {ADDRESS}
    {
      var u :| Resolves(users, sub, u) && info == UserinfoOf(parseTag, start, u, sub, custom, client, scopes);
      var v :| Resolves(users, sub, v) && result == Reported(PrivateClaims(v, custom, client, scopes));
      UserinfoClaims(parseTag, start, u, sub, custom, client, scopes);
      WithoutAddress(start.claims, u, custom, client, scopes);
      PicksAgree(users, start.claims, sub, custom, client, scopes, u, v);
    }
  }

  /** Any two picks assert the same. */
  lemma PicksAgree(users: UserTable, start: Claims, sub: string, custom: Option<Claims>, client: string, scopes: set<string>,
                   u: Option<User>, v: Option<User>)
    requires SameAsserted(users, start, sub, custom, client, scopes) && Resolves(users, sub, u) && Resolves(users, sub, v)
    ensures (start + PrivateClaims(u, custom, client, scopes)) - {ADDRESS} == (start + PrivateClaims(v, custom, client, scopes)) - {ADDRESS}
  {
    if u != v {
      var x :| x in Candidates(users, sub) && u.value == users[x];
      var y :| y in Candidates(users, sub) && v.value == users[y];
      assert Asserted(start, users[x], custom, client, scopes) == Asserted(start, users[y], custom, client, scopes);
    }
  }

  lemma AgreeSameAsserted(users: UserTable, parseTag: string -> Option<string>, start: UserInfo, sub: string,
                          custom: Option<Claims>, client: string, scopes: set<string>, x: string, y: string)
    requires ResultsAlwaysAgree(users, parseTag, start, sub, custom, client, scopes)
    requires x in Candidates(users, sub) && y in Candidates(users, sub)
    ensures Asserted(start.claims, users[x], custom, client, scopes) == Asserted(start.claims, users[y], custom, client, scopes)
  {
    var u, v := Some(users[x]), Some(users[y]);
    assert Resolves(users, sub, u) && Resolves(users, sub, v);
    var info := UserinfoOf(parseTag, start, u, sub, custom, client, scopes);
    var result := Reported(PrivateClaims(v, custom, client, scopes));
    assert UserinfoFor(users, parseTag, start, sub, custom, client, scopes, info);
    assert PrivateClaimsFor(users, sub, custom, client, scopes, result);
    UserinfoClaims(parseTag, start, u, sub, custom, client, scopes);
    WithoutAddress(start.claims, u, custom, client, scopes);
  }

  /** The two methods' results agree on every claim but the reserved address, whichever rows their
      lookups pick, if and only if all rows with that custom subject assert the same claims. */
  lemma ResultsAgreeIff(users: UserTable, parseTag: string -> Option<string>, start: UserInfo, sub: string,
                        custom: Option<Claims>, client: string, scopes: set<string>)
    ensures ResultsAlwaysAgree(users, parseTag, start, sub, custom, client, scopes) <==>
      SameAsserted(users, start.claims, sub, custom, client, scopes)
  {
    if SameAsserted(users, start.claims, sub, custom, client, scopes) {
      SameAssertedAgree(users, parseTag, start, sub, custom, client, scopes);
    }
    if ResultsAlwaysAgree(users, parseTag, start, sub, custom, client, scopes) {
      forall x, y | x in Candidates(users, sub) && y in Candidates(users, sub)
        ensures Asserted(start.claims, users[x], custom, client, scopes) == Asserted(start.claims, users[y], custom, client, scopes)
      {
        AgreeSameAsserted(users, parseTag, start, sub, custom, client, scopes, x, y);
      }
    }
  }

  lemma OneRowSameAsserted(users: UserTable, start: Claims, sub: string, custom: Option<Claims>, client: string, scopes: set<string>)
    requires forall x, y | x in SubjectRows(users, sub) && y in SubjectRows(users, sub) :: x == y
    ensures SameAsserted(users, start, sub, custom, client, scopes)
  {
    forall x, y | x in Candidates(users, sub) && y in Candidates(users, sub)
      ensures Asserted(start, users[x], custom, client, scopes) == Asserted(start, users[y], custom, client, scopes)
    {
      assert x == y;
    }
  }

  /** So they agree whenever at most one row has the subject as its custom subject; the address is then
      missing from userinfo exactly if nothing overrides the user's static one. */
  lemma ResultsAgree(users: UserTable, parseTag: string -> Option<string>, start: UserInfo, sub: string,
                     custom: Option<Claims>, client: string, scopes: set<string>, info: UserInfo, result: Option<Claims>)
    requires forall x, y | x in SubjectRows(users, sub) && y in SubjectRows(users, sub) :: x == y
    requires UserinfoFor(users, parseTag, start, sub, custom, client, scopes, info)
    requires PrivateClaimsFor(users, sub, custom, client, scopes, result)
    ensures ResultsAlwaysAgree(users, parseTag, start, sub, custom, client, scopes)
    ensures exists u | Resolves(users, sub, u) ::
      info.claims == start.claims + (OrEmpty(result) - Hidden(u, custom, client, scopes))
  {
    OneRowSameAsserted(users, start.claims, sub, custom, client, scopes);
    ResultsAgreeIff(users, parseTag, start, sub, custom, client, scopes);
    OneRowAddress(users, parseTag, start, sub, custom, client, scopes, info, result);
  }

  lemma OneRowAddress(users: UserTable, parseTag: string -> Option<string>, start: UserInfo, sub: string,
                      custom: Option<Claims>, client: string, scopes: set<string>, info: UserInfo, result: Option<Claims>)
    requires forall x, y | x in SubjectRows(users, sub) && y in SubjectRows(users, sub) :: x == y
    requires UserinfoFor(users, parseTag, start, sub, custom, client, scopes, info)
    requires PrivateClaimsFor(users, sub, custom, client, scopes, result)
    ensures exists u | Resolves(users, sub, u) ::
      info.claims == start.claims + (OrEmpty(result) - Hidden(u, custom, client, scopes))
  {
    var u :| Resolves(users, sub, u) && info == UserinfoOf(parseTag, start, u, sub, custom, client, scopes);
    var v :| Resolves(users, sub, v) && result == Reported(PrivateClaims(v, custom, client, scopes));
    OneRowResolvesOnce(users, sub, u, v);
    ExtraIsPrivateButHidden(u, custom, client, scopes);
    UserinfoClaims(parseTag, start, u, sub, custom, client, scopes);
  }

  lemma BareClaims(u: User, client: string, scopes: set<string>)
    requires u.conditionalClaims == []
    ensures PrivateClaims(Some(u), None, client, scopes) == u.claims
    ensures ExtraClaims(Some(u), None, client, scopes) == u.claims - {ADDRESS}
  {
  }

  /** Two rows with one custom subject need not agree: the lookups of the two methods may pick different
      rows, and a claim that only one of them has reaches userinfo but not the access token. */
  lemma TwoRowsCanDiffer(x: User, y: User, parseTag: string -> Option<string>, start: UserInfo, client: string,
                         scopes: set<string>, k: string)
    requires x.id != y.id && x.subject == y.subject != "" && k != ADDRESS
    requires k in x.claims && y.claims == map[] && x.conditionalClaims == [] && y.conditionalClaims == []
    ensures var users := map[x.id := x, y.id := y];
      exists info, result :: UserinfoFor(users, parseTag, start, x.subject, None, client, scopes, info)
        && PrivateClaimsFor(users, x.subject, None, client, scopes, result)
        && k in info.claims && result == None
    ensures k !in start.claims ==>
      !ResultsAlwaysAgree(map[x.id := x, y.id := y], parseTag, start, x.subject, None, client, scopes)
  {
    var users := map[x.id := x, y.id := y];
    assert {x.id, y.id} <= Candidates(users, x.subject);
    RowsPickedDifferently(users, x, y, parseTag, start, client, scopes, k);
    if k !in start.claims {
      RowsAssertDifferently(users, x, y, start.claims, client, scopes, k);
      ResultsAgreeIff(users, parseTag, start, x.subject, None, client, scopes);
    }
  }

  lemma RowsPickedDifferently(users: UserTable, x: User, y: User, parseTag: string -> Option<string>, start: UserInfo,
                              client: string, scopes: set<string>, k: string)
    requires {x.id, y.id} <= Candidates(users, x.subject) && users[x.id] == x && users[y.id] == y
    requires k != ADDRESS && k in x.claims && y.claims == map[]
    requires x.conditionalClaims == [] && y.conditionalClaims == []
    ensures exists info, result | UserinfoFor(users, parseTag, start, x.subject, None, client, scopes, info)
        && PrivateClaimsFor(users, x.subject, None, client, scopes, result) :: k in info.claims && result == None
  {
    assert Resolves(users, x.subject, Some(users[x.id])) && Resolves(users, x.subject, Some(users[y.id]));
    var info := UserinfoOf(parseTag, start, Some(x), x.subject, None, client, scopes);
    UserinfoClaims(parseTag, start, Some(x), x.subject, None, client, scopes);
    BareClaims(x, client, scopes);
    BareClaims(y, client, scopes);
    assert UserinfoFor(users, parseTag, start, x.subject, None, client, scopes, info);
    assert None == Reported(PrivateClaims(Some(y), None, client, scopes));
    assert PrivateClaimsFor(users, x.subject, None, client, scopes, None);
  }

  lemma RowsAssertDifferently(users: UserTable, x: User, y: User, start: Claims, client: string, scopes: set<string>, k: string)
    requires {x.id, y.id} <= Candidates(users, x.subject) && users[x.id] == x && users[y.id] == y
    requires k != ADDRESS && k !in start && k in x.claims && y.claims == map[]
    requires x.conditionalClaims == [] && y.conditionalClaims == []
    ensures !SameAsserted(users, start, x.subject, None, client, scopes)
  {
    BareClaims(x, client, scopes);
    BareClaims(y, client, scopes);
    assert k in Asserted(start, users[x.id], None, client, scopes);
    assert k !in Asserted(start, users[y.id], None, client, scopes);
  }

  /** The most specific source wins: the client's claims, then the last matching rule that mentions
      the name, then the user's static claims. */
  lemma ClaimPrecedence(u: User, custom: Option<Claims>, client: string, scopes: set<string>, k: string)
    ensures var private := PrivateClaims(Some(u), custom, client, scopes); var rules := u.conditionalClaims;
      if custom.Some? && k in custom.value then k in private && private[k] == custom.value[k]
      else if i: nat :| LastMention(rules, client, scopes, k, i) then k in private && private[k] == rules[i].claims[k]
      else (k in private <==> k in u.claims) && (k in private ==> private[k] == u.claims[k])
  {
    ConditionalIsLastMention(u.conditionalClaims, client, scopes, k);
  }

  lemma MergeNone(a: Claims)
    ensures map[] + a == a && a + map[] == a
  {
  }

  lemma MergeOrder(start: Claims, a: Claims, b: Claims, c: Claims)
    ensures start + a + b + c == start + (a + b + c)
  {
  }

  /** The loop over the requested scopes. */
  method ReleaseScopes(parseTag: string -> Option<string>, start: UserInfo, u: User, scopes: seq<string>)
    returns (info: UserInfo)
    ensures info == InOrder(parseTag, start, u, scopes)
    ensures info == Released(parseTag, start, u, Kinds(ScopeSet(scopes)))
    ensures FieldsTold(parseTag, start, u, ScopeSet(scopes), info) && info.claims == start.claims
  {
    ReleasedTells(parseTag, start, u, ScopeSet(scopes));
    info := start;
    for i := 0 to |scopes|
      invariant info == InOrder(parseTag, start, u, scopes[..i])
    {
      assert scopes[..i + 1][..i] == scopes[..i];
      info := WithKind(parseTag, info, u, Kind(scopes[i]));
    }
    assert scopes[..|scopes|] == scopes;
    InOrderReleases(parseTag, start, u, scopes);
  }

  class ClaimSource {
    var users: UserStore
    var customClaims: map<string, Claims>    // of the clients, by client id
    const parseTag: string -> Option<string>

    constructor (users: UserStore, parseTag: string -> Option<string>)
      ensures this.users == users && this.customClaims == map[] && this.parseTag == parseTag
    {
      this.users, this.customClaims, this.parseTag := users, map[], parseTag;
    }

    function Custom(client: string): Option<Claims>
      reads this
    {
      if client in customClaims then Some(customClaims[client]) else None
    }

    /** The claims appended to userinfo; address is reserved for its scope. */
    method AppendClaims(start: Claims, u: User, client: string, scopes: seq<string>) returns (claims: Claims)
      ensures claims == start + ExtraClaims(Some(u), Custom(client), client, ScopeSet(scopes))
      ensures forall k :: ClaimTold(start, u, Custom(client), client, ScopeSet(scopes), claims, k)
    {
      forall k
        ensures ClaimTold(start, u, Custom(client), client, ScopeSet(scopes),
                          start + ExtraClaims(Some(u), Custom(client), client, ScopeSet(scopes)), k)
      {
        ExtraTells(start, u, Custom(client), client, ScopeSet(scopes), k);
      }
      claims := MergeWithout(start, u.claims, ADDRESS);
      var conditional := EvaluateConditionalClaims(u, client, scopes);
      claims := Merge(claims, OrEmpty(conditional));
      if client in customClaims {
        claims := Merge(claims, customClaims[client]);
      }
      MergeOrder(start, u.claims - {ADDRESS}, OrEmpty(conditional), OrEmpty(Custom(client)));
    }

    method SetUserinfo(start: UserInfo, sub: string, client: string, scopes: seq<string>) returns (info: UserInfo)
      ensures UserinfoFor(users.users, parseTag, start, sub, Custom(client), client, ScopeSet(scopes), info)
      ensures Tells(users.users, parseTag, start, sub, Custom(client), client, ScopeSet(scopes), info)
    {
      ghost var custom := Custom(client);
      var user := users.GetUserBySubject(sub);
      if user.None? {
        info := start.(subject := sub);
        if client in customClaims {
          var claims := Merge(info.claims, customClaims[client]);
          info := info.(claims := claims);
        }
        assert info == UserinfoOf(parseTag, start, user, sub, Custom(client), client, ScopeSet(scopes));
        UserinfoTells(users.users, parseTag, start, sub, custom, client, ScopeSet(scopes), info);
        return;
      }
      info := ReleaseScopes(parseTag, start, user.value, scopes);
      var claims := AppendClaims(info.claims, user.value, client, scopes);
      info := info.(claims := claims);
      assert info == UserinfoOf(parseTag, start, user, sub, Custom(client), client, ScopeSet(scopes));
      UserinfoTells(users.users, parseTag, start, sub, custom, client, ScopeSet(scopes), info);
    }

    /** What a JWT access token carries, for a user or for none. */
    method CollectClaims(user: Option<User>, client: string, scopes: seq<string>) returns (claims: Claims)
      ensures claims == PrivateClaims(user, Custom(client), client, ScopeSet(scopes))
    {
      claims := map[];
      if user.Some? {
        claims := Merge(claims, user.value.claims);
        var conditional := EvaluateConditionalClaims(user.value, client, scopes);
        claims := Merge(claims, OrEmpty(conditional));
        MergeNone(user.value.claims);
      }
      if client in customClaims {
        claims := Merge(claims, customClaims[client]);
        MergeNone(customClaims[client]);
      }
    }

    method GetPrivateClaimsFromScopes(sub: string, client: string, scopes: seq<string>) returns (result: Option<Claims>)
      ensures PrivateClaimsFor(users.users, sub, Custom(client), client, ScopeSet(scopes), result)
    {
      var user := users.GetUserBySubject(sub);
      var claims := CollectClaims(user, client, scopes);
      return if claims == map[] then None else Some(claims);
    }
  }
}
