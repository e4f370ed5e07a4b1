/**
 The context as it travels on a message: sanitised on the way out, rebuilt on the way in, and
 sanitised again by the next sender. A date travels as its ISO text and the payload as JSON;
 both count as inverse encodings here, so a date is its text and a payload is a map.
 */
module ContextTransport {
  import opened Options

  datatype Context = Context(
    tenantId: string,
    roles: seq<string>,
    userId: string,
    isAuthenticated: bool,
    requestUri: string,
    organizationId: string,
    expireOn: Option<string>,
    email: string,
    permissions: seq<string>,
    userName: string,
    phoneNumber: string,
    displayName: string,
    oauthToken: string,
    originalTenantId: string,
    applicationDomain: string,
    impersonated: bool,
    impersonationSessionId: string,
    clientId: string,
    sessionId: string)

  datatype Value = Null | Text(text: string) | Texts(texts: seq<string>) | Flag(flag: bool)

  type Payload = map<string, Value>

  /** The fields that travel. ImpersonationSessionId does not. */
  datatype Field =
    | TenantId | Roles | UserId | IsAuthenticated | RequestUri | OrganizationId | ExpireOn | Email | Permissions
    | UserName | PhoneNumber | DisplayName | OauthToken | OriginalTenantId | ApplicationDomain | Impersonated
    | ClientId | SessionId

  const TRANSPORT_FIELDS: seq<Field> := [
    TenantId, Roles, UserId, IsAuthenticated, RequestUri, OrganizationId, ExpireOn, Email, Permissions,
    UserName, PhoneNumber, DisplayName, OauthToken, OriginalTenantId, ApplicationDomain, Impersonated,
    ClientId, SessionId]

  function WireName(f: Field): string {
    match f
    case TenantId => "TenantId"
    case Roles => "Roles"
    case UserId => "UserId"
    case IsAuthenticated => "IsAuthenticated"
    case RequestUri => "RequestUri"
    case OrganizationId => "OrganizationId"
    case ExpireOn => "ExpireOn"
    case Email => "Email"
    case Permissions => "Permissions"
    case UserName => "UserName"
    case PhoneNumber => "PhoneNumber"
    case DisplayName => "DisplayName"
    case OauthToken => "OauthToken"
    case OriginalTenantId => "OriginalTenantId"
    case ApplicationDomain => "ApplicationDomain"
    case Impersonated => "Impersonated"
    case ClientId => "ClientId"
    case SessionId => "SessionId"
  }

  function SnakeName(f: Field): string {
    match f
    case TenantId => "tenant_id"
    case Roles => "roles"
    case UserId => "user_id"
    case IsAuthenticated => "is_authenticated"
    case RequestUri => "request_uri"
    case OrganizationId => "organization_id"
    case ExpireOn => "expire_on"
    case Email => "email"
    case Permissions => "permissions"
    case UserName => "user_name"
    case PhoneNumber => "phone_number"
    case DisplayName => "display_name"
    case OauthToken => "oauth_token"
    case OriginalTenantId => "original_tenant_id"
    case ApplicationDomain => "application_domain"
    case Impersonated => "impersonated"
    case ClientId => "client_id"
    case SessionId => "session_id"
  }

  // ---------- on the way out ----------

  function UpToAt(s: string): string {
    if s == [] || s[0] == '@' then [] else [s[0]] + UpToAt(s[1..])
  }

  /** The piece of an address between its first and second at-signs. */
  function Domain(email: string): string
    requires '@' in email
  {
    if email[0] == '@' then UpToAt(email[1..]) else Domain(email[1..])
  }

  function MaskEmail(email: string): string {
    if '@' !in email then "***" else "***@" + Domain(email)
  }

  function LastFour(s: string): string {
    if |s| <= 4 then s else s[|s| - 4..]
  }

  function MaskPhone(phone: string): string {
    if phone == "" || phone == "***" then "***" else "***" + LastFour(phone)
  }

  /** The value a context sends under a field's name. */
  function Sent(c: Context, f: Field): Value {
    match f
    case TenantId => Text(c.tenantId)
    case Roles => Texts(c.roles)
    case UserId => Text(c.userId)
    case IsAuthenticated => Flag(c.isAuthenticated)
    case RequestUri => Text(c.requestUri)
    case OrganizationId => Text(c.organizationId)
    case ExpireOn => if c.expireOn.Some? then Text(c.expireOn.value) else Null
    case Email => Text(MaskEmail(c.email))
    case Permissions => Texts(c.permissions)
    case UserName => Text(c.userName)
    case PhoneNumber => Text(MaskPhone(c.phoneNumber))
    case DisplayName => Text(c.displayName)
    case OauthToken => Text("")
    case OriginalTenantId => Text(if c.originalTenantId != "" then c.originalTenantId else c.tenantId)
    case ApplicationDomain => Text(c.applicationDomain)
    case Impersonated => Flag(c.impersonated)
    case ClientId => Text(c.clientId)
    case SessionId => Text(c.sessionId)
  }

  /** Puts values under the names of the fields, in order. */
  function Under(name: Field -> string, value: Field -> Value, fields: seq<Field>): Payload {
    if fields == [] then map[]
    else Under(name, value, fields[..|fields| - 1])[name(fields[|fields| - 1]) := value(fields[|fields| - 1])]
  }

  function CreateSanitizedForTransport(context: Option<Context>): Payload {
    match context
    case None => map[]
    case Some(c) => Under(WireName, f => Sent(c, f), TRANSPORT_FIELDS)
  }

  // ---------- on the way in ----------

  /** What the payload has for a field: under its wire name, else under its snake_case one. */
  function Found(payload: Payload, f: Field): Option<Value> {
    if WireName(f) in payload then Some(payload[WireName(f)])
    else if SnakeName(f) in payload then Some(payload[SnakeName(f)])
    else None
  }

  /** Rebuilding fails when a value is not of its field's type. */
  datatype Restored = Nothing | Rebuilt(context: Context) | Invalid

  predicate TypeOk(f: Field, v: Value) {
    match f
    case Roles => v.Texts?
    case Permissions => v.Texts?
    case IsAuthenticated => v.Flag?
    case Impersonated => v.Flag?
    case _ => v.Text?
  }

  /** A missing or null value leaves the field's default. */
  predicate Given(values: map<Field, Value>, f: Field) {
    f in values && !values[f].Null?
  }

  function TextOf(values: map<Field, Value>, f: Field): string {
    if Given(values, f) && values[f].Text? then values[f].text else ""
  }

  function TextsOf(values: map<Field, Value>, f: Field): seq<string> {
    if Given(values, f) && values[f].Texts? then values[f].texts else []
  }

  function FlagOf(values: map<Field, Value>, f: Field): bool {
    Given(values, f) && values[f].Flag? && values[f].flag
  }

  function Build(values: map<Field, Value>): Restored {
    if exists f :: f in values && Given(values, f) && !TypeOk(f, values[f]) then Invalid
    else Rebuilt(Context(
      TextOf(values, TenantId), TextsOf(values, Roles), TextOf(values, UserId), FlagOf(values, IsAuthenticated),
      TextOf(values, RequestUri), TextOf(values, OrganizationId),
      if Given(values, ExpireOn) then Some(TextOf(values, ExpireOn)) else None,
      TextOf(values, Email), TextsOf(values, Permissions), TextOf(values, UserName), TextOf(values, PhoneNumber),
      TextOf(values, DisplayName), TextOf(values, OauthToken), TextOf(values, OriginalTenantId),
      TextOf(values, ApplicationDomain), FlagOf(values, Impersonated), "", TextOf(values, ClientId), TextOf(values, SessionId)))
  }

  function ValuesOf(payload: Payload): map<Field, Value> {
    map f: Field | f in TRANSPORT_FIELDS && Found(payload, f).Some? :: Found(payload, f).value
  }

  function FromTransport(payload: Payload): Restored {
    if payload == map[] then Nothing else Build(ValuesOf(payload))
  }

  lemma AllFieldsTravel(f: Field)
    ensures f in TRANSPORT_FIELDS
  {
    match f
    case TenantId => assert TRANSPORT_FIELDS[0] == f;
    case Roles => assert TRANSPORT_FIELDS[1] == f;
    case UserId => assert TRANSPORT_FIELDS[2] == f;
    case IsAuthenticated => assert TRANSPORT_FIELDS[3] == f;
    case RequestUri => assert TRANSPORT_FIELDS[4] == f;
    case OrganizationId => assert TRANSPORT_FIELDS[5] == f;
    case ExpireOn => assert TRANSPORT_FIELDS[6] == f;
    case Email => assert TRANSPORT_FIELDS[7] == f;
    case Permissions => assert TRANSPORT_FIELDS[8] == f;
    case UserName => assert TRANSPORT_FIELDS[9] == f;
    case PhoneNumber => assert TRANSPORT_FIELDS[10] == f;
    case DisplayName => assert TRANSPORT_FIELDS[11] == f;
    case OauthToken => assert TRANSPORT_FIELDS[12] == f;
    case OriginalTenantId => assert TRANSPORT_FIELDS[13] == f;
    case ApplicationDomain => assert TRANSPORT_FIELDS[14] == f;
    case Impersonated => assert TRANSPORT_FIELDS[15] == f;
    case ClientId => assert TRANSPORT_FIELDS[16] == f;
    case SessionId => assert TRANSPORT_FIELDS[17] == f;
  }

  // ---------- the names tell the fields apart ----------

  /** The only field whose name can have this length and these first letters. */
  function WireGuess(s: string): Field {
    if |s| < 5 then TenantId
    else match |s|
      case 5 => if s[0] == 'R' then Roles else Email
      case 6 => UserId
      case 8 => if s[0] == 'T' then TenantId else if s[0] == 'E' then ExpireOn else if s[0] == 'U' then UserName else ClientId
      case 9 => SessionId
      case 10 => if s[0] == 'R' then RequestUri else OauthToken
      case 11 => if s[0] == 'D' then DisplayName else if s[1] == 'e' then Permissions else PhoneNumber
      case 12 => Impersonated
      case 14 => OrganizationId
      case 15 => IsAuthenticated
      case 16 => OriginalTenantId
      case _ => ApplicationDomain
  }

  function SnakeGuess(s: string): Field {
    if |s| < 5 then TenantId
    else match |s|
      case 5 => if s[0] == 'r' then Roles else Email
      case 7 => UserId
      case 9 => if s[0] == 't' then TenantId else if s[0] == 'e' then ExpireOn else if s[0] == 'u' then UserName else ClientId
      case 10 => SessionId
      case 11 => if s[0] == 'r' then RequestUri else if s[0] == 'o' then OauthToken else Permissions
      case 12 => if s[0] == 'p' then PhoneNumber else if s[0] == 'd' then DisplayName else Impersonated
      case 15 => OrganizationId
      case 16 => IsAuthenticated
      case _ => if s[0] == 'o' then OriginalTenantId else ApplicationDomain
  }

  lemma WireNameTold(f: Field)
    ensures WireGuess(WireName(f)) == f && |WireName(f)| > 0 && 'A' <= WireName(f)[0] <= 'Z'
  {
  }

  lemma SnakeNameTold(f: Field)
    ensures SnakeGuess(SnakeName(f)) == f && |SnakeName(f)| > 0 && 'a' <= SnakeName(f)[0] <= 'z'
  {
  }

  /** No two fields share a name, in either spelling or across the two. */
  lemma NamesDiffer(f: Field, g: Field)
    ensures WireName(f) == WireName(g) ==> f == g
    ensures SnakeName(f) == SnakeName(g) ==> f == g
    ensures WireName(f) != SnakeName(g)
  {
    WireNameTold(f);
    WireNameTold(g);
    SnakeNameTold(f);
    SnakeNameTold(g);
    hide WireName, SnakeName, WireGuess, SnakeGuess;
  }

  // ---------- one hop ----------

  lemma {:induction false} UnderHolds(name: Field -> string, value: Field -> Value, fields: seq<Field>)
    requires forall f, g :: name(f) == name(g) ==> f == g
    ensures var payload := Under(name, value, fields);
            && (forall f :: f in fields ==> name(f) in payload && payload[name(f)] == value(f))
            && (forall key :: key in payload ==> exists f :: f in fields && name(f) == key)
    decreases |fields|
  {
    if fields != [] {
      UnderHolds(name, value, fields[..|fields| - 1]);
      assert fields == fields[..|fields| - 1] + [fields[|fields| - 1]];
    }
  }

  /** Every field is found, with this value. */
  ghost predicate Carries(payload: Payload, c: Context) {
    payload != map[] && forall f :: Found(payload, f) == Some(Sent(c, f))
  }

  lemma SanitizedCarries(c: Context)
    ensures Carries(CreateSanitizedForTransport(Some(c)), c)
  {
    hide WireName, SnakeName, Sent;
    forall f, g | WireName(f) == WireName(g) ensures f == g {
      NamesDiffer(f, g);
    }
    UnderHolds(WireName, f => Sent(c, f), TRANSPORT_FIELDS);
    forall f ensures Found(CreateSanitizedForTransport(Some(c)), f) == Some(Sent(c, f)) {
      AllFieldsTravel(f);
    }
    assert Found(CreateSanitizedForTransport(Some(c)), TenantId).Some?;
  }

  lemma Travels(c: Context, f: Field)
    ensures WireName(f) in CreateSanitizedForTransport(Some(c))
    ensures CreateSanitizedForTransport(Some(c))[WireName(f)] == Sent(c, f)
  {
    hide Under, WireName, SnakeName, Sent;
    forall g, h | WireName(g) == WireName(h) ensures g == h {
      NamesDiffer(g, h);
    }
    AllFieldsTravel(f);
    UnderHolds(WireName, f => Sent(c, f), TRANSPORT_FIELDS);
  }

  /** Who a message speaks for, key for key, as services in another language read it. */
  lemma WireIdentity(c: Context)
    ensures var payload := CreateSanitizedForTransport(Some(c));
            && "TenantId" in payload && payload["TenantId"] == Text(c.tenantId)
            && "UserId" in payload && payload["UserId"] == Text(c.userId)
            && "OrganizationId" in payload && payload["OrganizationId"] == Text(c.organizationId)
            && "ClientId" in payload && payload["ClientId"] == Text(c.clientId)
            && "SessionId" in payload && payload["SessionId"] == Text(c.sessionId)
            && "Roles" in payload && payload["Roles"] == Texts(c.roles)
            && "Permissions" in payload && payload["Permissions"] == Texts(c.permissions)
            && "IsAuthenticated" in payload && payload["IsAuthenticated"] == Flag(c.isAuthenticated)
            && "OriginalTenantId" in payload
            && payload["OriginalTenantId"] == Text(if c.originalTenantId != "" then c.originalTenantId else c.tenantId)
  {
    hide CreateSanitizedForTransport;
    Travels(c, TenantId);
    Travels(c, UserId);
    Travels(c, OrganizationId);
    Travels(c, ClientId);
    Travels(c, SessionId);
    Travels(c, Roles);
    Travels(c, Permissions);
    Travels(c, IsAuthenticated);
    Travels(c, OriginalTenantId);
  }

  /** And the rest of it, with the token blanked. */
  lemma WireDetails(c: Context)
    ensures var payload := CreateSanitizedForTransport(Some(c));
            && "RequestUri" in payload && payload["RequestUri"] == Text(c.requestUri)
            && "ExpireOn" in payload && payload["ExpireOn"] == (if c.expireOn.Some? then Text(c.expireOn.value) else Null)
            && "Email" in payload && payload["Email"] == Text(MaskEmail(c.email))
            && "UserName" in payload && payload["UserName"] == Text(c.userName)
            && "PhoneNumber" in payload && payload["PhoneNumber"] == Text(MaskPhone(c.phoneNumber))
            && "DisplayName" in payload && payload["DisplayName"] == Text(c.displayName)
            && "OauthToken" in payload && payload["OauthToken"] == Text("")
            && "ApplicationDomain" in payload && payload["ApplicationDomain"] == Text(c.applicationDomain)
            && "Impersonated" in payload && payload["Impersonated"] == Flag(c.impersonated)
  {
    hide CreateSanitizedForTransport, MaskEmail, MaskPhone;
    Travels(c, RequestUri);
    Travels(c, ExpireOn);
    Travels(c, Email);
    Travels(c, UserName);
    Travels(c, PhoneNumber);
    Travels(c, DisplayName);
    Travels(c, OauthToken);
    Travels(c, ApplicationDomain);
    Travels(c, Impersonated);
  }

  /** The context as it is at the other end of one hop. */
  function Hop(c: Context): Context {
    c.(email := MaskEmail(c.email),
       phoneNumber := MaskPhone(c.phoneNumber),
       oauthToken := "",
       originalTenantId := if c.originalTenantId != "" then c.originalTenantId else c.tenantId,
       impersonationSessionId := "")
  }

  lemma ValuesOfCarried(payload: Payload, c: Context, f: Field)
    requires Carries(payload, c)
    ensures f in ValuesOf(payload) && ValuesOf(payload)[f] == Sent(c, f)
  {
    hide Sent, WireName, SnakeName;
    AllFieldsTravel(f);
    assert Found(payload, f) == Some(Sent(c, f));
  }

  lemma NothingInvalid(values: map<Field, Value>, c: Context, f: Field)
    requires f in values && values[f] == Sent(c, f)
    ensures Given(values, f) ==> TypeOk(f, values[f])
  {
    hide MaskEmail, MaskPhone;
  }

  lemma TextReads(values: map<Field, Value>, f: Field, t: string)
    requires f in values && values[f] == Text(t)
    ensures Given(values, f) && TextOf(values, f) == t
  {
  }

  lemma TextsRead(values: map<Field, Value>, f: Field, ts: seq<string>)
    requires f in values && values[f] == Texts(ts)
    ensures TextsOf(values, f) == ts
  {
  }

  lemma FlagReads(values: map<Field, Value>, f: Field, b: bool)
    requires f in values && values[f] == Flag(b)
    ensures FlagOf(values, f) == b
  {
  }

  lemma WhoReads(values: map<Field, Value>, c: Context)
    requires forall f :: f in values && values[f] == Sent(c, f)
    ensures TextOf(values, TenantId) == c.tenantId
    ensures TextOf(values, UserId) == c.userId
    ensures TextOf(values, RequestUri) == c.requestUri
    ensures TextOf(values, OrganizationId) == c.organizationId
    ensures TextOf(values, ClientId) == c.clientId
    ensures TextOf(values, SessionId) == c.sessionId
  {
    hide MaskEmail, MaskPhone, TextOf;
    TextReads(values, TenantId, c.tenantId);
    TextReads(values, UserId, c.userId);
    TextReads(values, RequestUri, c.requestUri);
    TextReads(values, OrganizationId, c.organizationId);
    TextReads(values, ClientId, c.clientId);
    TextReads(values, SessionId, c.sessionId);
  }

  lemma RestReads(values: map<Field, Value>, c: Context)
    requires forall f :: f in values && values[f] == Sent(c, f)
    ensures TextOf(values, Email) == MaskEmail(c.email)
    ensures TextOf(values, UserName) == c.userName
    ensures TextOf(values, PhoneNumber) == MaskPhone(c.phoneNumber)
    ensures TextOf(values, DisplayName) == c.displayName
    ensures TextOf(values, OauthToken) == ""
    ensures TextOf(values, OriginalTenantId) == (if c.originalTenantId != "" then c.originalTenantId else c.tenantId)
    ensures TextOf(values, ApplicationDomain) == c.applicationDomain
  {
    hide MaskEmail, MaskPhone, TextOf;
    TextReads(values, Email, MaskEmail(c.email));
    TextReads(values, UserName, c.userName);
    TextReads(values, PhoneNumber, MaskPhone(c.phoneNumber));
    TextReads(values, DisplayName, c.displayName);
    TextReads(values, OauthToken, "");
    TextReads(values, OriginalTenantId, if c.originalTenantId != "" then c.originalTenantId else c.tenantId);
    TextReads(values, ApplicationDomain, c.applicationDomain);
  }

  lemma ListsAndFlagsRead(values: map<Field, Value>, c: Context)
    requires forall f :: f in values && values[f] == Sent(c, f)
    ensures TextsOf(values, Roles) == c.roles && TextsOf(values, Permissions) == c.permissions
    ensures FlagOf(values, IsAuthenticated) == c.isAuthenticated && FlagOf(values, Impersonated) == c.impersonated
    ensures c.expireOn == if Given(values, ExpireOn) then Some(TextOf(values, ExpireOn)) else None
  {
    hide MaskEmail, MaskPhone, TextOf, TextsOf, FlagOf, Given;
    TextsRead(values, Roles, c.roles);
    TextsRead(values, Permissions, c.permissions);
    FlagReads(values, IsAuthenticated, c.isAuthenticated);
    FlagReads(values, Impersonated, c.impersonated);
    ExpiryReads(values, c.expireOn);
  }

  lemma SentIsRebuilt(values: map<Field, Value>, c: Context)
    requires forall f :: f in values && values[f] == Sent(c, f)
    ensures Build(values) == Rebuilt(Hop(c))
  {
    hide MaskEmail, MaskPhone, Given, TypeOk, TextOf, TextsOf, FlagOf, Sent;
    forall f ensures !(f in values && Given(values, f) && !TypeOk(f, values[f])) {
      NothingInvalid(values, c, f);
    }
    WhoReads(values, c);
    RestReads(values, c);
    ListsAndFlagsRead(values, c);
  }

  lemma ExpiryReads(values: map<Field, Value>, expireOn: Option<string>)
    requires ExpireOn in values && values[ExpireOn] == if expireOn.Some? then Text(expireOn.value) else Null
    ensures expireOn == if Given(values, ExpireOn) then Some(TextOf(values, ExpireOn)) else None
  {
  }

  /** Whatever spelling each name has, and whatever else the payload holds, the context that
      is rebuilt is the one that was sent, but for what sanitising took from it. */
  lemma CarriedIsRebuilt(payload: Payload, c: Context)
    requires Carries(payload, c)
    ensures FromTransport(payload) == Rebuilt(Hop(c))
  {
    hide Build, Hop, Sent;
    forall f ensures f in ValuesOf(payload) && ValuesOf(payload)[f] == Sent(c, f) {
      ValuesOfCarried(payload, c, f);
    }
    SentIsRebuilt(ValuesOf(payload), c);
  }

  lemma SanitizeThenRestore(c: Context)
    ensures FromTransport(CreateSanitizedForTransport(Some(c))) == Rebuilt(Hop(c))
  {
    SanitizedCarries(c);
    CarriedIsRebuilt(CreateSanitizedForTransport(Some(c)), c);
  }

  /** Without a context nothing travels, and nothing is restored from that. */
  lemma NoContextTravels()
    ensures FromTransport(CreateSanitizedForTransport(None)) == Nothing
  {
  }

  /** A payload from before the wire names, all in snake_case, restores the same context. */
  lemma SnakeCaseRestoresTheSame(c: Context)
    ensures FromTransport(Under(SnakeName, f => Sent(c, f), TRANSPORT_FIELDS)) == FromTransport(CreateSanitizedForTransport(Some(c)))
  {
    hide WireName, SnakeName, Sent;
    var payload := Under(SnakeName, f => Sent(c, f), TRANSPORT_FIELDS);
    forall f, g ensures SnakeName(f) == SnakeName(g) ==> f == g {
      NamesDiffer(f, g);
    }
    UnderHolds(SnakeName, f => Sent(c, f), TRANSPORT_FIELDS);
    forall f ensures Found(payload, f) == Some(Sent(c, f)) {
      AllFieldsTravel(f);
      if WireName(f) in payload {
        var g :| g in TRANSPORT_FIELDS && SnakeName(g) == WireName(f);
        NamesDiffer(f, g);
        assert false;
      }
    }
    assert Found(payload, TenantId).Some?;
    CarriedIsRebuilt(payload, c);
    SanitizeThenRestore(c);
  }

  /** A key that is no field's name changes nothing, not even by its type. */
  lemma UnknownKeysAreIgnored(payload: Payload, key: string, value: Value)
    requires payload != map[] && forall f :: key != WireName(f) && key != SnakeName(f)
    ensures FromTransport(payload[key := value]) == FromTransport(payload)
  {
    hide WireName, SnakeName, Build;
    forall f ensures Found(payload[key := value], f) == Found(payload, f) {
    }
    assert ValuesOf(payload[key := value]) == ValuesOf(payload);
    assert payload[key := value] != map[] by { assert key in payload[key := value]; }
  }

  /** What a payload says under a name's two spellings, the first one having the last word. */
  function Pick(payload: Payload, wire: string, snake: string): Value {
    if wire in payload then payload[wire] else if snake in payload then payload[snake] else Null
  }

  function TextIn(v: Value): string {
    if v.Text? then v.text else ""
  }

  function TextsIn(v: Value): seq<string> {
    if v.Texts? then v.texts else []
  }

  lemma FieldReads(payload: Payload, f: Field)
    ensures var v, values := Pick(payload, WireName(f), SnakeName(f)), ValuesOf(payload);
            && TextOf(values, f) == TextIn(v) && TextsOf(values, f) == TextsIn(v) && (FlagOf(values, f) <==> v.Flag? && v.flag)
            && (Given(values, f) <==> !v.Null?) && (Given(values, f) ==> values[f] == v)
  {
    hide WireName, SnakeName;
    AllFieldsTravel(f);
  }

  /** Who a rebuilt context is, key by key, for any payload at all. */
  lemma RebuiltIdentity(payload: Payload)
    requires FromTransport(payload).Rebuilt?
    ensures var c := FromTransport(payload).context;
            && c.tenantId == TextIn(Pick(payload, "TenantId", "tenant_id"))
            && c.userId == TextIn(Pick(payload, "UserId", "user_id"))
            && c.organizationId == TextIn(Pick(payload, "OrganizationId", "organization_id"))
            && c.clientId == TextIn(Pick(payload, "ClientId", "client_id"))
            && c.sessionId == TextIn(Pick(payload, "SessionId", "session_id"))
            && c.originalTenantId == TextIn(Pick(payload, "OriginalTenantId", "original_tenant_id"))
            && c.roles == TextsIn(Pick(payload, "Roles", "roles"))
            && c.permissions == TextsIn(Pick(payload, "Permissions", "permissions"))
            && c.isAuthenticated == (Pick(payload, "IsAuthenticated", "is_authenticated") == Flag(true))
            && c.impersonationSessionId == ""
  {
    FieldReads(payload, TenantId);
    FieldReads(payload, UserId);
    FieldReads(payload, OrganizationId);
    FieldReads(payload, ClientId);
    FieldReads(payload, SessionId);
    FieldReads(payload, OriginalTenantId);
    FieldReads(payload, Roles);
    FieldReads(payload, Permissions);
    FieldReads(payload, IsAuthenticated);
    hide ValuesOf, TextOf, TextsOf, FlagOf, Given, TypeOk, Pick;
  }

  /** And the rest of it. */
  lemma RebuiltDetails(payload: Payload)
    requires FromTransport(payload).Rebuilt?
    ensures var c := FromTransport(payload).context;
            && c.requestUri == TextIn(Pick(payload, "RequestUri", "request_uri"))
            && c.email == TextIn(Pick(payload, "Email", "email"))
            && c.userName == TextIn(Pick(payload, "UserName", "user_name"))
            && c.phoneNumber == TextIn(Pick(payload, "PhoneNumber", "phone_number"))
            && c.displayName == TextIn(Pick(payload, "DisplayName", "display_name"))
            && c.oauthToken == TextIn(Pick(payload, "OauthToken", "oauth_token"))
            && c.applicationDomain == TextIn(Pick(payload, "ApplicationDomain", "application_domain"))
            && c.impersonated == (Pick(payload, "Impersonated", "impersonated") == Flag(true))
            && c.expireOn == (if Pick(payload, "ExpireOn", "expire_on").Null? then None else Some(TextIn(Pick(payload, "ExpireOn", "expire_on"))))
  {
    FieldReads(payload, RequestUri);
    FieldReads(payload, Email);
    FieldReads(payload, UserName);
    FieldReads(payload, PhoneNumber);
    FieldReads(payload, DisplayName);
    FieldReads(payload, OauthToken);
    FieldReads(payload, ApplicationDomain);
    FieldReads(payload, Impersonated);
    FieldReads(payload, ExpireOn);
    hide ValuesOf, TextOf, TextsOf, FlagOf, Given, TypeOk, Pick;
  }

  /** An empty payload restores nothing; any other a context, unless a field's value is there
      and of another type than the field. */
  lemma RestoredOrNot(payload: Payload)
    ensures FromTransport(payload).Nothing? <==> payload == map[]
    ensures FromTransport(payload).Invalid? <==>
              payload != map[] && exists f :: var v := Pick(payload, WireName(f), SnakeName(f)); !v.Null? && !TypeOk(f, v)
  {
    forall f
      ensures var v := Pick(payload, WireName(f), SnakeName(f));
              (Given(ValuesOf(payload), f) <==> !v.Null?) && (Given(ValuesOf(payload), f) ==> ValuesOf(payload)[f] == v)
    {
      FieldReads(payload, f);
    }
    hide ValuesOf, TypeOk, Pick, WireName, SnakeName;
  }

  // ---------- many hops ----------

  lemma {:induction false} UpToAtHasNone(s: string)
    ensures '@' !in UpToAt(s)
    ensures '@' !in s ==> UpToAt(s) == s
  {
    if s != [] && s[0] != '@' {
      UpToAtHasNone(s[1..]);
      assert s == [s[0]] + s[1..];
    }
  }

  lemma {:induction false} DomainHasNoAt(email: string)
    requires '@' in email
    ensures '@' !in Domain(email)
  {
    if email[0] == '@' {
      UpToAtHasNone(email[1..]);
    } else {
      DomainHasNoAt(email[1..]);
    }
  }

  lemma {:induction false} DomainSkips(prefix: string, rest: string)
    requires '@' !in prefix
    ensures '@' in prefix + "@" + rest && Domain(prefix + "@" + rest) == UpToAt(rest)
  {
    var email := prefix + "@" + rest;
    assert email[|prefix|] == '@';
    if prefix == [] {
      assert email[1..] == rest;
    } else {
      assert email[1..] == prefix[1..] + "@" + rest;
      DomainSkips(prefix[1..], rest);
    }
  }

  lemma MaskEmailTwice(email: string)
    ensures MaskEmail(MaskEmail(email)) == MaskEmail(email)
  {
    if '@' in email {
      var domain := Domain(email);
      DomainHasNoAt(email);
      UpToAtHasNone(domain);
      DomainSkips("***", domain);
      assert "***@" + domain == "***" + "@" + domain;
    }
  }

  predicate ShortPhone(phone: string) {
    1 <= |phone| <= 3 && phone != "***"
  }

  lemma MaskPhoneTwice(phone: string)
    ensures MaskPhone(MaskPhone(phone)) == MaskPhone(phone) <==> !ShortPhone(phone)
    ensures MaskPhone(MaskPhone(MaskPhone(phone))) == MaskPhone(MaskPhone(phone))
  {
    var once := MaskPhone(phone);
    var twice := MaskPhone(once);
    if phone != "" && phone != "***" {
      assert |once| == 3 + |LastFour(phone)| && once[3..] == LastFour(phone);
      assert twice == "***" + once[|once| - 4..];
      if |phone| >= 4 {
        assert once[|once| - 4..] == LastFour(phone);
      } else {
        assert |twice| == 7 && |once| < 7;
      }
      assert twice[|twice| - 4..] == once[|once| - 4..];
    }
  }

  /** Of an address only the domain travels: whatever stood before the first at-sign is
      replaced by three asterisks, and a text without one altogether. */
  lemma EmailHidesTheRest(before: string, domain: string, rest: string)
    requires '@' !in before && '@' !in domain && (rest == "" || rest[0] == '@')
    ensures MaskEmail(before + "@" + domain + rest) == "***@" + domain
    ensures MaskEmail(before) == "***"
  {
    assert before + "@" + domain + rest == before + "@" + (domain + rest);
    DomainSkips(before, domain + rest);
    UpToAtStops(domain, rest);
  }

  lemma {:induction false} UpToAtStops(domain: string, rest: string)
    requires '@' !in domain && (rest == "" || rest[0] == '@')
    ensures UpToAt(domain + rest) == domain
  {
    if domain == [] {
      assert domain + rest == rest;
    } else {
      assert (domain + rest)[1..] == domain[1..] + rest;
      UpToAtStops(domain[1..], rest);
    }
  }

  /** Of a phone number only the last four characters travel, or all of a shorter one. */
  lemma PhoneShowsTheEnd(before: string, end: string)
    ensures |end| == 4 ==> MaskPhone(before + end) == "***" + end
    ensures 1 <= |end| <= 3 && end != "***" ==> MaskPhone(end) == "***" + end
    ensures MaskPhone("") == "***" && MaskPhone("***") == "***"
  {
    if |end| == 4 {
      assert (before + end)[|before + end| - 4..] == end;
    }
  }

  /** What arrives after `n` hops, each sanitising and rebuilding. */
  function Journey(c: Context, n: nat): Restored {
    if n == 0 then Rebuilt(c)
    else match Journey(c, n - 1)
      case Rebuilt(d) => FromTransport(CreateSanitizedForTransport(Some(d)))
      case r => r
  }

  function Hops(c: Context, n: nat): Context {
    if n == 0 then c else Hop(Hops(c, n - 1))
  }

  lemma {:induction false} JourneyIsHops(c: Context, n: nat)
    ensures Journey(c, n) == Rebuilt(Hops(c, n))
  {
    hide FromTransport, CreateSanitizedForTransport, Hop;
    if n > 0 {
      JourneyIsHops(c, n - 1);
      SanitizeThenRestore(Hops(c, n - 1));
    }
  }

  /** What is sent on hop `n + 1`. */
  function Wire(c: Context, n: nat): Payload {
    match Journey(c, n)
    case Rebuilt(d) => CreateSanitizedForTransport(Some(d))
    case _ => map[]
  }

  lemma SameWireIff(c: Context, d: Context)
    ensures CreateSanitizedForTransport(Some(c)) == CreateSanitizedForTransport(Some(d)) <==> forall f :: Sent(c, f) == Sent(d, f)
  {
    hide Sent, WireName, SnakeName;
    var p, q := CreateSanitizedForTransport(Some(c)), CreateSanitizedForTransport(Some(d));
    SanitizedCarries(c);
    SanitizedCarries(d);
    if p == q {
      forall f ensures Sent(c, f) == Sent(d, f) {
        assert Found(p, f) == Some(Sent(c, f)) && Found(q, f) == Some(Sent(d, f));
      }
    } else if forall f :: Sent(c, f) == Sent(d, f) {
      UnderSame(WireName, f => Sent(c, f), f => Sent(d, f), TRANSPORT_FIELDS);
    }
  }

  lemma {:induction false} UnderSame(name: Field -> string, v: Field -> Value, w: Field -> Value, fields: seq<Field>)
    requires forall f :: v(f) == w(f)
    ensures Under(name, v, fields) == Under(name, w, fields)
    decreases |fields|
  {
    if fields != [] {
      UnderSame(name, v, w, fields[..|fields| - 1]);
    }
  }

  lemma ThirdHopIsNone(c: Context)
    ensures Hop(Hop(Hop(c))) == Hop(Hop(c))
  {
    MaskEmailTwice(c.email);
    MaskPhoneTwice(c.phoneNumber);
    hide MaskEmail, MaskPhone;
  }

  /** From the second hop on a context no longer changes. */
  lemma {:induction false} HopsSettle(c: Context, n: nat)
    requires n >= 2
    ensures Hops(c, n) == Hop(Hop(c))
  {
    hide Hop;
    if n == 2 {
      assert Hops(c, 1) == Hop(Hops(c, 0));
    } else {
      HopsSettle(c, n - 1);
      ThirdHopIsNone(c);
    }
  }

  lemma SentSettles(c: Context)
    ensures forall f :: Sent(Hop(Hop(c)), f) == Sent(Hop(c), f)
    ensures (forall f :: Sent(Hop(c), f) == Sent(c, f)) <==> !ShortPhone(c.phoneNumber)
  {
    MaskEmailTwice(c.email);
    MaskPhoneTwice(c.phoneNumber);
    hide MaskEmail, MaskPhone, ShortPhone;
    assert Sent(Hop(c), PhoneNumber) == Sent(c, PhoneNumber) <==> !ShortPhone(c.phoneNumber);
    assert forall f :: f != PhoneNumber ==> Sent(Hop(c), f) == Sent(c, f);
  }

  lemma WireOf(c: Context, n: nat)
    ensures Wire(c, n) == CreateSanitizedForTransport(Some(Hops(c, n)))
  {
    hide CreateSanitizedForTransport, Hops;
    JourneyIsHops(c, n);
  }

  /** The wire form is fixed from the second sanitising on, for every context, and from the
      first on if and only if the phone number does not have one to three characters other
      than three asterisks. */
  lemma WireSettles(c: Context, n: nat)
    requires n >= 1
    ensures Wire(c, n) == Wire(c, 1)
    ensures Wire(c, n) == Wire(c, 0) <==> !ShortPhone(c.phoneNumber)
  {
    hide CreateSanitizedForTransport, Wire, Sent, Hop, ShortPhone;
    WireOf(c, n);
    WireOf(c, 1);
    WireOf(c, 0);
    SentSettles(c);
    assert Hops(c, 1) == Hop(Hops(c, 0));
    if n >= 2 {
      HopsSettle(c, n);
      SameWireIff(Hop(Hop(c)), Hop(c));
    }
    SameWireIff(Hop(c), c);
  }

  /** Who the context speaks for, and with what rights, is the same after any number of hops. */
  lemma {:induction false} IdentityTravels(c: Context, n: nat)
    ensures Journey(c, n).Rebuilt?
    ensures var d := Journey(c, n).context;
            && d.tenantId == c.tenantId && d.userId == c.userId && d.roles == c.roles && d.permissions == c.permissions
            && d.organizationId == c.organizationId && d.clientId == c.clientId && d.sessionId == c.sessionId
            && d.isAuthenticated == c.isAuthenticated && d.expireOn == c.expireOn
            && d.requestUri == c.requestUri && d.userName == c.userName && d.displayName == c.displayName
            && d.applicationDomain == c.applicationDomain && d.impersonated == c.impersonated
            && (n > 0 ==>
                  && d.oauthToken == "" && d.impersonationSessionId == "" && d.email == MaskEmail(c.email)
                  && d.originalTenantId == (if c.originalTenantId != "" then c.originalTenantId else c.tenantId)
                  && d.phoneNumber == if n == 1 then MaskPhone(c.phoneNumber) else MaskPhone(MaskPhone(c.phoneNumber)))
  {
    JourneyIsHops(c, n);
    HopsKeepIdentity(c, n);
  }

  lemma {:induction false} HopsKeepIdentity(c: Context, n: nat)
    ensures var d := Hops(c, n);
            && d.tenantId == c.tenantId && d.userId == c.userId && d.roles == c.roles && d.permissions == c.permissions
            && d.organizationId == c.organizationId && d.clientId == c.clientId && d.sessionId == c.sessionId
            && d.isAuthenticated == c.isAuthenticated && d.expireOn == c.expireOn
            && d.requestUri == c.requestUri && d.userName == c.userName && d.displayName == c.displayName
            && d.applicationDomain == c.applicationDomain && d.impersonated == c.impersonated
            && (n > 0 ==>
                  && d.oauthToken == "" && d.impersonationSessionId == "" && d.email == MaskEmail(c.email)
                  && d.originalTenantId == (if c.originalTenantId != "" then c.originalTenantId else c.tenantId)
                  && d.phoneNumber == if n == 1 then MaskPhone(c.phoneNumber) else MaskPhone(MaskPhone(c.phoneNumber)))
  {
    hide MaskEmail, MaskPhone;
    if n > 0 {
      HopsKeepIdentity(c, n - 1);
      MaskEmailTwice(c.email);
      MaskPhoneTwice(c.phoneNumber);
    }
  }

  method CollectValues(payload: Payload, fields: seq<Field>) returns (values: map<Field, Value>)
    ensures values == map f: Field | f in fields && Found(payload, f).Some? :: Found(payload, f).value
  {
    hide WireName, SnakeName;
    values := map[];
    for k := 0 to |fields|
      invariant forall f :: f in values <==> f in fields[..k] && Found(payload, f).Some?
      invariant forall f :: f in values ==> values[f] == Found(payload, f).value
    {
      var field := fields[k];
      assert fields[..k + 1] == fields[..k] + [field];
      if WireName(field) in payload {
        values := values[field := payload[WireName(field)]];
      } else if SnakeName(field) in payload {
        values := values[field := payload[SnakeName(field)]];
      }
    }
    assert fields[..|fields|] == fields;
  }

  /** from_transport: the table is walked once, each name tried in its two spellings. */
  method RestoreFromTransport(payload: Payload) returns (r: Restored)
    ensures r == FromTransport(payload)
  {
    hide Found, Build;
    if payload == map[] {
      return Nothing;
    }
    var values := CollectValues(payload, TRANSPORT_FIELDS);
    r := Build(values);
  }
}
