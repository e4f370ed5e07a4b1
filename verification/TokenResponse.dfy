/**
 Reading the answer of the token exchange: its names come in three spellings, its lifetime
 (section 2.2.1 of RFC 8693) may be missing or unusable, and what is read decides how long the
 token is served.
 */
module TokenResponse {
  import opened Options
  import opened TokenCache

  /** A value of the answer. JSON numbers may be fractions and, as the parser reads them, also
      infinite or not a number; lists and objects only matter by whether they are empty. */
  datatype Json =
    | JsonNull
    | JsonBool(flag: bool)
    | JsonInteger(number: int)
    | JsonFraction(fraction: real)
    | JsonInfinite
    | JsonNotANumber
    | JsonText(text: string)
    | JsonCompound(empty: bool)

  type Body = map<string, Json>

  const ACCESS_TOKEN := ["access_token", "accessToken", "AccessToken"]
  const EXPIRES_IN := ["expires_in", "expiresIn", "ExpiresIn"]

  function FirstOf(body: Body, names: seq<string>): Json {
    if names == [] then JsonNull
    else if names[0] in body then body[names[0]]
    else FirstOf(body, names[1..])
  }

  predicate Truthy(v: Json) {
    match v
    case JsonNull => false
    case JsonBool(b) => b
    case JsonInteger(n) => n != 0
    case JsonFraction(r) => r != 0.0
    case JsonInfinite => true
    case JsonNotANumber => true
    case JsonText(t) => t != ""
    case JsonCompound(empty) => !empty
  }

  /** int() of a fraction drops what follows the point. */
  function Truncated(r: real): int {
    if r >= 0.0 then r.Floor else -((-r).Floor)
  }

  /** int(v): a number, an error the reader catches, or one (of an infinite value) it does not. */
  datatype AsInt = Number(n: int) | Refused | Overflow

  /** `parse` stands for the parsing of a number's text. */
  function ToInt(v: Json, parse: string -> Option<int>): AsInt {
    match v
    case JsonBool(b) => Number(if b then 1 else 0)
    case JsonInteger(n) => Number(n)
    case JsonFraction(r) => Number(Truncated(r))
    case JsonInfinite => Overflow
    case JsonText(t) => (match parse(t) case Some(n) => Number(n) case None => Refused)
    case _ => Refused
  }

  /** str(v), with the printing of anything but text left to `show`. */
  function ToText(v: Json, show: Json -> string): string {
    if v.JsonText? then v.text else show(v)
  }

  /** `body` is `None` when it is not JSON. No token comes of an error either: the exchange
      then counts as failed. */
  function ReadToken(body: Option<Body>, now: real, parse: string -> Option<int>, show: Json -> string): Option<Token> {
    if body.None? then None
    else
      var accessToken := FirstOf(body.value, ACCESS_TOKEN);
      if !Truthy(accessToken) then None
      else
        var parsed := ToInt(FirstOf(body.value, EXPIRES_IN), parse);
        if parsed.Overflow? then None
        else
          var expiresIn := if parsed.Refused? then 0 else parsed.n;
          var lifetime := if expiresIn <= 0 then TOKEN_RENEWAL_MARGIN_SECONDS * 2.0 else expiresIn as real;
          Some(Token(ToText(accessToken, show), now + lifetime))
  }

  /** The whole seconds that the answer states, if it states at least one: as a number, a
      fraction cut off at the point, a text that is a number, or a true for one. */
  ghost function Declared(body: Body, parse: string -> Option<int>): Option<int> {
    match LifetimeValue(body)
    case JsonInteger(n) => if n > 0 then Some(n) else None
    case JsonFraction(r) => if r >= 1.0 then Some(r.Floor) else None
    case JsonBool(b) => if b then Some(1) else None
    case JsonText(t) => if parse(t).Some? && parse(t).value > 0 then parse(t) else None
    case _ => None
  }

  lemma {:induction false} FirstOfIs(body: Body, names: seq<string>, k: nat)
    requires k < |names| && names[k] in body && forall j :: 0 <= j < k ==> names[j] !in body
    ensures FirstOf(body, names) == body[names[k]]
  {
    if k > 0 {
      FirstOfIs(body, names[1..], k - 1);
    }
  }

  /** For how long a token that was just read is served from the cache: its stated lifetime
      less the margin, or exactly the margin when none is stated. One stated at no more than
      the margin is never served again, so every caller exchanges anew. */
  lemma ServedFor(body: Body, now: real, when: real, parse: string -> Option<int>, show: Json -> string)
    requires ReadToken(Some(body), now, parse, show).Some?
    ensures var token := ReadToken(Some(body), now, parse, show).value;
            && (Declared(body, parse).None? ==> (token.IsUsable(when) <==> when < now + 60.0))
            && (Declared(body, parse).Some? ==> (token.IsUsable(when) <==> when < now + Declared(body, parse).value as real - 60.0))
            && ((forall t :: t >= now ==> !token.IsUsable(t)) <==> Declared(body, parse).Some? && Declared(body, parse).value <= 60)
  {
    LifetimeIs(body);
    hide FirstOf, LifetimeValue;
    var token := ReadToken(Some(body), now, parse, show).value;
    assert token.IsUsable(now) || forall t :: t >= now ==> !token.IsUsable(t);
  }

  /** The token that an answer names: under the first of three spellings that is there, if any
      is, and it is not empty there. */
  ghost predicate NamesToken(body: Body, v: Json) {
    if "access_token" in body then v == body["access_token"]
    else if "accessToken" in body then v == body["accessToken"]
    else "AccessToken" in body && v == body["AccessToken"]
  }

  lemma FirstOfThree(body: Body, a: string, b: string, c: string)
    ensures FirstOf(body, [a, b, c]) ==
            if a in body then body[a] else if b in body then body[b] else if c in body then body[c] else JsonNull
  {
    assert [a, b, c][1..] == [b, c] && [b, c][1..] == [c];
    assert FirstOf(body, [c]) == if c in body then body[c] else JsonNull by { assert FirstOf(body, []) == JsonNull; }
    assert FirstOf(body, [b, c]) == if b in body then body[b] else FirstOf(body, [c]);
  }

  lemma AccessTokenIs(body: Body)
    ensures FirstOf(body, ACCESS_TOKEN) == JsonNull || NamesToken(body, FirstOf(body, ACCESS_TOKEN))
    ensures forall v :: NamesToken(body, v) ==> FirstOf(body, ACCESS_TOKEN) == v
  {
    FirstOfThree(body, "access_token", "accessToken", "AccessToken");
    hide FirstOf;
  }

  /** The value that states the lifetime: the first of its three spellings. */
  function LifetimeValue(body: Body): Json {
    if "expires_in" in body then body["expires_in"]
    else if "expiresIn" in body then body["expiresIn"]
    else if "ExpiresIn" in body then body["ExpiresIn"] else JsonNull
  }

  lemma LifetimeIs(body: Body)
    ensures FirstOf(body, EXPIRES_IN) == LifetimeValue(body)
  {
    FirstOfThree(body, "expires_in", "expiresIn", "ExpiresIn");
    hide FirstOf;
  }

  /** Which answers hold a token, and which token: a text that is not empty, whatever else the
      answer says, unless its lifetime is infinite; the absent, null, false, zero and empty are
      none, and neither is an answer that is not JSON. */
  lemma TokenIsRead(body: Body, now: real, parse: string -> Option<int>, show: Json -> string, text: string)
    requires NamesToken(body, JsonText(text))
    ensures var r := ReadToken(Some(body), now, parse, show);
            && (r.Some? <==> text != "" && LifetimeValue(body) != JsonInfinite)
            && (r.Some? ==> r.value.accessToken == text)
    ensures ReadToken(None, now, parse, show).None?
  {
    AccessTokenIs(body);
    LifetimeIs(body);
    hide FirstOf, NamesToken, LifetimeValue;
  }

  lemma NoTokenIsRead(body: Body, now: real, parse: string -> Option<int>, show: Json -> string)
    requires forall v :: NamesToken(body, v) ==> v in {JsonNull, JsonBool(false), JsonInteger(0), JsonFraction(0.0), JsonText(""), JsonCompound(true)}
    ensures ReadToken(Some(body), now, parse, show).None?
  {
    AccessTokenIs(body);
    hide FirstOf, NamesToken;
  }
}
