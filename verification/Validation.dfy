/**
 What a routed token is validated with: the `iss` and `aud` read from it before anything is
 checked, the options the decoder is given for the selected provider, and the key chosen by
 the provider's configured algorithms.
 */
module Validation {
  import opened Options
  import opened Text
  import opened Algorithms
  import opened Selection

  // ---------- routing and the decoder's checks ----------

  /** A member of an audience list; nothing in a token forces it to be a string. */
  datatype Member = Name(name: string) | NotText

  /** The audience claim: absent, one string, or a list (section 4.1.3 of RFC 7519). */
  datatype Audience = NoAudience | One(name: string) | Many(members: seq<Member>)

  datatype Claims = Claims(iss: Option<string>, aud: Audience)

  datatype Routing = Routing(issuer: string, audiences: seq<string>)

  function NamesOf(members: seq<Member>): (r: seq<string>)
    ensures forall n :: n in r <==> Name(n) in members
  {
    if members == [] then []
    else if members[0].Name? then [members[0].name] + NamesOf(members[1..]) else NamesOf(members[1..])
  }

  /** A missing or empty claim routes like an absent one, and a member that is no string like
      none at all: it is in no provider's audience list. */
  function ReadTokenRouting(claims: Claims): Routing {
    Routing(
      if claims.iss.None? then "" else claims.iss.value,
      match claims.aud
      case NoAudience => []
      case One(name) => if name == "" then [] else [name]
      case Many(members) => NamesOf(members))
  }

  datatype DecodeOptions = DecodeOptions(
    algorithms: seq<string>,
    issuer: Option<string>,
    audience: Option<seq<string>>,
    verifyIss: bool,
    verifyAud: bool)

  function OptionsFor(p: Provider): DecodeOptions {
    DecodeOptions(
      ToWireNames(p.algorithms),
      if p.issuer == "" then None else Some(p.issuer),
      if p.audiences == [] then None else Some(p.audiences),
      p.issuer != "",
      p.audiences != [])
  }

  /** The decoder's issuer check: the claim must be there and equal. */
  predicate IssuerCheck(o: DecodeOptions, claims: Claims) {
    o.verifyIss && o.issuer.Some? ==> claims.iss == o.issuer
  }

  /** The decoder's audience check: with nothing expected there must be no audience, else the
      claim must be there, name strings only, and share one with what is expected. */
  predicate AudienceCheck(o: DecodeOptions, claims: Claims) {
    o.verifyAud ==>
      match o.audience
      case None => claims.aud.NoAudience? || claims.aud == One("") || claims.aud == Many([])
      case Some(expected) =>
        match claims.aud
        case NoAudience => false
        case One(name) => name != "" && name in expected
        case Many(members) => NotText !in members && exists a :: Name(a) in members && a in expected
  }

  /** The token's issuer is this provider's: the very same text, or neither has any. */
  predicate Belongs(p: Provider, claims: Claims) {
    if claims.iss.Some? && !IsBlank(claims.iss.value) then p.issuer == claims.iss.value else IsBlank(p.issuer)
  }

  /** The provider checks no audience, or the token names one of its own. */
  predicate Accepts(p: Provider, claims: Claims) {
    || p.audiences == []
    || match claims.aud
       case NoAudience => false
       case One(name) => name != "" && name in p.audiences
       case Many(members) => exists a :: a in p.audiences && Name(a) in members
  }

  lemma EligibleMeans(p: Provider, claims: Claims)
    ensures var r := ReadTokenRouting(claims); Eligible(p, r.issuer, r.audiences) <==> Belongs(p, claims) && Accepts(p, claims)
  {
    hide IsSpace;
  }

  /** The provider for a token, from its claims: the one that the token belongs to and that
      accepts it, if there is only one such, and otherwise the first such that the request's
      header names. */
  lemma ProviderForToken(ps: seq<Provider>, claims: Claims, headerKey: Option<string>, p: Provider)
    ensures var r := ReadTokenRouting(claims);
            Select(ps, r.issuer, r.audiences, headerKey).provider == Some(p) <==>
            exists i :: 0 <= i < |ps| && ps[i] == p && Belongs(p, claims) && Accepts(p, claims)
                        && (|| (forall j :: 0 <= j < |ps| && Belongs(ps[j], claims) && Accepts(ps[j], claims) ==> j == i)
                            || (Named(p, headerKey)
                                && forall j :: 0 <= j < i && Belongs(ps[j], claims) && Accepts(ps[j], claims) ==> !Named(ps[j], headerKey)))
  {
    var r := ReadTokenRouting(claims);
    SelectedIffChosen(ps, r.issuer, r.audiences, headerKey, p);
    forall q ensures Eligible(q, r.issuer, r.audiences) <==> Belongs(q, claims) && Accepts(q, claims) {
      EligibleMeans(q, claims);
    }
    hide Select, Eligible, Belongs, Accepts, Named, ReadTokenRouting;
    forall i | 0 <= i < |ps| && ps[i] == p
      ensures Chosen(ps, r.issuer, r.audiences, headerKey, i) <==>
                && Belongs(p, claims) && Accepts(p, claims)
                && (|| (forall j :: 0 <= j < |ps| && Belongs(ps[j], claims) && Accepts(ps[j], claims) ==> j == i)
                    || (Named(p, headerKey)
                        && forall j :: 0 <= j < i && Belongs(ps[j], claims) && Accepts(ps[j], claims) ==> !Named(ps[j], headerKey)))
    {
    }
  }

  /** Whatever the token, the options make the decoder insist on a provider's issuer and
      audiences whenever it has any. */
  lemma OptionsInsist(p: Provider, claims: Claims)
    ensures IssuerCheck(OptionsFor(p), claims) <==> p.issuer == "" || claims.iss == Some(p.issuer)
    ensures AudienceCheck(OptionsFor(p), claims) <==>
              || p.audiences == []
              || (Accepts(p, claims) && (claims.aud.Many? ==> NotText !in claims.aud.members))
  {
    hide ToWireNames;
  }

  /** A selected provider's audience check is satisfied by the token routed to it except
      exactly when the provider checks audiences and the token's list holds something other
      than strings; its issuer check fails exactly for a provider whose issuer is whitespace
      but not empty, when the token does not carry that very whitespace. */
  lemma SelectionAgreesWithChecks(ps: seq<Provider>, claims: Claims, headerKey: Option<string>, p: Provider)
    requires var r := ReadTokenRouting(claims); Select(ps, r.issuer, r.audiences, headerKey).provider == Some(p)
    ensures AudienceCheck(OptionsFor(p), claims) <==> !(p.audiences != [] && claims.aud.Many? && NotText in claims.aud.members)
    ensures IssuerCheck(OptionsFor(p), claims) <==> !(p.issuer != "" && IsBlank(p.issuer) && claims.iss != Some(p.issuer))
  {
    var r := ReadTokenRouting(claims);
    SelectedIffChosen(ps, r.issuer, r.audiences, headerKey, p);
    assert Eligible(p, r.issuer, r.audiences);
    hide Select, ToWireNames, IsSpace;
    if p.audiences != [] {
      var a :| a in r.audiences && a in p.audiences;
    }
  }

  /** A provider configured with a single blank as its issuer is selected for every token
      without an issuer, and then refuses it. */
  lemma BlankIssuerIsSelectedThenRefused(p: Provider)
    requires p.issuer == " " && p.audiences == []
    ensures var claims := Claims(None, NoAudience);
            var r := ReadTokenRouting(claims);
            && Select([p], r.issuer, r.audiences, None).provider == Some(p)
            && !IssuerCheck(OptionsFor(p), claims)
  {
    var f := (q: Provider) => IsBlank(q.issuer);
    assert Filter([p], f) == [p] by { assert [p][1..] == []; }
    assert Filter([p], q => AudienceMatches(q, [])) == [p] by { assert [p][1..] == []; }
  }

  /** A token with one fitting audience and a number beside it is routed to the provider that
      names the audience, and then refused by it. */
  lemma MixedAudienceIsSelectedThenRefused(p: Provider)
    requires p.issuer == "" && p.audiences == ["api"]
    ensures var claims := Claims(None, Many([Name("api"), NotText]));
            var r := ReadTokenRouting(claims);
            && Select([p], r.issuer, r.audiences, None).provider == Some(p)
            && !AudienceCheck(OptionsFor(p), claims)
  {
    var claims := Claims(None, Many([Name("api"), NotText]));
    var audiences := ReadTokenRouting(claims).audiences;
    assert Name("api") in claims.aud.members && "api" in audiences;
    assert Filter([p], (q: Provider) => IsBlank(q.issuer)) == [p] by { assert [p][1..] == []; }
    assert AudienceMatches(p, audiences);
    assert Filter([p], q => AudienceMatches(q, audiences)) == [p] by { assert [p][1..] == []; }
    assert [Name("api"), NotText][1] == NotText;
  }

  // ---------- the key ----------

  datatype Key =
    | SharedSecret(plaintext: string)
    | JwksKey(key: string)
    | CertificateKey(pem: string)

  /** What the world answers: the tenant's salt, how a cipher decrypts under it, the key the
      JWKS holds for the token, and the key read from the certificate with a passphrase. */
  datatype World = World(
    tenantSalt: string,
    decrypt: string -> string,
    jwks: Option<string>,
    certificate: Option<string> -> Option<string>)

  function DecryptProviderSecret(w: World, cipher: string): Option<string> {
    if w.tenantSalt == "" then None
    else if w.decrypt(cipher) == "" then None
    else Some(w.decrypt(cipher))
  }

  function ResolveCertificateKey(w: World, p: Provider): Option<Key> {
    var password := if p.publicCertificatePasswordCipher == "" then None
                    else DecryptProviderSecret(w, p.publicCertificatePasswordCipher);
    if p.publicCertificatePasswordCipher != "" && password.None? then None
    else match w.certificate(password) case None => None case Some(pem) => Some(CertificateKey(pem))
  }

  function ResolveProviderKey(w: World, p: Provider): Option<Key> {
    if !IsSingleKeySource(p.algorithms) then None
    else if IsSymmetric(p.algorithms[0]) then
      if p.signingSecretCipher == "" then None
      else match DecryptProviderSecret(w, p.signingSecretCipher) case None => None case Some(s) => Some(SharedSecret(s))
    else if p.jwksUrl != "" then
      match w.jwks case None => None case Some(k) => Some(JwksKey(k))
    else if p.publicCertificatePath != "" then ResolveCertificateKey(w, p)
    else None
  }

  /** Whenever a key is resolved, the accepted algorithm names are there, are exactly the
      configured ones, and are MACs if and only if the key is the decrypted secret: a public
      key is never offered to a MAC algorithm, nor the secret to a signature algorithm. */
  lemma KeyKindMatchesAlgorithms(w: World, p: Provider)
    requires ResolveProviderKey(w, p).Some?
    ensures var names := OptionsFor(p).algorithms;
            && names != [] && ExactNames(p.algorithms, names)
            && (forall a :: a in p.algorithms ==> WireName(a) in names)
            && forall n :: n in names ==> (IsHmacName(n) <==> ResolveProviderKey(w, p).value.SharedSecret?)
  {
    WireNamesAreExact(p.algorithms);
    NamesShareFamily(p.algorithms);
    hide ToWireNames, WireName, IsHmacName;
  }

  /** When a key is found and which: for MACs the secret, decrypted, when the tenant has a salt
      and the cipher yields text; otherwise the key of the JWKS when one is configured, whether
      or not it can be had; else that of the certificate, opened with its decrypted passphrase
      when it has one. Without a single key source there is none. */
  lemma KeyIs(w: World, p: Provider)
    ensures var named := p.algorithms != [] && forall a :: a in p.algorithms ==> WireName(a) != "";
            var macs := forall a :: a in p.algorithms ==> IsHmacName(WireName(a));
            var signatures := forall a :: a in p.algorithms ==> !IsHmacName(WireName(a));
            ResolveProviderKey(w, p) ==
              if named && macs then
                (if p.signingSecretCipher != "" && w.tenantSalt != "" && w.decrypt(p.signingSecretCipher) != ""
                 then Some(SharedSecret(w.decrypt(p.signingSecretCipher))) else None)
              else if named && signatures then
                (if p.jwksUrl != "" then (if w.jwks.Some? then Some(JwksKey(w.jwks.value)) else None)
                 else if p.publicCertificatePath != "" then CertificateKeyOf(w, p) else None)
              else None
  {
    SingleKeySourceMeans(p.algorithms);
    if p.algorithms != [] {
      WireNamesDiffer(p.algorithms[0], p.algorithms[0]);
    }
    CertificateKeyIs(w, p);
    hide WireName, IsHmacName, IsSymmetric, IsSingleKeySource, ResolveCertificateKey, CertificateKeyOf;
  }

  /** The certificate's key: read without a passphrase when none is stored, else with the
      decrypted one, which must be there. */
  ghost function CertificateKeyOf(w: World, p: Provider): Option<Key> {
    var passphrase := if p.publicCertificatePasswordCipher == "" then None else Some(w.decrypt(p.publicCertificatePasswordCipher));
    if p.publicCertificatePasswordCipher != "" && (w.tenantSalt == "" || passphrase == Some("")) then None
    else if w.certificate(passphrase).Some? then Some(CertificateKey(w.certificate(passphrase).value)) else None
  }

  lemma CertificateKeyIs(w: World, p: Provider)
    ensures ResolveCertificateKey(w, p) == CertificateKeyOf(w, p)
  {
  }
}
