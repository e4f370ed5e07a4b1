/**
 Which of a tenant's identity providers a token belongs to, and the checks the token is then
 put through: routing by `iss` and `aud` (sections 4.1.1 and 4.1.3 of RFC 7519), then by the
 request header; the key, and the algorithms accepted with it.
 */
module Selection {
  import opened Options
  import opened Text
  import opened Algorithms

  datatype Provider = Provider(
    key: string,
    issuer: string,
    audiences: seq<string>,
    algorithms: seq<Algorithm>,
    jwksUrl: string,
    publicCertificatePath: string,
    publicCertificatePasswordCipher: string,
    signingSecretCipher: string)

  datatype Outcome =
    | Selected
    | NoProviders
    | IssuerUnmatched
    | AudienceUnmatched
    | AmbiguousNoHeader
    | AmbiguousHeaderUnmatched
    | IssuerAbsentUnmatched

  datatype Result = Result(provider: Option<Provider>, outcome: Outcome, candidateCount: nat)

  // ---------- the algorithm ----------

  function Filter(ps: seq<Provider>, f: Provider -> bool): seq<Provider> {
    if ps == [] then []
    else if f(ps[0]) then [ps[0]] + Filter(ps[1..], f) else Filter(ps[1..], f)
  }

  predicate AudienceMatches(p: Provider, audiences: seq<string>) {
    p.audiences == [] || (audiences != [] && exists a :: a in audiences && a in p.audiences)
  }

  function FirstNamed(ps: seq<Provider>, key: string): Option<Provider> {
    if ps == [] then None else if ps[0].key == key then Some(ps[0]) else FirstNamed(ps[1..], key)
  }

  /** The lane's candidates reduced to one, by the header where the audience leaves several. */
  function Decide(lane: seq<Provider>, candidates: seq<Provider>, headerKey: Option<string>): Result {
    if candidates == [] then Result(None, AudienceUnmatched, |lane|)
    else if |candidates| == 1 then Result(Some(candidates[0]), Selected, 1)
    else if headerKey.None? || IsBlank(headerKey.value) then Result(None, AmbiguousNoHeader, |candidates|)
    else
      match FirstNamed(candidates, headerKey.value)
      case None => Result(None, AmbiguousHeaderUnmatched, |candidates|)
      case Some(p) => Result(Some(p), Selected, |candidates|)
  }

  function Narrow(matched: seq<Provider>, audiences: seq<string>, headerKey: Option<string>): Result {
    Decide(matched, Filter(matched, p => AudienceMatches(p, audiences)), headerKey)
  }

  function Select(ps: seq<Provider>, issuer: string, audiences: seq<string>, headerKey: Option<string>): Result {
    if ps == [] then Result(None, NoProviders, 0)
    else if IsBlank(issuer) then
      var issuerless := Filter(ps, (p: Provider) => IsBlank(p.issuer));
      if issuerless == [] then Result(None, IssuerAbsentUnmatched, 0) else Narrow(issuerless, audiences, headerKey)
    else
      var byIssuer := Filter(ps, (p: Provider) => p.issuer == issuer);
      if byIssuer == [] then Result(None, IssuerUnmatched, 0) else Narrow(byIssuer, audiences, headerKey)
  }

  // ---------- what it is meant to do ----------

  /** The provider belongs to the token's issuer. */
  predicate InLane(p: Provider, issuer: string) {
    if IsBlank(issuer) then IsBlank(p.issuer) else p.issuer == issuer
  }

  predicate Eligible(p: Provider, issuer: string, audiences: seq<string>) {
    InLane(p, issuer) && (p.audiences == [] || exists a :: a in audiences && a in p.audiences)
  }

  /** The request's header names this provider. */
  predicate Named(p: Provider, headerKey: Option<string>) {
    headerKey.Some? && !IsBlank(headerKey.value) && p.key == headerKey.value
  }

  /** Entry `i` of the list is the one to choose: it is eligible, and it is the only eligible
      entry or the first eligible one the header names. */
  ghost predicate Chosen(ps: seq<Provider>, issuer: string, audiences: seq<string>, headerKey: Option<string>, i: nat)
    requires i < |ps|
  {
    && Eligible(ps[i], issuer, audiences)
    && (|| (forall j :: 0 <= j < |ps| && Eligible(ps[j], issuer, audiences) ==> j == i)
        || (Named(ps[i], headerKey) && forall j :: 0 <= j < i && Eligible(ps[j], issuer, audiences) ==> !Named(ps[j], headerKey)))
  }

  lemma {:induction false} FilterHolds(ps: seq<Provider>, f: Provider -> bool)
    ensures forall p :: p in Filter(ps, f) <==> p in ps && f(p)
    ensures |Filter(ps, f)| <= |ps|
  {
    if ps != [] {
      FilterHolds(ps[1..], f);
      assert ps == [ps[0]] + ps[1..];
    }
  }

  lemma {:induction false} FilterTwice(ps: seq<Provider>, f: Provider -> bool, g: Provider -> bool, h: Provider -> bool)
    requires forall p :: h(p) <==> f(p) && g(p)
    ensures Filter(Filter(ps, f), g) == Filter(ps, h)
  {
    if ps != [] {
      FilterTwice(ps[1..], f, g, h);
    }
  }

  lemma {:induction false} FilterSame(ps: seq<Provider>, f: Provider -> bool, g: Provider -> bool)
    requires forall p :: f(p) == g(p)
    ensures Filter(ps, f) == Filter(ps, g)
  {
    if ps != [] {
      FilterSame(ps[1..], f, g);
    }
  }

  lemma {:induction false} FilterConcat(a: seq<Provider>, b: seq<Provider>, f: Provider -> bool)
    ensures Filter(a + b, f) == Filter(a, f) + Filter(b, f)
  {
    if a == [] {
      assert a + b == b;
    } else {
      FilterConcat(a[1..], b, f);
      assert (a + b)[1..] == a[1..] + b;
    }
  }

  function Lane(ps: seq<Provider>, issuer: string): seq<Provider> {
    Filter(ps, p => InLane(p, issuer))
  }

  function Candidates(ps: seq<Provider>, issuer: string, audiences: seq<string>): seq<Provider> {
    Filter(ps, p => Eligible(p, issuer, audiences))
  }

  lemma SelectDecides(ps: seq<Provider>, issuer: string, audiences: seq<string>, headerKey: Option<string>)
    ensures Select(ps, issuer, audiences, headerKey) ==
            if ps == [] then Result(None, NoProviders, 0)
            else if Lane(ps, issuer) == [] then Result(None, if IsBlank(issuer) then IssuerAbsentUnmatched else IssuerUnmatched, 0)
            else Decide(Lane(ps, issuer), Candidates(ps, issuer, audiences), headerKey)
  {
    FilterTwice(ps, p => InLane(p, issuer), p => AudienceMatches(p, audiences), p => Eligible(p, issuer, audiences));
    if IsBlank(issuer) {
      FilterSame(ps, p => InLane(p, issuer), (p: Provider) => IsBlank(p.issuer));
    } else {
      FilterSame(ps, p => InLane(p, issuer), (p: Provider) => p.issuer == issuer);
    }
  }

  // ---------- selection meets its specification ----------

  lemma {:induction false} FilterNone(ps: seq<Provider>, f: Provider -> bool)
    requires forall j :: 0 <= j < |ps| ==> !f(ps[j])
    ensures Filter(ps, f) == []
  {
    if ps != [] {
      FilterNone(ps[1..], f);
    }
  }

  lemma {:induction false} FilterOnly(ps: seq<Provider>, f: Provider -> bool, i: nat)
    requires i < |ps| && f(ps[i]) && forall j :: 0 <= j < |ps| && f(ps[j]) ==> j == i
    ensures Filter(ps, f) == [ps[i]]
  {
    if i == 0 {
      forall j | 0 <= j < |ps[1..]| ensures !f(ps[1..][j]) {
        assert ps[1..][j] == ps[j + 1];
      }
      FilterNone(ps[1..], f);
    } else {
      forall j | 0 <= j < |ps[1..]| && f(ps[1..][j]) ensures j == i - 1 {
        assert f(ps[j + 1]);
      }
      FilterOnly(ps[1..], f, i - 1);
    }
  }

  /** A filter that leaves one entry: where that entry is. */
  lemma {:induction false} FilterOne(ps: seq<Provider>, f: Provider -> bool) returns (i: nat)
    requires |Filter(ps, f)| == 1
    ensures i < |ps| && Filter(ps, f) == [ps[i]] && f(ps[i]) && forall j :: 0 <= j < |ps| && f(ps[j]) ==> j == i
  {
    if f(ps[0]) {
      i := 0;
      FilterHolds(ps[1..], f);
      forall j | 0 < j < |ps| ensures !f(ps[j]) {
        assert ps[j] == ps[1..][j - 1];
      }
    } else {
      var k := FilterOne(ps[1..], f);
      i := k + 1;
      forall j | 0 <= j < |ps| && f(ps[j]) ensures j == i {
        assert j > 0 && ps[j] == ps[1..][j - 1];
      }
    }
  }

  /** Entry `i` is the first that passes the filter and has the key. */
  ghost predicate IsFirst(ps: seq<Provider>, f: Provider -> bool, key: string, i: nat)
    requires i < |ps|
  {
    f(ps[i]) && ps[i].key == key && forall j :: 0 <= j < i && f(ps[j]) ==> ps[j].key != key
  }

  lemma {:induction false} FirstNamedAt(ps: seq<Provider>, f: Provider -> bool, key: string, i: nat)
    requires i < |ps| && IsFirst(ps, f, key, i)
    ensures FirstNamed(Filter(ps, f), key) == Some(ps[i])
  {
    if i > 0 {
      forall j | 0 <= j < i - 1 && f(ps[1..][j]) ensures ps[1..][j].key != key {
        assert ps[1..][j] == ps[j + 1];
      }
      FirstNamedAt(ps[1..], f, key, i - 1);
    }
  }

  lemma {:induction false} FirstNamedFrom(ps: seq<Provider>, f: Provider -> bool, key: string) returns (i: nat)
    requires FirstNamed(Filter(ps, f), key).Some?
    ensures i < |ps| && IsFirst(ps, f, key, i) && FirstNamed(Filter(ps, f), key) == Some(ps[i])
  {
    if f(ps[0]) && ps[0].key == key {
      i := 0;
    } else {
      var k := FirstNamedFrom(ps[1..], f, key);
      i := k + 1;
      forall j | 0 <= j < i && f(ps[j]) ensures ps[j].key != key {
        if j > 0 {
          assert ps[j] == ps[1..][j - 1];
        }
      }
    }
  }

  /** A provider is selected if and only if it is the chosen one, and no list has two. */
  lemma SelectedIffChosen(ps: seq<Provider>, issuer: string, audiences: seq<string>, headerKey: Option<string>, p: Provider)
    ensures Select(ps, issuer, audiences, headerKey).provider == Some(p) <==>
            exists i :: 0 <= i < |ps| && ps[i] == p && Chosen(ps, issuer, audiences, headerKey, i)
  {
    SelectDecides(ps, issuer, audiences, headerKey);
    LaneHoldsCandidates(ps, issuer, audiences);
    hide Select, Filter, Eligible;
    if i :| 0 <= i < |ps| && ps[i] == p && Chosen(ps, issuer, audiences, headerKey, i) {
      ChosenIsSelected(ps, issuer, audiences, headerKey, i);
    }
    if Select(ps, issuer, audiences, headerKey).provider == Some(p) {
      var i := SelectedIsChosen(ps, issuer, audiences, headerKey);
    }
  }

  lemma LaneHoldsCandidates(ps: seq<Provider>, issuer: string, audiences: seq<string>)
    ensures Candidates(ps, issuer, audiences) != [] ==> Lane(ps, issuer) != [] && ps != []
  {
    var f := (p: Provider) => Eligible(p, issuer, audiences);
    FilterHolds(ps, f);
    FilterHolds(ps, p => InLane(p, issuer));
    if Candidates(ps, issuer, audiences) != [] {
      assert Candidates(ps, issuer, audiences)[0] in Filter(ps, f);
      assert Candidates(ps, issuer, audiences)[0] in Lane(ps, issuer);
    }
  }

  lemma ChosenIsSelected(ps: seq<Provider>, issuer: string, audiences: seq<string>, headerKey: Option<string>, i: nat)
    requires i < |ps| && Chosen(ps, issuer, audiences, headerKey, i)
    ensures Select(ps, issuer, audiences, headerKey).provider == Some(ps[i])
  {
    var f := (p: Provider) => Eligible(p, issuer, audiences);
    SelectDecides(ps, issuer, audiences, headerKey);
    LaneHoldsCandidates(ps, issuer, audiences);
    FilterHolds(ps, f);
    var candidates := Filter(ps, f);
    assert ps[i] in candidates;
    if forall j :: 0 <= j < |ps| && f(ps[j]) ==> j == i {
      FilterOnly(ps, f, i);
    } else {
      if |candidates| == 1 {
        var k := FilterOne(ps, f);
      }
      assert IsFirst(ps, f, headerKey.value, i);
      FirstNamedAt(ps, f, headerKey.value, i);
    }
  }

  lemma SelectedIsChosen(ps: seq<Provider>, issuer: string, audiences: seq<string>, headerKey: Option<string>) returns (i: nat)
    requires Select(ps, issuer, audiences, headerKey).provider.Some?
    ensures i < |ps| && Chosen(ps, issuer, audiences, headerKey, i)
    ensures Select(ps, issuer, audiences, headerKey).provider == Some(ps[i])
  {
    var f := (p: Provider) => Eligible(p, issuer, audiences);
    SelectDecides(ps, issuer, audiences, headerKey);
    if |Filter(ps, f)| == 1 {
      i := FilterOne(ps, f);
      assert f(ps[i]);
      forall j | 0 <= j < |ps| && Eligible(ps[j], issuer, audiences) ensures j == i {
        assert f(ps[j]);
      }
    } else {
      i := FirstNamedFrom(ps, f, headerKey.value);
      assert f(ps[i]);
      forall j | 0 <= j < i && Eligible(ps[j], issuer, audiences) ensures !Named(ps[j], headerKey) {
        assert f(ps[j]);
      }
    }
  }

  /** Why nothing was selected: the issuer, then the audience, then the header. */
  lemma OutcomeSays(ps: seq<Provider>, issuer: string, audiences: seq<string>, headerKey: Option<string>)
    ensures var r := Select(ps, issuer, audiences, headerKey);
            && (r.outcome.Selected? <==> r.provider.Some?)
            && (r.outcome.NoProviders? <==> ps == [])
            && (r.outcome.IssuerUnmatched? || r.outcome.IssuerAbsentUnmatched? <==>
                  ps != [] && forall p :: p in ps ==> !InLane(p, issuer))
            && (r.outcome.IssuerAbsentUnmatched? ==> IsBlank(issuer)) && (r.outcome.IssuerUnmatched? ==> !IsBlank(issuer))
            && (r.outcome.AudienceUnmatched? <==>
                  (exists p :: p in ps && InLane(p, issuer)) && forall p :: p in ps ==> !Eligible(p, issuer, audiences))
            && (r.outcome.AmbiguousNoHeader? ==> r.candidateCount >= 2 && forall p :: p in ps ==> !Named(p, headerKey))
            && (r.outcome.AmbiguousHeaderUnmatched? ==>
                  r.candidateCount >= 2 && forall p :: p in ps && Eligible(p, issuer, audiences) ==> !Named(p, headerKey))
  {
    SelectDecides(ps, issuer, audiences, headerKey);
    FilterHolds(ps, p => InLane(p, issuer));
    FilterHolds(ps, p => Eligible(p, issuer, audiences));
    var lane, candidates := Lane(ps, issuer), Candidates(ps, issuer, audiences);
    if headerKey.Some? {
      FirstNamedHolds(candidates, headerKey.value);
    }
    hide Select, Filter, FirstNamed, AudienceMatches;
    assert lane != [] ==> lane[0] in lane;
    assert candidates != [] ==> candidates[0] in candidates;
    assert forall p :: p in lane <==> p in ps && InLane(p, issuer);
    assert forall p :: p in candidates <==> p in ps && Eligible(p, issuer, audiences);
  }

  lemma {:induction false} FirstNamedHolds(ps: seq<Provider>, key: string)
    ensures match FirstNamed(ps, key)
            case None => forall p :: p in ps ==> p.key != key
            case Some(p) => p in ps && p.key == key
  {
    if ps != [] {
      FirstNamedHolds(ps[1..], key);
      assert ps == [ps[0]] + ps[1..];
    }
  }

  // ---------- order and other lanes do not matter ----------

  ghost predicate KeysUnique(ps: seq<Provider>) {
    forall p, q :: p in ps && q in ps && p.key == q.key ==> p == q
  }

  lemma {:induction false} FilterMultiset(ps: seq<Provider>, f: Provider -> bool, p: Provider)
    ensures multiset(Filter(ps, f))[p] == if f(p) then multiset(ps)[p] else 0
  {
    if ps != [] {
      FilterMultiset(ps[1..], f, p);
      assert ps == [ps[0]] + ps[1..];
    }
  }

  lemma FilterOfPermutation(ps: seq<Provider>, qs: seq<Provider>, f: Provider -> bool)
    requires multiset(ps) == multiset(qs)
    ensures multiset(Filter(ps, f)) == multiset(Filter(qs, f))
  {
    forall p ensures multiset(Filter(ps, f))[p] == multiset(Filter(qs, f))[p] {
      FilterMultiset(ps, f, p);
      FilterMultiset(qs, f, p);
    }
  }

  lemma PermutationFacts(ps: seq<Provider>, qs: seq<Provider>)
    requires multiset(ps) == multiset(qs)
    ensures |ps| == |qs| && forall p :: p in ps <==> p in qs
  {
    assert |multiset(ps)| == |ps| && |multiset(qs)| == |qs|;
    forall p ensures p in ps <==> p in qs {
      assert p in ps <==> p in multiset(ps);
      assert p in qs <==> p in multiset(qs);
    }
  }

  /** With unique keys the outcome does not depend on the order of the list. */
  lemma OrderDoesNotMatter(ps: seq<Provider>, qs: seq<Provider>, issuer: string, audiences: seq<string>, headerKey: Option<string>)
    requires multiset(ps) == multiset(qs) && KeysUnique(ps)
    ensures Select(ps, issuer, audiences, headerKey) == Select(qs, issuer, audiences, headerKey)
  {
    SelectDecides(ps, issuer, audiences, headerKey);
    SelectDecides(qs, issuer, audiences, headerKey);
    PermutationFacts(ps, qs);
    FilterOfPermutation(ps, qs, p => InLane(p, issuer));
    FilterOfPermutation(ps, qs, p => Eligible(p, issuer, audiences));
    FilterHolds(ps, p => Eligible(p, issuer, audiences));
    var c, d := Candidates(ps, issuer, audiences), Candidates(qs, issuer, audiences);
    PermutationFacts(Lane(ps, issuer), Lane(qs, issuer));
    PermutationFacts(c, d);
    assert KeysUnique(c);
    DecideOfPermutation(Lane(ps, issuer), Lane(qs, issuer), c, d, headerKey);
  }

  lemma DecideOfPermutation(lane: seq<Provider>, mane: seq<Provider>, c: seq<Provider>, d: seq<Provider>, headerKey: Option<string>)
    requires |lane| == |mane| && |c| == |d| && (forall p :: p in c <==> p in d) && KeysUnique(c)
    ensures Decide(lane, c, headerKey) == Decide(mane, d, headerKey)
  {
    if |c| == 1 {
      assert c[0] in d && d[0] in c;
    } else if headerKey.Some? {
      FirstNamedHolds(c, headerKey.value);
      FirstNamedHolds(d, headerKey.value);
    }
  }

  /** Providers of other issuers can come and go without changing the outcome. */
  lemma OnlyTheLaneMatters(ps: seq<Provider>, qs: seq<Provider>, issuer: string, audiences: seq<string>, headerKey: Option<string>)
    requires Lane(ps, issuer) == Lane(qs, issuer) != []
    ensures Select(ps, issuer, audiences, headerKey) == Select(qs, issuer, audiences, headerKey)
  {
    SelectDecides(ps, issuer, audiences, headerKey);
    SelectDecides(qs, issuer, audiences, headerKey);
    FilterTwice(ps, p => InLane(p, issuer), p => AudienceMatches(p, audiences), p => Eligible(p, issuer, audiences));
    FilterTwice(qs, p => InLane(p, issuer), p => AudienceMatches(p, audiences), p => Eligible(p, issuer, audiences));
  }

  lemma OutsiderIgnored(before: seq<Provider>, outsider: Provider, rest: seq<Provider>, issuer: string, audiences: seq<string>, headerKey: Option<string>)
    requires !InLane(outsider, issuer) && Lane(before + rest, issuer) != []
    ensures Select(before + [outsider] + rest, issuer, audiences, headerKey) == Select(before + rest, issuer, audiences, headerKey)
  {
    var f := (p: Provider) => InLane(p, issuer);
    FilterConcat(before + [outsider], rest, f);
    FilterConcat(before, [outsider], f);
    FilterConcat(before, rest, f);
    assert Filter([outsider], f) == [];
    OnlyTheLaneMatters(before + [outsider] + rest, before + rest, issuer, audiences, headerKey);
  }
}
