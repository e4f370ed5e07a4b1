/**
 The signing algorithms a provider is configured with: their wire names, and whether they
 all draw their key from one place.
 */
module Algorithms {
  import opened Options
  import opened Sequences

  datatype Algorithm =
    | Unspecified
    | RS256 | RS384 | RS512
    | ES256 | ES384 | ES512
    | PS256 | PS384 | PS512
    | HS256 | HS384 | HS512

  predicate IsSymmetric(a: Algorithm) {
    a.HS256? || a.HS384? || a.HS512?
  }

  function WireName(a: Algorithm): string {
    match a
    case Unspecified => ""
    case RS256 => "RS256"
    case RS384 => "RS384"
    case RS512 => "RS512"
    case ES256 => "ES256"
    case ES384 => "ES384"
    case ES512 => "ES512"
    case PS256 => "PS256"
    case PS384 => "PS384"
    case PS512 => "PS512"
    case HS256 => "HS256"
    case HS384 => "HS384"
    case HS512 => "HS512"
  }

  /** A MAC algorithm of section 3.2 of RFC 7518, by its registered name. */
  predicate IsHmacName(name: string) {
    |name| == 5 && name[0] == 'H' && name[1] == 'S'
  }

  /** The names accepted for these algorithms: each configured one, once, and no other. */
  ghost predicate ExactNames(algorithms: seq<Algorithm>, names: seq<string>) {
    && NoDuplicates(names)
    && (forall a :: a in algorithms && !a.Unspecified? ==> WireName(a) in names)
    && (forall n :: n in names ==> exists a :: a in algorithms && !a.Unspecified? && WireName(a) == n)
  }

  function ToWireNames(algorithms: seq<Algorithm>): seq<string>
    decreases |algorithms|
  {
    if algorithms == [] then []
    else
      var names := ToWireNames(algorithms[..|algorithms| - 1]);
      var name := WireName(algorithms[|algorithms| - 1]);
      if name != "" && name !in names then names + [name] else names
  }

  /** Distinct algorithms have distinct names, and only the unset one has none. */
  lemma WireNamesDiffer(a: Algorithm, b: Algorithm)
    ensures WireName(a) == WireName(b) ==> a == b
    ensures WireName(a) == "" <==> a.Unspecified?
    ensures IsHmacName(WireName(a)) <==> IsSymmetric(a)
  {
    assert |WireName(a)| == if a.Unspecified? then 0 else 5;
    assert |WireName(b)| == if b.Unspecified? then 0 else 5;
    if WireName(a) == WireName(b) && !a.Unspecified? {
      assert WireName(a)[0] == WireName(b)[0] && WireName(a)[2] == WireName(b)[2];
    }
  }

  lemma {:induction false} WireNamesAreExact(algorithms: seq<Algorithm>)
    ensures ExactNames(algorithms, ToWireNames(algorithms))
    decreases |algorithms|
  {
    hide WireName;
    if algorithms != [] {
      var front, last := algorithms[..|algorithms| - 1], algorithms[|algorithms| - 1];
      WireNamesAreExact(front);
      WireNamesDiffer(last, last);
      assert algorithms == front + [last];
    }
  }

  method ToWireNamesOf(algorithms: seq<Algorithm>) returns (names: seq<string>)
    ensures names == ToWireNames(algorithms)
    ensures ExactNames(algorithms, names)
  {
    names := [];
    for k := 0 to |algorithms|
      invariant names == ToWireNames(algorithms[..k])
    {
      assert algorithms[..k + 1][..k] == algorithms[..k];
      var name := WireName(algorithms[k]);
      if name != "" && name !in names {
        names := names + [name];
      }
    }
    assert algorithms[..|algorithms|] == algorithms;
    WireNamesAreExact(algorithms);
  }

  // ---------- stored numbers ----------

  /** An algorithm by the number it is stored under. */
  function FromNumber(n: int): Option<Algorithm> {
    match n
    case 0 => Some(Unspecified)
    case 1 => Some(RS256)
    case 2 => Some(RS384)
    case 3 => Some(RS512)
    case 4 => Some(ES256)
    case 5 => Some(ES384)
    case 6 => Some(ES512)
    case 7 => Some(PS256)
    case 8 => Some(PS384)
    case 9 => Some(PS512)
    case 10 => Some(HS256)
    case 11 => Some(HS384)
    case 12 => Some(HS512)
    case _ => None
  }

  /** A provider's stored numbers, without those this build does not know. */
  function KnownAlgorithms(numbers: seq<int>): seq<Algorithm> {
    if numbers == [] then []
    else
      match FromNumber(numbers[0])
      case Some(a) => [a] + KnownAlgorithms(numbers[1..])
      case None => KnownAlgorithms(numbers[1..])
  }

  /** The numbers go through the four families in threes, each by growing hash, and a wire
      name is its family's two letters and its hash's three digits, as section 3.1 of RFC 7518
      registers them. */
  lemma NumbersAndNames(n: int)
    ensures FromNumber(n).Some? <==> 0 <= n <= 12
    ensures 1 <= n <= 12 ==>
              WireName(FromNumber(n).value) == ["RS", "ES", "PS", "HS"][(n - 1) / 3] + ["256", "384", "512"][(n - 1) % 3]
    ensures n == 0 ==> WireName(FromNumber(n).value) == ""
  {
    if 1 <= n <= 12 {
      var family, hash := (n - 1) / 3, (n - 1) % 3;
      assert family in {0, 1, 2, 3} && hash in {0, 1, 2} && n == 3 * family + hash + 1;
    }
  }

  /** What validation accepts for a stored row: the names of its known algorithms, in the order
      in which they first appear, and nothing for a number this build does not know. */
  lemma {:induction false} KnownAlgorithmsAre(numbers: seq<int>, a: Algorithm)
    ensures a in KnownAlgorithms(numbers) <==> exists n :: n in numbers && FromNumber(n) == Some(a)
  {
    hide FromNumber;
    if numbers != [] {
      KnownAlgorithmsAre(numbers[1..], a);
      assert numbers == [numbers[0]] + numbers[1..];
      if FromNumber(numbers[0]) == Some(a) {
        assert a in KnownAlgorithms(numbers);
      }
    }
  }

  predicate IsSingleKeySource(algorithms: seq<Algorithm>) {
    && algorithms != []
    && (forall a :: a in algorithms ==> !a.Unspecified?)
    && ((forall a :: a in algorithms ==> IsSymmetric(a)) || (forall a :: a in algorithms ==> !IsSymmetric(a)))
  }

  /** With one key source, every accepted name is of the first algorithm's family. */
  lemma NamesShareFamily(algorithms: seq<Algorithm>)
    requires IsSingleKeySource(algorithms)
    ensures ToWireNames(algorithms) != []
    ensures forall n :: n in ToWireNames(algorithms) ==> (IsHmacName(n) <==> IsSymmetric(algorithms[0]))
  {
    WireNamesAreExact(algorithms);
    var names := ToWireNames(algorithms);
    hide WireName, IsHmacName, ToWireNames;
    assert WireName(algorithms[0]) in names;
    forall n | n in names ensures IsHmacName(n) <==> IsSymmetric(algorithms[0]) {
      var a :| a in algorithms && !a.Unspecified? && WireName(a) == n;
      WireNamesDiffer(a, a);
    }
  }

  /** One key source: at least one algorithm, all of them named, and all or none of them MACs. */
  lemma SingleKeySourceMeans(algorithms: seq<Algorithm>)
    ensures IsSingleKeySource(algorithms) <==>
              && algorithms != []
              && (forall a :: a in algorithms ==> WireName(a) != "")
              && ((forall a :: a in algorithms ==> IsHmacName(WireName(a))) || (forall a :: a in algorithms ==> !IsHmacName(WireName(a))))
  {
    forall a ensures (WireName(a) == "" <==> a.Unspecified?) && (IsHmacName(WireName(a)) <==> IsSymmetric(a)) {
      WireNamesDiffer(a, a);
    }
    hide WireName, IsHmacName, IsSymmetric;
  }
}
