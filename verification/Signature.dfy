/**
 Grant ids and the signature input of a token exchange. The input joins tenant, grant id,
 nonce and time stamp with bars, and a tenant id is any string, bars included; what makes
 the input uniquely readable is that the last three fields cannot contain one.
 */
module Signature {
  import opened Options

  const GRANT_ID_PREFIX := "dg_"
  const GRANT_ID_RANDOM_BYTES: nat := 32

  type Byte = n: nat | n < 256

  // ---------- hex ----------

  predicate IsLowerHex(c: char) {
    '0' <= c <= '9' || 'a' <= c <= 'f'
  }

  function HexDigit(n: nat): (c: char)
    requires n < 16
    ensures IsLowerHex(c) && HexValue(c) == n
  {
    if n < 10 then '0' + n as char else 'a' + (n - 10) as char
  }

  function HexValue(c: char): (n: nat)
    requires IsLowerHex(c)
    ensures n < 16
  {
    if c <= '9' then c as nat - '0' as nat else 10 + c as nat - 'a' as nat
  }

  predicate AllLowerHex(s: string) {
    forall c :: c in s ==> IsLowerHex(c)
  }

  /** secrets.token_hex of the given random bytes. */
  function TokenHex(bytes: seq<Byte>): (r: string)
    ensures |r| == 2 * |bytes| && AllLowerHex(r)
  {
    if bytes == [] then "" else [HexDigit(bytes[0] / 16), HexDigit(bytes[0] % 16)] + TokenHex(bytes[1..])
  }

  function FromHex(s: string): (bytes: seq<Byte>)
    requires |s| % 2 == 0 && AllLowerHex(s)
    ensures |bytes| == |s| / 2
  {
    if s == [] then [] else [HexValue(s[0]) * 16 + HexValue(s[1])] + FromHex(s[2..])
  }

  function NewGrantId(bytes: seq<Byte>): string {
    GRANT_ID_PREFIX + TokenHex(bytes)
  }

  function NewNonce(bytes: seq<Byte>): string {
    TokenHex(bytes)
  }

  predicate IsWellFormed(id: Option<string>): (b: bool)
    ensures b ==> id.Some?
  {
    match id
    case None => false
    case Some(s) =>
      && GRANT_ID_PREFIX <= s
      && |s| - |GRANT_ID_PREFIX| == GRANT_ID_RANDOM_BYTES * 2
      && AllLowerHex(s[|GRANT_ID_PREFIX|..])
  }

  lemma {:induction false} HexOfBytes(s: string)
    requires |s| % 2 == 0 && AllLowerHex(s)
    ensures TokenHex(FromHex(s)) == s
  {
    if s != [] {
      var b, rest := HexValue(s[0]) * 16 + HexValue(s[1]), FromHex(s[2..]);
      HexOfBytes(s[2..]);
      assert ([b] + rest)[1..] == rest;
      assert HexDigit(b / 16) == s[0] && HexDigit(b % 16) == s[1];
    }
  }

  lemma {:induction false} BytesOfHex(bytes: seq<Byte>)
    ensures FromHex(TokenHex(bytes)) == bytes
  {
    if bytes != [] {
      BytesOfHex(bytes[1..]);
      assert TokenHex(bytes)[2..] == TokenHex(bytes[1..]);
    }
  }

  /** The well-formed ids are exactly the generated ones, and each comes from one choice of
      random bytes. */
  lemma WellFormedIffGenerated(s: string)
    ensures IsWellFormed(Some(s)) <==> exists bytes: seq<Byte> :: |bytes| == GRANT_ID_RANDOM_BYTES && NewGrantId(bytes) == s
    ensures forall a: seq<Byte>, b: seq<Byte> :: NewGrantId(a) == s && NewGrantId(b) == s ==> a == b
  {
    if IsWellFormed(Some(s)) {
      HexOfBytes(s[3..]);
      assert NewGrantId(FromHex(s[3..])) == s;
    }
    forall a: seq<Byte>, b: seq<Byte> | NewGrantId(a) == s && NewGrantId(b) == s ensures a == b {
      assert NewGrantId(a)[3..] == TokenHex(a) && NewGrantId(b)[3..] == TokenHex(b);
      BytesOfHex(a);
      BytesOfHex(b);
    }
    forall bytes: seq<Byte> | |bytes| == GRANT_ID_RANDOM_BYTES && NewGrantId(bytes) == s ensures IsWellFormed(Some(s)) {
      assert s[3..] == TokenHex(bytes);
    }
  }

  lemma HexCharacters(c: char)
    ensures IsLowerHex(c) <==> c in "0123456789abcdef"
  {
    if '0' <= c <= '9' {
      assert "0123456789abcdef"[c as int - '0' as int] == c;
    } else if 'a' <= c <= 'f' {
      assert "0123456789abcdef"[10 + c as int - 'a' as int] == c;
    }
  }

  /** An id is well formed exactly when it is dg_ and 64 lower-case hexadecimal characters. */
  lemma WellFormedMeans(s: string)
    ensures IsWellFormed(Some(s)) <==> |s| == 67 && s[..3] == "dg_" && forall c :: c in s[3..] ==> c in "0123456789abcdef"
    ensures !IsWellFormed(None)
  {
    forall c ensures IsLowerHex(c) <==> c in "0123456789abcdef" {
      HexCharacters(c);
    }
  }

  // ---------- decimal ----------

  const DIGITS := "0123456789"

  function DecimalNat(n: nat): (r: string)
    ensures r != [] && forall c :: c in r ==> c in DIGITS
  {
    if n < 10 then [DIGITS[n]] else DecimalNat(n / 10) + [DIGITS[n % 10]]
  }

  /** The text of an integer: a minus sign when it is negative, then its digits. */
  function Decimal(n: int): string {
    if n < 0 then "-" + DecimalNat(-n) else DecimalNat(n)
  }

  function DigitValue(c: char): nat {
    if c in DIGITS then c as nat - '0' as nat else 0
  }

  function ReadNat(s: string): nat {
    if s == [] then 0 else 10 * ReadNat(s[..|s| - 1]) + DigitValue(s[|s| - 1])
  }

  function ReadInt(s: string): int {
    if s != [] && s[0] == '-' then 0 - ReadNat(s[1..]) as int else ReadNat(s)
  }

  lemma {:induction false} ReadDecimalNat(n: nat)
    ensures ReadNat(DecimalNat(n)) == n
  {
    if n < 10 {
      assert DecimalNat(n)[..0] == [];
      assert DigitValue(DIGITS[n]) == n;
    } else {
      ReadDecimalNat(n / 10);
      var s := DecimalNat(n);
      assert s[..|s| - 1] == DecimalNat(n / 10);
      assert DigitValue(DIGITS[n % 10]) == n % 10;
    }
  }

  lemma ReadDecimal(n: int)
    ensures ReadInt(Decimal(n)) == n
    ensures '|' !in Decimal(n)
  {
    hide DecimalNat, ReadNat;
    assert '|' !in DIGITS && '-' !in DIGITS;
    var digits := DecimalNat(if n < 0 then -n else n);
    ReadDecimalNat(if n < 0 then -n else n);
    assert digits[0] in digits;
    if n < 0 {
      assert Decimal(n)[1..] == digits;
    }
  }

  /** The text of a number has no needless zeros. */
  lemma {:induction false} NoLeadingZero(n: nat)
    ensures n > 0 ==> DecimalNat(n)[0] != '0'
    ensures Decimal(0) == "0"
  {
    assert Decimal(0) == [DIGITS[0]];
    if n >= 10 {
      NoLeadingZero(n / 10);
      assert DecimalNat(n)[0] == DecimalNat(n / 10)[0];
    } else if n > 0 {
      assert DecimalNat(n)[0] == DIGITS[n];
    }
  }

  // ---------- the signature input ----------

  function BuildSignatureInput(tenantId: string, delegationId: string, nonce: string, ts: int): string {
    tenantId + "|" + delegationId + "|" + nonce + "|" + Decimal(ts)
  }

  /** The text before and after the last bar. */
  function SplitLast(s: string): (string, string) {
    if s == [] then ("", "")
    else
      var last := s[|s| - 1];
      if last == '|' then (s[..|s| - 1], "")
      else var (head, tail) := SplitLast(s[..|s| - 1]); (head, tail + [last])
  }

  /** Reads the four fields of a signature input back, from the right. */
  function ReadSignatureInput(s: string): (string, string, string, int) {
    var (rest, ts) := SplitLast(s);
    var (front, nonce) := SplitLast(rest);
    var (tenantId, delegationId) := SplitLast(front);
    (tenantId, delegationId, nonce, ReadInt(ts))
  }

  lemma {:induction false} SplitJoined(a: string, b: string)
    requires '|' !in b
    ensures SplitLast(a + "|" + b) == (a, b)
  {
    var s := a + "|" + b;
    if b == [] {
      assert s[..|s| - 1] == a;
    } else {
      var front, last := b[..|b| - 1], b[|b| - 1];
      assert b == front + [last] && last in b;
      SplitJoined(a, front);
      assert s[..|s| - 1] == a + "|" + front && s[|s| - 1] == last;
    }
  }

  /** The input can be read back, whatever the tenant id is. */
  lemma ReadBuilt(tenantId: string, delegationId: string, nonce: string, ts: int)
    requires '|' !in delegationId && '|' !in nonce
    ensures ReadSignatureInput(BuildSignatureInput(tenantId, delegationId, nonce, ts)) == (tenantId, delegationId, nonce, ts)
  {
    ReadDecimal(ts);
    SplitJoined(tenantId + "|" + delegationId + "|" + nonce, Decimal(ts));
    SplitJoined(tenantId + "|" + delegationId, nonce);
    SplitJoined(tenantId, delegationId);
  }

  /** Two exchanges with well-formed ids and generated nonces sign the same text only when
      they agree on tenant, grant, nonce and time. */
  lemma SignatureInputInjective(
    tenant1: string, id1: string, nonce1: seq<Byte>, ts1: int,
    tenant2: string, id2: string, nonce2: seq<Byte>, ts2: int)
    requires IsWellFormed(Some(id1)) && IsWellFormed(Some(id2))
    requires BuildSignatureInput(tenant1, id1, NewNonce(nonce1), ts1) == BuildSignatureInput(tenant2, id2, NewNonce(nonce2), ts2)
    ensures tenant1 == tenant2 && id1 == id2 && nonce1 == nonce2 && ts1 == ts2
  {
    NoBarInId(id1);
    NoBarInId(id2);
    ReadBuilt(tenant1, id1, NewNonce(nonce1), ts1);
    ReadBuilt(tenant2, id2, NewNonce(nonce2), ts2);
    BytesOfHex(nonce1);
    BytesOfHex(nonce2);
  }

  lemma NoBarInId(id: string)
    requires IsWellFormed(Some(id))
    ensures '|' !in id
  {
    assert id == id[..3] + id[3..] && id[..3] == GRANT_ID_PREFIX;
  }
}
