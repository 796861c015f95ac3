/**
 * SHA-256 as hex text. Only two facts about it are used anywhere: equal digests come from equal bytes,
 * and the text has no colon. The stand-in below writes every byte as two hex digits, which has both.
 */
module Digests {

  newtype byte = x: int | 0 <= x < 256

  type Bytes = seq<byte>

  const COLON: byte := 58

  function HexDigit(n: int): (d: byte)
    requires 0 <= n < 16
    ensures d != COLON
  {
    (if n < 10 then 48 + n else 87 + n) as byte
  }

  function Sha256Hex(data: Bytes): (hex: Bytes)
    ensures COLON !in hex && |hex| == 2 * |data|
  {
    if data == [] then []
    else [HexDigit(data[0] as int / 16), HexDigit(data[0] as int % 16)] + Sha256Hex(data[1..])
  }

  lemma {:induction false} Sha256Injective(a: Bytes, b: Bytes)
    requires Sha256Hex(a) == Sha256Hex(b)
    ensures a == b
  {
    if a != [] && b != [] {
      var ha, hb := Sha256Hex(a), Sha256Hex(b);
      assert ha[0] == hb[0] && ha[1] == hb[1] && ha[2..] == hb[2..];
      Sha256Injective(a[1..], b[1..]);
      assert a[0] == b[0];
      assert a == [a[0]] + a[1..] && b == [b[0]] + b[1..];
    }
  }

  /** A capture: the attempt that uploaded it and the digest of its bytes. */
  datatype Key = Key(attemptId: Bytes, sha: Bytes)

  /** `liveness_identity`: digest of `attempt_id:sha`. */
  function LivenessIdentity(key: Key): Bytes {
    Sha256Hex(key.attemptId + [COLON] + key.sha)
  }

  /**
   * Identities tell captures apart: the digest part has no colon, so the last colon of `attempt_id:sha`
   * splits it in one way even when the attempt id has colons of its own.
   */
  lemma IdentityInjective(a: Key, b: Key)
    requires COLON !in a.sha && COLON !in b.sha
    requires LivenessIdentity(a) == LivenessIdentity(b)
    ensures a == b
  {
    Sha256Injective(a.attemptId + [COLON] + a.sha, b.attemptId + [COLON] + b.sha);
    LastColonSplits(a.attemptId, a.sha, b.attemptId, b.sha);
  }

  lemma LastColonSplits(a: Bytes, s: Bytes, b: Bytes, t: Bytes)
    requires COLON !in s && COLON !in t
    requires a + [COLON] + s == b + [COLON] + t
    ensures a == b && s == t
  {
    var whole := a + [COLON] + s;
    assert whole[|a|] == COLON && whole[|b|] == COLON;
    assert forall i :: |a| < i < |whole| ==> whole[i] == s[i - |a| - 1];
    assert forall i :: |b| < i < |whole| ==> whole[i] == t[i - |b| - 1];
    assert |a| == |b|;
    assert whole[..|a|] == a && whole[..|b|] == b;
    assert whole[|a| + 1..] == s && whole[|b| + 1..] == t;
  }
}
