/**
 * The demonstration credential of the user directory (`hashPassword` and
 * `verifyPassword`): a rolling checksum `h := h * 31 + code` over the
 * UTF-16 code units of the password, truncated to a signed 32-bit integer
 * after every step, rendered as "hash_" + hex(|h|) + "_" + length.
 */
module Password {
  import opened Text

  const TWO_TO_32: int := 0x1_0000_0000
  const TWO_TO_31: int := 0x8000_0000

  /** ECMAScript ToInt32: the representative of x modulo 2^32 in [-2^31, 2^31). */
  function ToInt32(x: int): (r: int)
    ensures -TWO_TO_31 <= r < TWO_TO_31
    ensures x % TWO_TO_32 == r % TWO_TO_32
  {
    var m := x % TWO_TO_32;
    if m < TWO_TO_31 then m else m - TWO_TO_32
  }

  /** ToInt32 only depends on its argument modulo 2^32. */
  lemma ToInt32Periodic(x: int, k: int)
    ensures ToInt32(x + k * TWO_TO_32) == ToInt32(x)
  {
    assert (x + k * TWO_TO_32) % TWO_TO_32 == x % TWO_TO_32;
  }

  /** One round of the loop, `hash = ((hash << 5) - hash) + char; hash = hash & hash`. */
  function Step(h: int, code: int): int {
    ToInt32(31 * h + code)
  }

  /** `hash << 5` wraps to 32 bits before the subtraction; the final `hash & hash` makes that immaterial. */
  lemma ShiftThenTruncate(h: int, code: int)
    ensures ToInt32(ToInt32(h * 32) - h + code) == Step(h, code)
  {
    var x := h * 32;
    var q := x / TWO_TO_32;
    var k := if x % TWO_TO_32 < TWO_TO_31 then -q else -q - 1;
    assert ToInt32(x) == x + k * TWO_TO_32;
    ToInt32Periodic(31 * h + code, k);
  }

  /** The checksum after a sequence of code units has been folded in. */
  function Checksum(units: seq<CodeUnit>): (h: int)
    ensures -TWO_TO_31 <= h < TWO_TO_31
  {
    if units == [] then 0 else Step(Checksum(units[..|units| - 1]), units[|units| - 1])
  }

  /** `Math.abs` on the checksum; note that -2^31 becomes 2^31. */
  function Abs(x: int): (r: nat)
    ensures r == x || r == -x
  {
    if x < 0 then -x else x
  }

  /** The stored credential for password p. */
  function Hash(p: String): String {
    "hash_" + Hex(Abs(Checksum(Utf16(p)))) + "_" + Decimal(JsLength(p))
  }

  /** `hashPassword`: the loop over `charCodeAt(i)` for every i below `password.length`. */
  method HashPassword(password: String) returns (hash: String)
    ensures hash == Hash(password)
  {
    var units := Utf16(password);
    var h := 0;
    for i := 0 to |units|
      invariant h == Checksum(units[..i])
    {
      var code := units[i];
      var shifted := ToInt32(h * 32);
      ShiftThenTruncate(h, code);
      assert units[..i + 1][..i] == units[..i];
      h := ToInt32(shifted - h + code);
    }
    assert units[..|units|] == units;
    hash := "hash_" + Hex(Abs(h)) + "_" + Decimal(|units|);
  }

  /** `verifyPassword`: re-derive the credential and compare. */
  predicate VerifyPassword(password: String, hash: String) {
    Hash(password) == hash
  }

  /** In a + "_" + d with d all digits, the "_" is the last one. */
  lemma UnderscoreThenDigits(s: String, a: String, d: String)
    requires s == a + "_" + d
    requires forall i :: 0 <= i < |d| ==> IsAsciiDigit(d[i])
    ensures s[|a|] == '_' && s[|a| + 1..] == d
    ensures forall k :: |a| < k < |s| ==> IsAsciiDigit(s[k])
  {
    assert forall k :: |a| < k < |s| ==> s[k] == d[k - |a| - 1];
  }

  /**
   * The credential ends in "_" followed by the password's length, and the
   * hex part holds no "_", so equal credentials come from equal lengths.
   */
  lemma HashDeterminesLength(p: String, q: String)
    requires Hash(p) == Hash(q)
    ensures JsLength(p) == JsLength(q)
  {
    var s := Hash(p);
    var a := "hash_" + Hex(Abs(Checksum(Utf16(p))));
    var b := "hash_" + Hex(Abs(Checksum(Utf16(q))));
    UnderscoreThenDigits(s, a, Decimal(JsLength(p)));
    UnderscoreThenDigits(s, b, Decimal(JsLength(q)));
    if |a| != |b| {
      // the "_" of the longer prefix would sit among the digits of the other
      assert false;
    }
    DecimalInjective(JsLength(p), JsLength(q));
  }

  /**
   * Round trip: a password verifies against its own credential, and no
   * password of another length verifies against it.
   */
  lemma HashRoundTrip(p: String)
    ensures VerifyPassword(p, Hash(p))
    ensures forall q :: JsLength(q) != JsLength(p) ==> !VerifyPassword(q, Hash(p))
  {
    forall q | JsLength(q) != JsLength(p)
      ensures !VerifyPassword(q, Hash(p))
    {
      if Hash(q) == Hash(p) {
        HashDeterminesLength(q, p);
      }
    }
  }
}
