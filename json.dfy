/**
 * JSON-like values as JavaScript sees them after `JSON.parse`, together with the two
 * pieces of JavaScript semantics the dispatcher relies on: truthiness (`a && b`) and
 * the object spread `{ ...v }`, which makes a shallow copy of the own fields of `v`.
 */
module JsonValue {

  /** Object fields are a map: key order is not part of this model. */
  datatype Json =
    | JNull
    | JBool(b: bool)
    | JNum(n: real)
    | JStr(s: string)
    | JArr(elems: seq<Json>)
    | JObj(fields: map<string, Json>)

  /** JavaScript truthiness: null, false, 0 and the empty string are falsy; every array and object is truthy. */
  predicate Truthy(v: Json)
  {
    match v
    case JNull => false
    case JBool(b) => b
    case JNum(n) => n != 0.0
    case JStr(s) => s != ""
    case JArr(_) => true
    case JObj(_) => true
  }

  function Digit(d: nat): (c: char)
    requires d < 10
    ensures '0' <= c <= '9'
  {
    (('0' as int) + d) as char
  }

  predicate IsDigits(s: string)
  {
    forall k | 0 <= k < |s| :: '0' <= s[k] <= '9'
  }

  /** The decimal spelling of an array index, as JavaScript uses it for property keys. */
  function DecimalString(n: nat): (r: string)
    ensures |r| >= 1 && IsDigits(r)
  {
    if n < 10 then [Digit(n)] else DecimalString(n / 10) + [Digit(n % 10)]
  }

  /** Distinct indexes have distinct keys, so spreading an array loses no element. */
  lemma {:induction false} DecimalStringInjective(a: nat, b: nat)
    requires DecimalString(a) == DecimalString(b)
    ensures a == b
  {
    if a < 10 && b < 10 {
      assert [Digit(a)] == [Digit(b)];
    } else if a >= 10 && b >= 10 {
      var ra, rb := DecimalString(a), DecimalString(b);
      assert ra == DecimalString(a / 10) + [Digit(a % 10)];
      assert rb == DecimalString(b / 10) + [Digit(b % 10)];
      assert DecimalString(a / 10) == ra[..|ra| - 1] == rb[..|rb| - 1] == DecimalString(b / 10);
      assert Digit(a % 10) == ra[|ra| - 1] == rb[|rb| - 1] == Digit(b % 10);
      DecimalStringInjective(a / 10, b / 10);
    }
  }

  /** `key` spells one of the indexes 0 .. n-1. */
  ghost predicate IsIndexKey(key: string, n: nat)
  {
    exists k | 0 <= k < n :: DecimalString(k) == key
  }

  /** The fields `{ ...xs }` gets from an array (or a string's characters): key "k" holds xs[k], and no other key exists. */
  function IndexedFields(xs: seq<Json>): (m: map<string, Json>)
    ensures forall k | 0 <= k < |xs| :: DecimalString(k) in m && m[DecimalString(k)] == xs[k]
    ensures forall key | key in m :: IsIndexKey(key, |xs|)
  {
    if xs == [] then map[]
    else
      var n := |xs| - 1;
      forall k | 0 <= k < n ensures DecimalString(k) != DecimalString(n) {
        if DecimalString(k) == DecimalString(n) {
          DecimalStringInjective(k, n);
        }
      }
      var init := IndexedFields(xs[..n]);
      var m := init[DecimalString(n) := xs[n]];
      assert forall k | 0 <= k < |xs| :: DecimalString(k) in m && m[DecimalString(k)] == xs[k] by {
        forall k | 0 <= k < |xs| ensures DecimalString(k) in m && m[DecimalString(k)] == xs[k] {
          if k < n {
            assert xs[..n][k] == xs[k];
          }
        }
      }
      assert forall key | key in m :: IsIndexKey(key, |xs|) by {
        forall key | key in m ensures IsIndexKey(key, |xs|) {
          if key == DecimalString(n) {
            assert DecimalString(n) == key;
          } else {
            assert IsIndexKey(key, n);
            var k :| 0 <= k < n && DecimalString(k) == key;
            assert DecimalString(k) == key;
          }
        }
      }
      m
  }

  /** The characters of a string as the one-character strings that spreading it produces. */
  function Chars(s: string): (cs: seq<Json>)
    ensures |cs| == |s| && forall k | 0 <= k < |s| :: cs[k] == JStr([s[k]])
  {
    seq(|s|, k requires 0 <= k < |s| => JStr([s[k]]))
  }

  /**
   * `{ ...v }`: an object is copied field by field; an array or a string gives one field per
   * index; null, booleans and numbers have no own enumerable fields and give `{}`.
   */
  function Spread(v: Json): (m: map<string, Json>)
    ensures v.JObj? ==> m == v.fields
    ensures v.JArr? ==> forall k | 0 <= k < |v.elems| :: DecimalString(k) in m && m[DecimalString(k)] == v.elems[k]
    ensures v.JArr? ==> forall key | key in m :: IsIndexKey(key, |v.elems|)
    ensures v.JStr? ==> forall k | 0 <= k < |v.s| :: DecimalString(k) in m && m[DecimalString(k)] == JStr([v.s[k]])
    ensures v.JStr? ==> forall key | key in m :: IsIndexKey(key, |v.s|)
    ensures (v.JNull? || v.JBool? || v.JNum?) ==> m == map[]
  {
    match v
    case JObj(fields) => fields
    case JArr(elems) => IndexedFields(elems)
    case JStr(s) => IndexedFields(Chars(s))
    case _ => map[]
  }
}
