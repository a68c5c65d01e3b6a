/**
 * The JavaScript values that cross the socket boundary (group ids, state
 * documents, event payloads), together with the two pieces of JavaScript
 * semantics the server relies on: truthiness, and the own enumerable
 * properties that `Object.assign` copies.  Numbers are mathematical integers.
 */
module JsValue {

  datatype Value =
    | Undefined
    | Null
    | Bool(b: bool)
    | Num(n: int)
    | Str(s: string)
    | Arr(items: seq<Value>)
    | Obj(fields: map<string, Value>)

  /** JavaScript truthiness: undefined, null, false, 0 and "" are falsy. */
  predicate Truthy(v: Value)
  {
    match v
    case Undefined => false
    case Null => false
    case Bool(b) => b
    case Num(n) => n != 0
    case Str(s) => s != ""
    case Arr(_) => true
    case Obj(_) => true
  }

  /** The falsy values are exactly undefined, null, false, 0 and the empty string. */
  lemma FalsyValues(v: Value)
    ensures !Truthy(v) <==> v in {Undefined, Null, Bool(false), Num(0), Str("")}
  {
  }

  function DigitChar(d: nat): (c: char)
    requires d < 10
    ensures '0' <= c <= '9'
  {
    ('0' as int + d) as char
  }

  /** The decimal spelling of a natural number, as `String(n)` gives it. */
  function NatToString(n: nat): string
  {
    if n < 10 then [DigitChar(n)] else NatToString(n / 10) + [DigitChar(n % 10)]
  }

  /**
   * The shape of a spelling: never empty, one digit exactly below ten, no
   * sign, and a leading '0' only for zero itself.
   */
  lemma {:induction false} NatToStringShape(n: nat)
    ensures |NatToString(n)| >= 1
    ensures |NatToString(n)| == 1 <==> n < 10
    ensures NatToString(n)[0] != '-'
    ensures NatToString(n)[0] == '0' <==> n == 0
    decreases n
  {
    if n >= 10 {
      NatToStringShape(n / 10);
    }
  }

  /** The decimal spelling of an integer, with a leading '-' when it is negative. */
  function IntToString(n: int): string
  {
    if n < 0 then "-" + NatToString(-n) else NatToString(n)
  }

  /** Different natural numbers are spelled differently. */
  lemma {:induction false} NatToStringInjective(a: nat, b: nat)
    requires NatToString(a) == NatToString(b)
    ensures a == b
    decreases a
  {
    var s := NatToString(a);
    NatToStringShape(a);
    NatToStringShape(b);
    if a < 10 || b < 10 {
      assert |s| == 1;
      assert [DigitChar(a)] == s == [DigitChar(b)];
    } else {
      var sa, sb := NatToString(a / 10), NatToString(b / 10);
      assert s == sa + [DigitChar(a % 10)] && s == sb + [DigitChar(b % 10)];
      assert sa == s[..|s| - 1] == sb;
      NatToStringInjective(a / 10, b / 10);
      assert DigitChar(a % 10) == s[|s| - 1] == DigitChar(b % 10);
    }
  }

  /** Different integers are spelled differently. */
  lemma IntToStringInjective(a: int, b: int)
    requires IntToString(a) == IntToString(b)
    ensures a == b
  {
    var s := IntToString(a);
    NatToStringShape(if a < 0 then -a else a);
    NatToStringShape(if b < 0 then -b else b);
    if a < 0 {
      assert "-" + NatToString(-a) == s == "-" + NatToString(-b);
      assert NatToString(-a) == s[1..] == NatToString(-b);
      NatToStringInjective(-a, -b);
    } else {
      NatToStringInjective(a, b);
    }
  }

  /**
   * The index-keyed properties "0", "1", ... of an array-like value.  No two
   * indices share a key, so there are exactly as many keys as elements.
   */
  function IndexedProps(xs: seq<Value>): (m: map<string, Value>)
    ensures IsIndexMap(m, xs)
    decreases |xs|
  {
    if xs == [] then map[]
    else
      var n := |xs| - 1;
      var init := IndexedProps(xs[..n]);
      IndexMapSnoc(init, xs);
      init[NatToString(n) := xs[n]]
  }

  /** `m` maps the spelling of each index of `xs`, and nothing else, to the element there, and has one key per element. */
  ghost predicate IsIndexMap(m: map<string, Value>, xs: seq<Value>)
  {
    && |m| == |xs|
    && (forall i :: 0 <= i < |xs| ==> NatToString(i) in m && m[NatToString(i)] == xs[i])
    && (forall k :: k in m ==> exists i :: 0 <= i < |xs| && k == NatToString(i))
  }

  /** Adding the last element under its index key extends an index map of the prefix. */
  lemma IndexMapSnoc(init: map<string, Value>, xs: seq<Value>)
    requires xs != [] && IsIndexMap(init, xs[..|xs| - 1])
    ensures IsIndexMap(init[NatToString(|xs| - 1) := xs[|xs| - 1]], xs)
  {
    var n := |xs| - 1;
    var m := init[NatToString(n) := xs[n]];
    forall i | 0 <= i < |xs| ensures NatToString(i) in m && m[NatToString(i)] == xs[i] {
      if i < n {
        if NatToString(i) == NatToString(n) {
          NatToStringInjective(i, n);
        }
        assert xs[..n][i] == xs[i];
      }
    }
    if NatToString(n) in init {
      var i :| 0 <= i < n && NatToString(n) == NatToString(i);
      NatToStringInjective(i, n);
    }
  }

  /** A string's characters, each as a one-character string. */
  function Characters(s: string): (cs: seq<Value>)
    ensures |cs| == |s| && forall i :: 0 <= i < |s| ==> cs[i] == Str([s[i]])
  {
    seq(|s|, i requires 0 <= i < |s| => Str([s[i]]))
  }

  /**
   * The own enumerable string-keyed properties of a value, which is what
   * `Object.assign` copies from a source: an object's fields, the elements of
   * an array and the characters of a string under their index, and nothing
   * for null, undefined, booleans and numbers.
   */
  function OwnProps(v: Value): map<string, Value>
  {
    match v
    case Obj(f) => f
    case Arr(items) => IndexedProps(items)
    case Str(s) => IndexedProps(Characters(s))
    case _ => map[]
  }
}
