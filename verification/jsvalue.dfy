/** The JavaScript values that arrive as parsed JSON bodies, with the parts of
    the language the handlers use on them: truthiness, `||`, property and index
    access, optional chaining and conversion to a string in a template literal. */
module JsValue {
  import opened Wrappers

  datatype Value =
    | Undefined
    | Null
    | Bool(b: bool)
    | Num(n: int)
    | Str(s: string)
    | Arr(items: seq<Value>)
    | Obj(props: map<string, Value>)

  /** ToBoolean: `undefined`, `null`, `false`, `0` and `""` are falsy. */
  predicate Truthy(v: Value)
    ensures !Truthy(v) <==> v in {Undefined, Null, Bool(false), Num(0), Str("")}
  {
    match v
    case Undefined => false
    case Null => false
    case Bool(b) => b
    case Num(n) => n != 0
    case Str(s) => s != ""
    case _ => true
  }

  predicate Nullish(v: Value) {
    v.Undefined? || v.Null?
  }

  /** `a || b`: the left operand itself when truthy, otherwise the right one. */
  function Or(a: Value, b: Value): (r: Value)
    ensures Truthy(a) ==> r == a
    ensures !Truthy(a) ==> r == b
  {
    if Truthy(a) then a else b
  }

  /** A property key: a name (`v.name`) or an array index (`v[i]`). */
  datatype Key = Name(name: string) | Index(index: nat)

  function DigitChar(d: nat): char
    requires d < 10
  {
    "0123456789"[d]
  }

  /** The decimal numeral of a natural number, as Number::toString writes it. */
  function NatToDecimal(n: nat): (s: string)
    ensures |s| >= 1
    ensures forall k :: 0 <= k < |s| ==> '0' <= s[k] <= '9'
    decreases n
  {
    if n < 10 then [DigitChar(n)] else NatToDecimal(n / 10) + [DigitChar(n % 10)]
  }

  /** The number a decimal numeral denotes. */
  function DecimalValue(s: string): nat
    requires forall k :: 0 <= k < |s| ==> '0' <= s[k] <= '9'
  {
    if s == [] then 0 else 10 * DecimalValue(s[..|s| - 1]) + (s[|s| - 1] as int - '0' as int)
  }

  /** Writing a number in decimal loses nothing: the numeral reads back as the number. */
  lemma {:induction false} DecimalRoundTrip(n: nat)
    ensures DecimalValue(NatToDecimal(n)) == n
    decreases n
  {
    if n >= 10 {
      var s := NatToDecimal(n);
      assert s[..|s| - 1] == NatToDecimal(n / 10);
      DecimalRoundTrip(n / 10);
    }
  }

  function IntToDecimal(n: int): string {
    if n < 0 then "-" + NatToDecimal(-n) else NatToDecimal(n)
  }

  /** The property name a key denotes (`v[0]` looks up the property "0"). */
  function KeyString(k: Key): string {
    match k
    case Name(name) => name
    case Index(i) => NatToDecimal(i)
  }

  /** Property access `v[k]` on a value that is neither null nor undefined. An
      object yields its own property or undefined; an array its element at an
      index; a string the one-character string at an index; everything else,
      and any name on an array, string, boolean or number, yields undefined. */
  function Get(v: Value, k: Key): (r: Value)
    requires !Nullish(v)
    ensures v.Obj? ==> r == if KeyString(k) in v.props then v.props[KeyString(k)] else Undefined
    ensures v.Arr? && k.Index? && k.index < |v.items| ==> r == v.items[k.index]
    ensures (v.Bool? || v.Num? || k.Name?) && !v.Obj? ==> r == Undefined
  {
    match v
    case Obj(m) => if KeyString(k) in m then m[KeyString(k)] else Undefined
    case Arr(xs) => if k.Index? && k.index < |xs| then xs[k.index] else Undefined
    case Str(s) => if k.Index? && k.index < |s| then Str([s[k.index]]) else Undefined
    case _ => Undefined
  }

  /** Optional chaining `v?.[k]` / `v?.name`: undefined when `v` is nullish. */
  function OptGet(v: Value, k: Key): (r: Value)
    ensures Nullish(v) ==> r == Undefined
    ensures !Nullish(v) ==> r == Get(v, k)
  {
    if Nullish(v) then Undefined else Get(v, k)
  }

  /** A chain of optional accesses `v?.[k0]?.[k1]...`. */
  function OptPath(v: Value, path: seq<Key>): (r: Value)
    ensures path == [] ==> r == v
    ensures |path| == 1 ==> r == OptGet(v, path[0])
    decreases |path|
  {
    if path == [] then v else OptPath(OptGet(v, path[0]), path[1..])
  }

  /** Once the chain reaches a nullish link, the whole chain is undefined. */
  lemma {:induction false} OptPathShortCircuits(v: Value, path: seq<Key>)
    requires Nullish(v) && path != []
    ensures OptPath(v, path) == Undefined
    decreases |path|
  {
    if |path| > 1 {
      OptPathShortCircuits(OptGet(v, path[0]), path[1..]);
    }
  }

  /** A chain through a longer path is the chain through its first part,
      continued. */
  lemma {:induction false} OptPathAppend(v: Value, p: seq<Key>, q: seq<Key>)
    ensures OptPath(v, p + q) == OptPath(OptPath(v, p), q)
    decreases |p|
  {
    if p == [] {
      assert p + q == q;
    } else {
      assert (p + q)[0] == p[0] && (p + q)[1..] == p[1..] + q;
      OptPathAppend(OptGet(v, p[0]), p[1..], q);
    }
  }

  function JoinWithCommas(parts: seq<string>): string
    decreases |parts|
  {
    if parts == [] then ""
    else if |parts| == 1 then parts[0]
    else parts[0] + "," + JoinWithCommas(parts[1..])
  }

  /** ToString, as a template literal `${v}` applies it, or None where it
      throws a TypeError. A parsed JSON object has no callable members, so an
      object with its own `toString` member finds neither a callable
      `toString` nor a `valueOf` that yields a primitive, and throws; any
      other object prints as "[object Object]". Arrays are joined with commas
      (null and undefined elements as empty strings) and throw when an element
      does. Numbers are integers here. */
  function ToString(v: Value): (r: Option<string>)
    ensures v.Str? ==> r == Some(v.s)
    ensures v.Num? && v.n >= 0 ==> r == Some(NatToDecimal(v.n))
    ensures v == Undefined ==> r == Some("undefined")
    ensures v == Null ==> r == Some("null")
    ensures v.Obj? ==> (r.None? <==> "toString" in v.props)
    ensures v.Obj? && r.Some? ==> r.value == "[object Object]"
    ensures v.Arr? ==>
      (r.None? <==> exists i :: 0 <= i < |v.items| && !Nullish(v.items[i]) && ToString(v.items[i]).None?)
    ensures r.None? ==> v.Obj? || v.Arr?
    decreases v
  {
    match v
    case Undefined => Some("undefined")
    case Null => Some("null")
    case Bool(b) => Some(if b then "true" else "false")
    case Num(n) => Some(IntToDecimal(n))
    case Str(s) => Some(s)
    case Arr(xs) =>
      var parts := seq(|xs|, i requires 0 <= i < |xs| => if Nullish(xs[i]) then Some("") else ToString(xs[i]));
      assert forall i :: 0 <= i < |xs| ==> (parts[i].None? <==> !Nullish(xs[i]) && ToString(xs[i]).None?);
      if exists i :: 0 <= i < |parts| && parts[i].None? then None
      else Some(JoinWithCommas(seq(|parts|, i requires 0 <= i < |parts| => if parts[i].Some? then parts[i].value else "")))
    case Obj(m) => if "toString" in m then None else Some("[object Object]")
  }
}
