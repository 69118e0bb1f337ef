/**
 * The slice of JavaScript's value semantics that the request/response
 * pipeline relies on: JSON-like values, truthiness (`||`, `?:`, `!`),
 * property reads, and object spread (`{...a, ...b}`).
 *
 * `undefined` is not a value here: a property that is `undefined` is a key
 * that is absent, so reads return `Option<Value>` and writing `undefined`
 * removes the key. This matches what every later read and `JSON.stringify`
 * observe.
 */
module Js {

  datatype Option<+T> = None | Some(value: T)

  datatype Result<+T, +E> = Ok(value: T) | Err(error: E)

  /** Host objects that are not plain data. */
  datatype NativeKind =
    | Function(id: nat)        // a caller-supplied function (such as `onFetch`)
    | FormData(hasFile: bool)  // a FormData; `hasFile` says whether its 'file' entry is a File
    | ResponseObject           // the native `Response` returned by `fetch`
    | OtherObject(tag: string) // any other host object (Headers, URLSearchParams, ...)

  datatype Value =
    | Null
    | Bool(b: bool)
    | Num(n: int)
    | Str(s: string)
    | Arr(items: seq<Value>)
    | Obj(fields: map<string, Value>)
    | ErrorObject(name: Value, message: Value)
    | Native(kind: NativeKind)

  /** A plain object: its own enumerable properties. */
  type Fields = map<string, Value>

  /** The TypeError the engine throws; only its name is fixed, the message is illustrative. */
  function TypeError(message: string): Value {
    ErrorObject(Str("TypeError"), Str(message))
  }

  /** JavaScript truthiness, `undefined` included (as None). */
  predicate Truthy(v: Option<Value>) {
    match v
    case None => false
    case Some(Null) => false
    case Some(Bool(b)) => b
    case Some(Num(n)) => n != 0
    case Some(Str(s)) => s != ""
    case Some(_) => true
  }

  /** `a || b` */
  function Or(a: Option<Value>, b: Value): (r: Value)
    ensures Truthy(a) ==> Some(r) == a
    ensures !Truthy(a) ==> r == b
  {
    if Truthy(a) then a.value else b
  }

  /** `v === null || v === undefined`: reading a property of it, or destructuring it, throws a TypeError. */
  predicate Nullish(v: Option<Value>) {
    v == None || v == Some(Null)
  }

  /** `m[k]`, with `undefined` for a missing key. */
  function Get(m: Fields, k: string): Option<Value> {
    if k in m then Some(m[k]) else None
  }

  /** `{...m, [k]: v}`: writing `undefined` leaves the key absent. */
  function Put(m: Fields, k: string, v: Option<Value>): (r: Fields)
    ensures Get(r, k) == v
    ensures forall j :: j != k ==> Get(r, j) == Get(m, j)
    ensures r.Keys == if v.Some? then m.Keys + {k} else m.Keys - {k}
  {
    match v
    case Some(x) => m[k := x]
    case None => m - {k}
  }

  /** `{...head, ...rest}` where `rest` holds the fields of `m` not named in `read`: those win over the head. */
  function WithRest(head: Fields, m: Fields, read: set<string>): (r: Fields)
    ensures forall k :: k in read ==> Get(r, k) == Get(head, k)
    ensures forall k :: k !in read ==> Get(r, k) == if k in m then Some(m[k]) else Get(head, k)
  {
    head + (m - read)
  }

  // ---------- array index keys ----------

  function Digit(d: nat): (c: char)
    requires d < 10
    ensures '0' <= c <= '9'
  {
    (48 + d) as char
  }

  predicate IsDigits(s: string) {
    |s| > 0 && forall i :: 0 <= i < |s| ==> '0' <= s[i] <= '9'
  }

  /** The decimal property key of an array index, as `String(i)` writes it. */
  function NatToString(n: nat): (s: string)
    ensures IsDigits(s)
    decreases n
  {
    if n < 10 then [Digit(n)] else NatToString(n / 10) + [Digit(n % 10)]
  }

  function ParseNat(s: string): nat
    requires IsDigits(s)
    decreases |s|
  {
    var last := (s[|s| - 1] as int - 48) as nat;
    if |s| == 1 then last else 10 * ParseNat(s[..|s| - 1]) + last
  }

  lemma {:induction false} ParseNatToString(n: nat)
    ensures ParseNat(NatToString(n)) == n
    decreases n
  {
    if n >= 10 {
      var a := NatToString(n / 10);
      var s := a + [Digit(n % 10)];
      assert s[..|s| - 1] == a;
      ParseNatToString(n / 10);
    }
  }

  lemma NatToStringInjective()
    ensures forall i: nat, j: nat :: NatToString(i) == NatToString(j) ==> i == j
  {
    forall i: nat, j: nat | NatToString(i) == NatToString(j) ensures i == j {
      ParseNatToString(i);
      ParseNatToString(j);
    }
  }

  /** The own enumerable properties of an array-like: "0", "1", ... */
  function Indexed(xs: seq<Value>): (m: Fields)
    ensures forall k :: k in m ==> IsDigits(k)
    decreases |xs|
  {
    if xs == [] then map[] else Indexed(xs[..|xs| - 1])[NatToString(|xs| - 1) := xs[|xs| - 1]]
  }

  lemma {:induction false} IndexedAt(xs: seq<Value>, i: nat)
    requires i < |xs|
    ensures Get(Indexed(xs), NatToString(i)) == Some(xs[i])
    decreases |xs|
  {
    if i < |xs| - 1 {
      NatToStringInjective();
      assert NatToString(i) != NatToString(|xs| - 1);
      IndexedAt(xs[..|xs| - 1], i);
    }
  }

  lemma {:induction false} IndexedKeys(xs: seq<Value>, k: string)
    requires k in Indexed(xs)
    ensures exists i :: 0 <= i < |xs| && k == NatToString(i)
    decreases |xs|
  {
    if k != NatToString(|xs| - 1) {
      IndexedKeys(xs[..|xs| - 1], k);
      var i :| 0 <= i < |xs| - 1 && k == NatToString(i);
    }
  }

  function Characters(s: string): (cs: seq<Value>)
    ensures |cs| == |s| && forall i :: 0 <= i < |s| ==> cs[i] == Str([s[i]])
  {
    seq(|s|, i requires 0 <= i < |s| => Str([s[i]]))
  }

  // ---------- spread and property reads ----------

  /**
   * The own enumerable properties copied by `{...v}` (and by an object rest
   * pattern): a plain object's fields, the indices of an array or a string,
   * and nothing for `undefined`, `null`, booleans, numbers, errors (whose
   * `name` and `message` are not enumerable) and host objects.
   */
  function Spread(v: Option<Value>): Fields {
    match v
    case Some(Obj(m)) => m
    case Some(Arr(xs)) => Indexed(xs)
    case Some(Str(s)) => Indexed(Characters(s))
    case _ => map[]
  }

  /** `Object.keys(v)` as a set. */
  function ObjectKeys(v: Value): set<string> {
    Spread(Some(v)).Keys
  }

  /** `v[k]` for a value that is neither null nor undefined (own properties only). */
  function Prop(v: Value, k: string): Option<Value> {
    match v
    case Obj(m) => Get(m, k)
    case Arr(xs) => if k == "length" then Some(Num(|xs|)) else Get(Indexed(xs), k)
    case Str(s) => if k == "length" then Some(Num(|s|)) else Get(Indexed(Characters(s)), k)
    case ErrorObject(n, msg) => if k == "name" then Some(n) else if k == "message" then Some(msg) else None
    case _ => None
  }

  /** A non-numeric key such as "status" or "entity" is never an array index. */
  predicate NamedKey(k: string) {
    exists i :: 0 <= i < |k| && !('0' <= k[i] <= '9')
  }

  lemma {:induction false} FalsySpreadsToNothing(v: Option<Value>)
    requires !Truthy(v)
    ensures Spread(v) == map[]
  {
    match v
    case None =>
    case Some(x) =>
      match x
      case Str(s) =>
        assert s == "";
        assert Indexed(Characters(s)) == map[] by {
          forall k | k in Indexed(Characters(s)) ensures false {
            IndexedKeys(Characters(s), k);
          }
        }
      case _ =>
  }

  /** `{...(v || {})}` copies exactly what `{...v}` copies: the `|| {}` guard changes nothing. */
  lemma SpreadOrEmpty(v: Option<Value>)
    ensures Spread(Some(Or(v, Obj(map[])))) == Spread(v)
  {
    if !Truthy(v) {
      FalsySpreadsToNothing(v);
    }
  }

  /** Reading a named (non-index) property of an array or string gives `undefined`. */
  lemma NamedPropOfArrayLike(v: Value, k: string)
    requires v.Arr? || v.Str?
    requires NamedKey(k) && k != "length"
    ensures Prop(v, k) == None
    ensures k !in Spread(Some(v))
  {
  }

  /** A spread array keeps every element under its index key. */
  lemma SpreadArrayAt(xs: seq<Value>, i: nat)
    requires i < |xs|
    ensures Get(Spread(Some(Arr(xs))), NatToString(i)) == Some(xs[i])
  {
    IndexedAt(xs, i);
  }
}
