/**
 * The Ruby values the launcher handles: decoded JSON documents, session entries and the
 * auth hash. Hash keys are strings, because both the Rack session and OmniAuth's auth hash
 * convert symbol keys to strings.
 */
module Values {
  import opened Wrappers

  datatype Value =
    | Nil
    | Bool(b: bool)
    | Int(i: int)
    | Str(s: string)
    | Arr(items: seq<Value>)
    | Hash(entries: map<string, Value>)

  /** The Ruby exceptions that can escape from the modelled code. */
  datatype Error =
    | NoMethodError          // a method called on a value that lacks it (`nil["x"]`)
    | TypeError              // `[]` with an argument of the wrong type (`[1]["x"]`)
    | NameError              // an undefined local variable
    | ArgumentError          // a call with the wrong number of arguments
    | KeyError(message: string)
    | AbstractMethodError(message: string)
    | ConformanceError(message: string)
    | TransportError         // the HTTP client raised (connection refused, timeout, ...)
    | ParseError             // the response body is not JSON
    | DecodeError            // the identity token could not be decoded

  /** Ruby truthiness: everything except `nil` and `false`. */
  predicate Truthy(v: Value) {
    !v.Nil? && v != Bool(false)
  }

  /** `a || b` in Ruby. */
  function Or(a: Value, b: Value): (r: Value)
    ensures Truthy(a) ==> r == a
    ensures !Truthy(a) ==> r == b
  {
    if Truthy(a) then a else b
  }

  /** A Ruby string or `nil`, as a value. */
  function FromOption(o: Option<string>): (v: Value)
    ensures v.Nil? <==> o.None?
    ensures o.Some? ==> v == Str(o.value)
  {
    match o
    case None => Nil
    case Some(s) => Str(s)
  }

  /** The name of the value's Ruby class, as `obj.class` prints it. */
  function ClassName(v: Value): string {
    match v
    case Nil => "NilClass"
    case Bool(b) => if b then "TrueClass" else "FalseClass"
    case Int(_) => "Integer"
    case Str(_) => "String"
    case Arr(_) => "Array"
    case Hash(_) => "Hash"
  }

  /** `t` occurs in `s` as a contiguous substring. */
  predicate Contains(s: string, t: string) {
    exists i :: 0 <= i <= |s| - |t| && t <= s[i..]
  }

  /** A value that `[]` with a string argument does not raise on. */
  predicate Indexable(v: Value) {
    v.Hash? || v.Str?
  }

  /**
   * Ruby's `v[key]` for a string key: a Hash answers the entry or `nil`; a String answers
   * the key itself when it occurs as a substring, else `nil`; `nil`, `true` and `false`
   * have no `[]`; Integer and Array refuse a string argument.
   */
  function Index(v: Value, key: string): (r: Result<Value, Error>)
    ensures r.Success? <==> Indexable(v)
    ensures v.Hash? ==> r == Success(if key in v.entries then v.entries[key] else Nil)
    ensures v.Str? ==> r == Success(if Contains(v.s, key) then Str(key) else Nil)
    ensures v.Nil? || v.Bool? ==> r == Failure(NoMethodError)
    ensures v.Int? || v.Arr? ==> r == Failure(TypeError)
  {
    match v
    case Hash(m) => Success(if key in m then m[key] else Nil)
    case Str(s) => Success(if Contains(s, key) then Str(key) else Nil)
    case Nil => Failure(NoMethodError)
    case Bool(_) => Failure(NoMethodError)
    case Int(_) => Failure(TypeError)
    case Arr(_) => Failure(TypeError)
  }

  /**
   * Ruby's `v[0]`: the first element of an Array or String (`nil` when empty), bit 0 of an
   * Integer, and `nil` for a Hash, whose keys are never the integer 0 here.
   */
  function At0(v: Value): (r: Result<Value, Error>)
    ensures r.Success? <==> !(v.Nil? || v.Bool?)
    ensures v.Arr? ==> r == Success(if |v.items| > 0 then v.items[0] else Nil)
    ensures v.Hash? ==> r == Success(Nil)
  {
    match v
    case Arr(items) => Success(if |items| > 0 then items[0] else Nil)
    case Str(s) => Success(if |s| > 0 then Str([s[0]]) else Nil)
    case Int(n) => Success(Int(n % 2))
    case Hash(_) => Success(Nil)
    case Nil => Failure(NoMethodError)
    case Bool(_) => Failure(NoMethodError)
  }

  /** Ruby's `v.has_key?(key)`, which only a Hash answers. */
  function HasKey(v: Value, key: string): (r: Result<bool, Error>)
    ensures r.Success? <==> v.Hash?
    ensures v.Hash? ==> (r.value <==> key in v.entries)
  {
    if v.Hash? then Success(key in v.entries) else Failure(NoMethodError)
  }

  /** Reading a map with Ruby semantics: an absent key reads as `nil`. */
  function Get(m: map<string, Value>, key: string): (v: Value)
    ensures key in m ==> v == m[key]
    ensures key !in m ==> v == Nil
  {
    if key in m then m[key] else Nil
  }

  /** One `name=value` pair of a query string or form body; a `nil` value renders as a bare name. */
  datatype Param = Param(name: string, value: Option<string>)

  /** The names of a parameter list, in order. */
  function Names(ps: seq<Param>): (ns: seq<string>)
    ensures |ns| == |ps|
    ensures forall i :: 0 <= i < |ps| ==> ns[i] == ps[i].name
  {
    seq(|ps|, i requires 0 <= i < |ps| => ps[i].name)
  }
}
