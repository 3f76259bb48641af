/** Parsed JSON values as the controller sees them through Rails `params`,
    with the parts of Ruby's semantics the controller relies on: truthiness,
    ActiveSupport's `blank?`/`present?`, `x[key]`, `x[0]`, and the exceptions
    those raise. */
module Json {

  datatype Value =
    | Null
    | Bool(truth: bool)
    | Int(n: int)
    | Str(text: string)
    | Arr(elems: seq<Value>)
    | Obj(fields: map<string, Value>)

  datatype Option<+T> = None | Some(value: T)

  /** The Ruby exceptions the controller can raise. */
  datatype RubyError = NoMethodError | TypeError | KeyError | ArgumentError

  /** A Ruby computation that either yields a value or raises. */
  datatype Result<+T> = Ok(value: T) | Raise(error: RubyError) {
    predicate IsFailure() { Raise? }

    function PropagateFailure<U>(): Result<U>
      requires Raise?
    {
      Raise(error)
    }

    function Extract(): T
      requires Ok?
    {
      value
    }
  }

  /** Ruby truthiness: only `nil` and `false` are falsy. */
  predicate Truthy(v: Value) {
    !(v.Null? || v == Bool(false))
  }

  /** The characters of the POSIX class [[:space:]] on Unicode strings. */
  predicate IsSpace(c: char) {
    c == ' ' || ('\t' <= c <= '\r') || c == '\U{85}' || c == '\U{A0}' || c == '\U{1680}'
    || ('\U{2000}' <= c <= '\U{200A}') || c == '\U{2028}' || c == '\U{2029}'
    || c == '\U{202F}' || c == '\U{205F}' || c == '\U{3000}'
  }

  /** ActiveSupport's `blank?`: nil, false, a whitespace-only string and
      an empty array or hash are blank; numbers and true never are. */
  predicate Blank(v: Value)
    ensures !Truthy(v) ==> Blank(v)
    ensures v.Int? || v == Bool(true) ==> !Blank(v)
    ensures v == Str("") || v == Arr([]) || v == Obj(map[]) ==> Blank(v)
    ensures v.Str? && (exists i :: 0 <= i < |v.text| && !IsSpace(v.text[i])) ==> !Blank(v)
  {
    match v
    case Null => true
    case Bool(b) => !b
    case Int(_) => false
    case Str(s) => forall i :: 0 <= i < |s| ==> IsSpace(s[i])
    case Arr(xs) => |xs| == 0
    case Obj(m) => |m| == 0
  }

  /** ActiveSupport's `present?`; a present value is always truthy. */
  predicate Present(v: Value)
    ensures Present(v) ==> Truthy(v)
    ensures Present(v) <==> !Blank(v)
  {
    !Blank(v)
  }

  /** `k` occurs in `s` starting at position `i`. */
  ghost predicate OccursAt(s: string, k: string, i: int) {
    0 <= i <= |s| - |k| && s[i..i + |k|] == k
  }

  /** Whether `k` occurs in `s` as a contiguous substring. */
  function Contains(s: string, k: string): (b: bool)
    ensures b <==> exists i :: OccursAt(s, k, i)
  {
    if |k| <= |s| && s[..|k|] == k then
      assert OccursAt(s, k, 0);
      true
    else if |s| <= |k| then
      false
    else
      var b := Contains(s[1..], k);
      assert forall i :: OccursAt(s[1..], k, i) ==> OccursAt(s, k, i + 1);
      assert forall i :: OccursAt(s, k, i) ==> i > 0 && OccursAt(s[1..], k, i - 1);
      b
  }

  /** Ruby's `v[key]` with a String key: a Hash looks the key up (nil when
      absent), a String answers the key when it is a substring of it,
      nil and booleans have no `[]`, and Arrays and Integers refuse a
      String index. */
  function Index(v: Value, key: string): (r: Result<Value>)
    ensures r.Ok? <==> v.Obj? || v.Str?
    ensures v.Obj? ==> r == Ok(if key in v.fields then v.fields[key] else Null)
    ensures v.Str? ==> r == Ok(if exists i :: OccursAt(v.text, key, i) then Str(key) else Null)
    ensures v.Null? || v.Bool? ==> r == Raise(NoMethodError)
    ensures v.Int? || v.Arr? ==> r == Raise(TypeError)
  {
    match v
    case Obj(m) => Ok(if key in m then m[key] else Null)
    case Str(s) => Ok(if Contains(s, key) then Str(key) else Null)
    case Null => Raise(NoMethodError)
    case Bool(_) => Raise(NoMethodError)
    case Int(_) => Raise(TypeError)
    case Arr(_) => Raise(TypeError)
  }

  /** Ruby's `v[:key]` with a Symbol key, as the actions index `params`:
      a Hash (a Rails parameter hash, whose keys are indifferent to String
      or Symbol) looks the key up; a String, Array or Integer refuses a
      Symbol index; nil and booleans have no `[]`. */
  function IndexSym(v: Value, key: string): (r: Result<Value>)
    ensures r.Ok? <==> v.Obj?
    ensures v.Obj? ==> r == Index(v, key)
    ensures v.Str? || v.Arr? || v.Int? ==> r == Raise(TypeError)
    ensures v.Null? || v.Bool? ==> r == Raise(NoMethodError)
  {
    match v
    case Obj(m) => Ok(if key in m then m[key] else Null)
    case Null => Raise(NoMethodError)
    case Bool(_) => Raise(NoMethodError)
    case _ => Raise(TypeError)
  }

  /** Ruby's `v[0]`: the first element of an Array, the first character of
      a String, bit 0 of an Integer, and nil for a Hash (whose keys are
      strings). */
  function At0(v: Value): (r: Result<Value>)
    ensures r.Raise? <==> v.Null? || v.Bool?
    ensures r.Raise? ==> r.error == NoMethodError
    ensures v.Arr? ==> r == Ok(if |v.elems| > 0 then v.elems[0] else Null)
    ensures v.Str? ==> r == Ok(if |v.text| > 0 then Str(v.text[..1]) else Null)
    ensures v.Int? ==> r.Ok? && r.value.Int? && 0 <= r.value.n <= 1 && (r.value.n == 0 <==> v.n % 2 == 0)
    ensures v.Obj? ==> r == Ok(Null)
  {
    match v
    case Arr(xs) => Ok(if |xs| > 0 then xs[0] else Null)
    case Str(s) => Ok(if |s| > 0 then assert s[..1] == [s[0]]; Str([s[0]]) else Null)
    case Int(n) => Ok(Int(n % 2))
    case Obj(_) => Ok(Null)
    case Null => Raise(NoMethodError)
    case Bool(_) => Raise(NoMethodError)
  }

  /** Whether `v[key]` returns rather than raises; it depends on the
      receiver's class only. */
  lemma IndexFailsByClass(v: Value, k1: string, k2: string)
    ensures Index(v, k1).Ok? <==> Index(v, k2).Ok?
    ensures Index(v, k1).Raise? ==> Index(v, k1) == Index(v, k2)
  {
  }
}
