/**
 * Runtime values as they sit in a `Dictionary<string, object?>` or an Azure `SearchDocument`:
 * each entry is a boxed object whose runtime type the retrieval code tests with `is`.
 */
module Values {
  import opened Wrappers
  import opened Text

  /** A `float`, carried as its IEEE-754 bit pattern and never computed with. */
  datatype Float = Float(bits: bv32)

  /** A vector field: a float list taken from the record, or the embedding generated for a text. */
  datatype Vector = Floats(items: seq<Float>) | Embedding(input: string)

  /** A `DateTimeOffset`, carried opaquely. */
  datatype Timestamp = Timestamp(ticks: int, offsetMinutes: int)

  /** A `Guid`; `GuidSource` below stands for `Guid.NewGuid()`. */
  datatype Guid = Guid(serial: nat)

  /** A boxed value; `Null` is a null reference or an empty `Nullable<T>`. */
  datatype Value =
    | Null
    | Str(s: string)
    | Int32(i: int32)
    | Int64(l: int64)
    | Date(t: Timestamp)
    | GuidValue(g: Guid)
    | Vec(v: Vector)

  /** A field map: `Dictionary<string, object?>` and `SearchDocument`. */
  type Document = map<string, Value>

  /** The outcome of a JSON deserialisation call. */
  datatype Deserialized<T> =
    | Throws          // the serializer raised an exception on malformed input
    | NullLiteral     // the input was the JSON literal `null`
    | Parsed(value: T)

  /** `TryGetValue(key, out var v)`: the stored value, or null when the key is absent. */
  function Lookup(doc: Document, key: string): Value {
    if key in doc then doc[key] else Null
  }

  function BoxString(x: Option<string>): Value {
    match x
    case None => Null
    case Some(s) => Str(s)
  }

  function BoxInt32(x: Option<int32>): Value {
    match x
    case None => Null
    case Some(i) => Int32(i)
  }

  function BoxInt64(x: Option<int64>): Value {
    match x
    case None => Null
    case Some(l) => Int64(l)
  }

  function BoxDate(x: Option<Timestamp>): Value {
    match x
    case None => Null
    case Some(t) => Date(t)
  }

  function BoxGuid(x: Option<Guid>): Value {
    match x
    case None => Null
    case Some(g) => GuidValue(g)
  }

  function BoxFloats(x: Option<seq<Float>>): Value {
    match x
    case None => Null
    case Some(v) => Vec(Floats(v))
  }

  /** The names are pairwise distinct, as a type's property names are. */
  predicate Distinct(names: seq<string>) {
    forall i, j | 0 <= i < j < |names| :: names[i] != names[j]
  }

  /** A name that is not yet listed keeps the list distinct. */
  lemma DistinctAppend(names: seq<string>, name: string)
    requires Distinct(names) && name !in names
    ensures Distinct(names + [name])
  {
    var extended := names + [name];
    forall i, j | 0 <= i < j < |extended| ensures extended[i] != extended[j] {
      assert extended[i] == names[i];
    }
  }

  /**
   * The reflection loop of the `ToDictionary` methods: for each property name in order, unless
   * `skip` rejects it, `result.Add(name, value(name))`. `Add` never meets a duplicate key because
   * property names are distinct, so every kept name ends up holding its own value.
   */
  method CollectProperties(names: seq<string>, value: string -> Value, skip: string -> bool) returns (d: Document)
    requires Distinct(names)
    ensures d.Keys == set name | name in names && !skip(name)
    ensures forall name | name in d :: d[name] == value(name)
  {
    d := map[];
    for i := 0 to |names|
      invariant d.Keys == set j | 0 <= j < i && !skip(names[j]) :: names[j]
      invariant forall name | name in d :: d[name] == value(name)
    {
      var name := names[i];
      if skip(name) {
        continue;
      }
      assert name !in d;
      d := d[name := value(name)];
    }
  }

  /** `Guid.NewGuid()`: each call hands out a value no earlier call of this source returned. */
  class GuidSource {
    var next: nat

    constructor ()
      ensures next == 0
    {
      next := 0;
    }

    method NewGuid() returns (g: Guid)
      modifies this
      ensures g == Guid(old(next)) && next == old(next) + 1
    {
      g := Guid(next);
      next := next + 1;
    }
  }
}
