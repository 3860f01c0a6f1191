/** Attribute values of a model instance and their JSON form. */
module Values {

  /** A value an attribute can hold. `Undefined` is the "unset" marker: an
      attribute set to it reads back as unset. `Record` stands for a nested
      model instance, held by its own attributes. */
  datatype Value =
    | Undefined
    | Null
    | Bool(b: bool)
    | Num(n: int)
    | Str(s: string)
    | Record(fields: map<string, Value>)

  /** An instance's attribute store: attribute name to current value. */
  type Attrs = map<string, Value>

  /** The current value of `name`; an attribute never stored reads as `Undefined`. */
  function Get(attrs: Attrs, name: string): Value
  {
    if name in attrs then attrs[name] else Undefined
  }

  /** `has(name)`: the attribute holds something other than `Undefined`. */
  predicate Has(attrs: Attrs, name: string)
  {
    Get(attrs, name) != Undefined
  }

  /** JavaScript truthiness of a value (`if (!user.name())` in a validator). */
  predicate Truthy(v: Value)
  {
    match v
    case Undefined => false
    case Null => false
    case Bool(b) => b
    case Num(n) => n != 0
    case Str(s) => s != ""
    case Record(_) => true
  }

  /** A plain JSON value, as `toJSON()` produces it. */
  datatype Json =
    | JNull
    | JBool(b: bool)
    | JNum(n: int)
    | JStr(s: string)
    | JObject(members: map<string, Json>)

  /** The names in `attrs` that hold a value other than `Undefined`. */
  function Present(attrs: Attrs): set<string>
  {
    set k | k in attrs && attrs[k] != Undefined
  }

  /** JSON of a defined value; a nested instance becomes an object of its own
      defined attributes. */
  function Encode(v: Value): (j: Json)
    requires v != Undefined
    ensures v == Null <==> j == JNull
    ensures v.Record? <==> j.JObject?
    ensures v.Record? ==> j.members.Keys == Present(v.fields)
  {
    match v
    case Null => JNull
    case Bool(b) => JBool(b)
    case Num(n) => JNum(n)
    case Str(s) => JStr(s)
    case Record(f) => JObject(map k | k in f && f[k] != Undefined :: Encode(f[k]))
  }

  /** `toJSON()` of an instance whose attribute store is `attrs`: every
      attribute that is not `Undefined`, with `Null` kept as JSON null. */
  function ToJson(attrs: Attrs): (j: map<string, Json>)
    ensures j.Keys == Present(attrs)
    ensures forall k :: k in j ==> (j[k] == JNull <==> attrs[k] == Null)
  {
    Encode(Record(attrs)).members
  }

  /** Reading JSON back into values. */
  function Decode(j: Json): (v: Value)
    ensures v != Undefined
  {
    match j
    case JNull => Null
    case JBool(b) => Bool(b)
    case JNum(n) => Num(n)
    case JStr(s) => Str(s)
    case JObject(m) => Record(map k | k in m :: Decode(m[k]))
  }

  /** The value with every `Undefined` member of a nested record dropped: what
      survives a trip through JSON. */
  function Compact(v: Value): (c: Value)
    requires v != Undefined
    ensures c != Undefined
  {
    match v
    case Record(f) => Record(map k | k in f && f[k] != Undefined :: Compact(f[k]))
    case _ => v
  }

  /** No `Undefined` anywhere inside the value. */
  predicate Settled(v: Value)
  {
    v != Undefined && (v.Record? ==> forall k :: k in v.fields ==> Settled(v.fields[k]))
  }

  /** Decoding an encoded value gives back the value minus its undefined members. */
  lemma {:induction false} DecodeEncode(v: Value)
    requires v != Undefined
    ensures Decode(Encode(v)) == Compact(v)
  {
    match v
    case Record(f) =>
      var m := Encode(v).members;
      forall k | k in m
        ensures Decode(m[k]) == Compact(f[k])
      {
        DecodeEncode(f[k]);
      }
      assert Decode(Encode(v)).fields == Compact(v).fields;
    case _ =>
  }

  /** Encoding a decoded JSON value gives back the same JSON. */
  lemma {:induction false} EncodeDecode(j: Json)
    ensures Encode(Decode(j)) == j
  {
    match j
    case JObject(m) =>
      var f := Decode(j).fields;
      forall k | k in m
        ensures Encode(f[k]) == m[k]
      {
        EncodeDecode(m[k]);
      }
      assert Encode(Decode(j)).members == m;
    case _ =>
  }

  /** A value without undefined members is unchanged by compaction. */
  lemma {:induction false} CompactSettled(v: Value)
    requires Settled(v)
    ensures Compact(v) == v
  {
    match v
    case Record(f) =>
      forall k | k in f
        ensures Compact(f[k]) == f[k]
      {
        CompactSettled(f[k]);
      }
      assert Compact(v).fields == f;
    case _ =>
  }

  /** `toJSON()` round trip: reading the JSON of an instance back yields exactly
      its defined attributes, each compacted; for settled values (no nested
      undefined) the attributes themselves. */
  lemma ToJsonRoundTrip(attrs: Attrs)
    ensures Decode(JObject(ToJson(attrs))).fields.Keys == Present(attrs)
    ensures forall k :: k in Present(attrs) ==>
              Decode(JObject(ToJson(attrs))).fields[k] == Compact(attrs[k])
    ensures (forall k :: k in Present(attrs) ==> Settled(attrs[k])) ==>
              forall k :: k in Present(attrs) ==> Decode(JObject(ToJson(attrs))).fields[k] == attrs[k]
  {
    DecodeEncode(Record(attrs));
    forall k | k in Present(attrs) && Settled(attrs[k])
      ensures Compact(attrs[k]) == attrs[k]
    {
      CompactSettled(attrs[k]);
    }
  }
}
