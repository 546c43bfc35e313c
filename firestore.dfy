/**
 * The document store the onboarding screens and the profile list use:
 * collections of documents, each a map from field names to typed values.
 * Only the effect of `set` and `update` is modelled; whether the store
 * accepts a write is an input.
 */
module Firestore {
  import opened Wrappers

  datatype FieldValue =
    | StringField(s: string)
    | LongField(n: int)
    | DoubleField(d: real)
    | BoolField(b: bool)
    | NullField
    | OtherField   // timestamps, arrays, maps, references, blobs

  type Fields = map<string, FieldValue>

  datatype Document = Document(id: string, fields: Fields)

  /** A typed read of one field: `getString` / `getLong` return null for an
      absent or null field and throw for a value of another type. */
  datatype Read<T> = Absent | Present(v: T) | WrongType {
    function OrElse(default: T): T {
      if Present? then v else default
    }
  }

  function GetString(fields: Fields, name: string): (r: Read<string>)
    ensures r.Present? <==> name in fields && fields[name].StringField?
    ensures r.Present? ==> r.v == fields[name].s
    ensures r.WrongType? <==> name in fields && !(fields[name].StringField? || fields[name].NullField?)
  {
    if name !in fields then Absent
    else match fields[name]
      case StringField(s) => Present(s)
      case NullField => Absent
      case _ => WrongType
  }

  const LongMin: int := -0x8000_0000_0000_0000
  const LongMax: int := 0x7FFF_FFFF_FFFF_FFFF

  /** `Number.longValue()` of a `Double`: rounds toward zero and saturates
      at the ends of the `Long` range. */
  function DoubleToLong(d: real): (n: int)
    ensures LongMin <= n <= LongMax
    ensures LongMin as real <= d <= LongMax as real && d >= 0.0 ==> n as real <= d < n as real + 1.0
    ensures LongMin as real <= d <= LongMax as real && d < 0.0 ==> n as real - 1.0 < d <= n as real
    ensures d > LongMax as real ==> n == LongMax
    ensures d < LongMin as real ==> n == LongMin
  {
    if d >= LongMax as real then LongMax
    else if d <= LongMin as real then LongMin
    else if d >= 0.0 then d.Floor
    else -((-d).Floor)
  }

  /** `getLong` accepts any number: a long as itself, a double converted
      by `longValue()`. */
  function GetLong(fields: Fields, name: string): (r: Read<int>)
    ensures r.Present? <==> name in fields && (fields[name].LongField? || fields[name].DoubleField?)
    ensures name in fields && fields[name].LongField? ==> r == Present(fields[name].n)
    ensures name in fields && fields[name].DoubleField? ==> r == Present(DoubleToLong(fields[name].d))
    ensures r.WrongType? <==> name in fields && !(fields[name].LongField? || fields[name].DoubleField? || fields[name].NullField?)
  {
    if name !in fields then Absent
    else match fields[name]
      case LongField(n) => Present(n)
      case DoubleField(d) => Present(DoubleToLong(d))
      case NullField => Absent
      case _ => WrongType
  }

  class Db {
    var collections: map<string, map<string, Fields>>

    function Collection(name: string): map<string, Fields>
      reads this
    {
      if name in collections then collections[name] else map[]
    }

    /** `collection(c).document(id).set(fields)` once accepted: the document
        is replaced as a whole. */
    method Set(c: string, id: string, fields: Fields)
      modifies this
      ensures collections == old(collections)[c := old(Collection(c))[id := fields]]
    {
      collections := collections[c := Collection(c)[id := fields]];
    }

    /** `collection(c).document(id).update(fields)`: merges into an existing
        document; fails when the document does not exist or the store
        rejects the write. */
    method Update(c: string, id: string, fields: Fields, accepted: bool) returns (ok: bool)
      modifies this
      ensures ok == (accepted && id in old(Collection(c)))
      ensures ok ==> collections == old(collections)[c := old(Collection(c))[id := old(Collection(c))[id] + fields]]
      ensures !ok ==> collections == old(collections)
    {
      var docs := Collection(c);
      ok := accepted && id in docs;
      if ok {
        collections := collections[c := docs[id := docs[id] + fields]];
      }
    }
  }
}
