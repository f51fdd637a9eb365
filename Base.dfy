/**
 * Shared vocabulary of the model: Java's nullable references, the exceptions
 * the wrappers throw, the untyped values of a query map, JSON bodies, and the
 * map updates behind the four mutators of `BaseImplementation`
 * (addParam / addHeader are a single `put`, addParams / addHeaders a `putAll`).
 */
module Base {

  /** A Java reference that may be null: `None` is null. */
  datatype Option<+T> = None | Some(value: T)

  /** The unchecked exceptions raised by the wrappers' validations. A null
      message (`getMessage()` returning null) stands for the NullPointerException
      the JVM itself raises on a null dereference. */
  datatype Exception =
    | NullPointerException(message: Option<string>)
    | IllegalArgumentException(message: Option<string>)

  /** The result of a Java call that either returns a value or throws. */
  datatype Result<+T> = Success(value: T) | Failure(error: Exception)

  /** The result of a Java validation that returns nothing or throws. */
  datatype Outcome = Pass | Fail(error: Exception)

  /** A query-map value (`Object` in the source); opaque to the model. */
  datatype Value = Text(s: string) | Number(n: int) | Flag(b: bool)

  /** A JSON request body (`JSONObject` in the source); opaque to the model. */
  datatype JsonBody = JsonObject(fields: map<string, Value>)

  /** `HashMap.put`: the key is bound to the value, every other entry stays. */
  function Put<V>(m: map<string, V>, key: string, value: V): (r: map<string, V>)
    ensures r.Keys == m.Keys + {key}
    ensures key in r && r[key] == value
    ensures forall k :: k in m && k != key ==> r[k] == m[k]
  {
    m[key := value]
  }

  /** `HashMap.putAll`: every entry of `other` is copied in, and on a shared key
      the argument's value wins over the old one. */
  function PutAll<V>(m: map<string, V>, other: map<string, V>): (r: map<string, V>)
    ensures r.Keys == m.Keys + other.Keys
    ensures forall k :: k in other ==> r[k] == other[k]
    ensures forall k :: k in m && k !in other ==> r[k] == m[k]
  {
    m + other
  }
}
