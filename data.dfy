/** Values shared by every part of the ORM model: the Python values a record
    stores, rows as the dictionary cursor returns them, and the exceptions the
    core raises. */
module Data {

  datatype Option<+T> = None | Some(value: T)

  /** Python exceptions the record code can raise. */
  datatype Error =
    | AttributeError(attribute: string)   // Model.__getattr__ on a missing key
    | KeyError(key: string)               // __mappings__[key] on an unmapped key
    | TypeError(detail: string)           // iterating a value that is not iterable

  datatype Result<+T> = Ok(value: T) | Err(error: Error)

  /** A Python value held by a record; `Null` is Python's None. */
  datatype Value = Null | Str(text: string) | Int(number: int) | Bool(flag: bool)

  /** A row as aiomysql's DictCursor returns it: column name to value. */
  type Row = map<string, Value>

  /** `getattr(record, key, None)` on a dict-backed record: the stored value,
      or None when the key is absent. */
  function Lookup(store: map<string, Value>, key: string): Value
  {
    if key in store then store[key] else Null
  }

  /** Python truthiness of a value that is either None or a string. */
  predicate Truthy(s: Option<string>)
  {
    s.Some? && s.value != ""
  }
}
