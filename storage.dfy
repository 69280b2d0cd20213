/** AsyncStorage, the device's persistent key-value store, as a map from keys to
    string values that its methods update in place. */
module Storage {
  import opened Js

  /** `getItem`: the stored value, or None (`null`) when the key is absent. */
  function Lookup(items: map<string, string>, key: string): (r: Option<string>)
    ensures r.Some? <==> key in items
    ensures r.Some? ==> r.value == items[key]
  {
    if key in items then Some(items[key]) else None
  }

  /** The error AsyncStorage gives when asked to store something that is not a string. */
  const NOT_A_STRING: Exception :=
    Exception(PlainError, "[AsyncStorage] Passing null/undefined as value is not supported.")

  class AsyncStorage {
    var items: map<string, string>

    constructor (initial: map<string, string>)
      ensures items == initial
    {
      items := initial;
    }

    method GetItem(key: string) returns (v: Option<string>)
      ensures v == Lookup(items, key)
    {
      v := Lookup(items, key);
    }

    method SetItem(key: string, value: string)
      modifies this
      ensures items == old(items)[key := value]
    {
      items := items[key := value];
    }

    /** `setItem(key, v)` where v was read out of a JSON body: only a string is stored;
        anything else is refused with an error and the store is left as it was. */
    method SetValue(key: string, v: Value) returns (err: Option<Exception>)
      modifies this
      ensures v.JStr? ==> err == None && items == old(items)[key := v.s]
      ensures !v.JStr? ==> err == Some(NOT_A_STRING) && items == old(items)
    {
      if v.JStr? {
        items := items[key := v.s];
        err := None;
      } else {
        err := Some(NOT_A_STRING);
      }
    }

    method RemoveItem(key: string)
      modifies this
      ensures items == old(items) - {key}
    {
      items := items - {key};
    }

    method MultiRemove(keys: set<string>)
      modifies this
      ensures items == old(items) - keys
    {
      items := items - keys;
    }
  }
}
