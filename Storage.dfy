/** The device key-value store the application keeps its session in
    (expo-secure-store): string keys to string values. When the store is not
    available every call throws; a value that is not a string is refused. */
module Storage {
  import opened Wrappers
  import opened Json

  datatype StoreError = Unavailable | InvalidValue

  class SecureStore {
    var entries: map<string, string>
    var available: bool

    constructor(entries: map<string, string>, available: bool)
      ensures this.entries == entries && this.available == available
    {
      this.entries := entries;
      this.available := available;
    }

    /** `getItemAsync(key)`: the stored string, or None (null) for a missing
        key. */
    method GetItem(key: string) returns (r: Result<Option<string>, StoreError>)
      ensures !available <==> r.Err?
      ensures r.Ok? ==> (r.value.Some? <==> key in entries)
      ensures r.Ok? && r.value.Some? ==> r.value.value == entries[key]
    {
      if !available {
        return Err(Unavailable);
      }
      if key in entries {
        return Ok(Some(entries[key]));
      }
      return Ok(None);
    }

    /** `setItemAsync(key, value)`. */
    method SetItem(key: string, value: Json) returns (r: Result<(), StoreError>)
      modifies this`entries
      ensures r.Ok? <==> available && value.JStr?
      ensures r.Err? ==> r.error == if !available then Unavailable else InvalidValue
      ensures r.Ok? ==> entries == old(entries)[key := value.s]
      ensures r.Err? ==> entries == old(entries)
    {
      if !available {
        return Err(Unavailable);
      }
      if !value.JStr? {
        return Err(InvalidValue);
      }
      entries := entries[key := value.s];
      return Ok(());
    }

    /** `deleteItemAsync(key)`. */
    method DeleteItem(key: string) returns (r: Result<(), StoreError>)
      modifies this`entries
      ensures r.Ok? <==> available
      ensures r.Ok? ==> entries == old(entries) - {key}
      ensures r.Err? ==> entries == old(entries)
    {
      if !available {
        return Err(Unavailable);
      }
      entries := entries - {key};
      return Ok(());
    }
  }
}
