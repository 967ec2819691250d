// store.go: the cache that the watcher fills and the templates read.

module Storing {
  /** Dependency, view and template IDs are all plain strings in one namespace. */
  type Id = string

  /** A fetched payload. Only its identity matters to the code modelled here. */
  type Value = int

  datatype Option<+T> = None | Some(value: T)

  /** What a lookup of `id` in the cache map answers. */
  function Lookup(data: map<Id, Value>, id: Id): Option<Value> {
    if id in data then Some(data[id]) else None
  }

  class Store {
    var data: map<Id, Value>

    constructor ()
      ensures data == map[]
    {
      data := map[];
    }

    method Save(id: Id, value: Value)
      modifies this
      ensures data == old(data)[id := value]
    {
      data := data[id := value];
    }

    method Recall(id: Id) returns (found: Option<Value>)
      ensures found == Lookup(data, id)
    {
      found := if id in data then Some(data[id]) else None;
    }

    method Delete(id: Id)
      modifies this
      ensures data == old(data) - {id}
    {
      data := data - {id};
    }

    /** Deletes the keys one by one, as the source's range loop does. */
    method Reset()
      modifies this
      ensures data == map[]
    {
      while data.Keys != {}
        decreases data.Keys
      {
        var k :| k in data.Keys;
        data := data - {k};
      }
    }
  }
}
