/** The browser's `localStorage`, as an abstract key-to-string map. A write
    can fail (the storage is full or disabled); `setItem` then throws. */
module Browser {
  import opened Wrappers

  class LocalStorage {
    var items: map<string, string>
    /** Whether `setItem` currently succeeds; it throws otherwise. */
    var writable: bool

    constructor (initial: map<string, string>, writable: bool)
      ensures items == initial && this.writable == writable
    {
      items := initial;
      this.writable := writable;
    }

    /** `localStorage.getItem(key)`, `None` standing for `null`. */
    function GetItem(key: string): (r: Option<string>)
      reads this
      ensures r.Some? <==> key in items
      ensures r.Some? ==> r.value == items[key]
    {
      if key in items then Some(items[key]) else None
    }

    /** `localStorage.setItem(key, value)`; `ok` is false when it throws. */
    method SetItem(key: string, value: string) returns (ok: bool)
      modifies this`items
      ensures ok == writable
      ensures ok ==> items == old(items)[key := value]
      ensures !ok ==> items == old(items)
    {
      ok := writable;
      if ok {
        items := items[key := value];
      }
    }

    /** `localStorage.removeItem(key)` */
    method RemoveItem(key: string)
      modifies this`items
      ensures items == old(items) - {key}
    {
      items := items - {key};
    }
  }
}
