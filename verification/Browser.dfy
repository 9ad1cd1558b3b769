/**
 * The browser services the pages touch: window.localStorage as an in-memory string map, the
 * router's navigate(), and the toasts and modals antd shows. Each records what happened so
 * that the pages' contracts can state it.
 */
module Browser {
  import opened Wrappers

  /** window.localStorage */
  class LocalStorage {
    var items: map<string, string>

    constructor (items: map<string, string>)
      ensures this.items == items
    {
      this.items := items;
    }

    /** getItem(key): null when the key is absent. */
    function GetItem(key: string): (r: Option<string>)
      reads this
      ensures r.Some? <==> key in items
      ensures r.Some? ==> r.value == items[key]
    {
      if key in items then Some(items[key]) else None
    }

    method SetItem(key: string, value: string)
      modifies this
      ensures items == old(items)[key := value]
    {
      items := items[key := value];
    }

    method RemoveItem(key: string)
      modifies this
      ensures items == old(items) - {key}
    {
      items := items - {key};
    }
  }

  /** One call of navigate(path, { replace }). */
  datatype Visit = Visit(path: string, replace: bool)

  /** The router's navigate(), recording every visit. */
  class Navigator {
    var visits: seq<Visit>

    constructor ()
      ensures visits == []
    {
      visits := [];
    }

    method Navigate(path: string, replace: bool)
      modifies this
      ensures visits == old(visits) + [Visit(path, replace)]
    {
      visits := visits + [Visit(path, replace)];
    }
  }

  /** A toast (message.success / message.error) or a modal (Modal.success / Modal.error). */
  datatype Notice = Success(text: string) | Failure(text: string)

  /** The notices a page has shown, oldest first. */
  class Notices {
    var shown: seq<Notice>

    constructor ()
      ensures shown == []
    {
      shown := [];
    }

    method Show(n: Notice)
      modifies this
      ensures shown == old(shown) + [n]
    {
      shown := shown + [n];
    }
  }
}
