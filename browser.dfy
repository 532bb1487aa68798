/**
 * The browser globals the dashboard touches: `localStorage` as a map from
 * keys to strings, and full-page navigation through `window.location.href`.
 * Every change is also appended to `log`, so that the order of side effects
 * (for instance "storage is cleared before the page navigates") is visible.
 */
module Browser {
  import opened Wrappers

  datatype Effect =
    | SetItem(key: string, value: string)
    | RemoveItem(key: string)
    | Assign(href: string)

  class Window {
    var storage: map<string, string>
    var log: seq<Effect>

    constructor (initial: map<string, string>)
      ensures storage == initial && log == []
    {
      storage := initial;
      log := [];
    }

    /** `localStorage.getItem(key)`: the stored string, or null. */
    function GetItem(key: string): (v: Option<string>)
      reads this
      ensures v.Some? <==> key in storage
      ensures v.Some? ==> v.value == storage[key]
    {
      if key in storage then Some(storage[key]) else None
    }

    /** `localStorage.setItem(key, value)`. */
    method SetItem(key: string, value: string)
      modifies this
      ensures storage == old(storage)[key := value]
      ensures log == old(log) + [Effect.SetItem(key, value)]
    {
      storage := storage[key := value];
      log := log + [Effect.SetItem(key, value)];
    }

    /** `localStorage.removeItem(key)`; removing an absent key is harmless. */
    method RemoveItem(key: string)
      modifies this
      ensures storage == old(storage) - {key}
      ensures log == old(log) + [Effect.RemoveItem(key)]
    {
      storage := storage - {key};
      log := log + [Effect.RemoveItem(key)];
    }

    /** `window.location.href = href`: a full-page navigation. */
    method Navigate(href: string)
      modifies this
      ensures storage == old(storage)
      ensures log == old(log) + [Assign(href)]
    {
      log := log + [Assign(href)];
    }
  }
}
