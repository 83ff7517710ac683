/** The two pieces of browser state the pages write: `localStorage` (a
    string-to-string store) and full-page navigation through
    `window.location.href`. */
module Browser {
  import opened Common

  class Window {
    var storage: map<string, string>
    /** The last address assigned to `window.location.href`, if any. */
    var location: Option<string>

    constructor (storage: map<string, string>)
      ensures this.storage == storage && location == None
    {
      this.storage := storage;
      location := None;
    }

    /** `localStorage.setItem(key, value)`. */
    method SetItem(key: string, value: string)
      modifies this
      ensures storage == old(storage)[key := value] && location == old(location)
    {
      storage := storage[key := value];
    }

    /** `localStorage.removeItem(key)`. */
    method RemoveItem(key: string)
      modifies this
      ensures storage == old(storage) - {key} && location == old(location)
    {
      storage := storage - {key};
    }

    /** `window.location.href = url`. */
    method Navigate(url: string)
      modifies this
      ensures location == Some(url) && storage == old(storage)
    {
      location := Some(url);
    }
  }
}
