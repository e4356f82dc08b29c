/** The parts of the browser the client touches: `localStorage` (a string to
    string store shared by every tab) and `window.location.href`. */
module Browser {
  import opened Base

  class Browser {
    /** `localStorage` */
    var storage: map<string, string>
    /** every target assigned to `window.location.href`, in order */
    var redirects: seq<string>

    constructor (initial: map<string, string>)
      ensures storage == initial && redirects == []
    {
      storage := initial;
      redirects := [];
    }

    /** `localStorage.getItem(key)` */
    function GetItem(key: string): (r: Option<string>)
      reads this
      ensures r.Some? <==> key in storage
      ensures r.Some? ==> r.value == storage[key]
    {
      if key in storage then Some(storage[key]) else None
    }

    /** `localStorage.setItem(key, value)` */
    method SetItem(key: string, value: string)
      modifies this
      ensures storage == old(storage)[key := value] && redirects == old(redirects)
    {
      storage := storage[key := value];
    }

    /** `localStorage.removeItem(key)` */
    method RemoveItem(key: string)
      modifies this
      ensures storage == old(storage) - {key} && redirects == old(redirects)
    {
      storage := storage - {key};
    }

    /** `window.location.href = target` */
    method Navigate(target: string)
      modifies this
      ensures storage == old(storage) && redirects == old(redirects) + [target]
    {
      redirects := redirects + [target];
    }
  }
}
