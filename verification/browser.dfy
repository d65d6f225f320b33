/** What the three web front-ends share with the browser: the feedback
    banner a page shows and the `localStorage` key-value store. */
module Browser {
  import opened Common

  /** The banner's colour: `'success'` or `'error'`. */
  datatype FeedbackKind = Success | Failure

  datatype Feedback = Feedback(kind: FeedbackKind, message: string)

  /** `window.localStorage`: string values under string keys. */
  class Storage {
    var items: map<string, string>

    constructor (items: map<string, string>)
      ensures this.items == items
    {
      this.items := items;
    }

    /** `getItem(key)`: the stored value, or `null`. */
    function GetItem(key: string): (v: Option<string>)
      reads this
      ensures v.Some? <==> key in items
      ensures v.Some? ==> v.value == items[key]
    {
      if key in items then Some(items[key]) else None
    }

    /** `setItem(key, value)`: stores `value` under `key`, leaving every other
        key as it was. */
    method SetItem(key: string, value: string)
      modifies this
      ensures items == old(items)[key := value]
    {
      items := items[key := value];
    }

    /** `removeItem(key)`: removes `key`, leaving every other key as it was. */
    method RemoveItem(key: string)
      modifies this
      ensures items == old(items) - {key}
    {
      items := items - {key};
    }
  }
}
