/** Values shared by the server handlers and the client pages: optional request
    fields, HTTP methods and JavaScript truthiness of the fields the handlers test. */
module Common {

  /** A request field that may be absent (`undefined` or `null` in the JSON body). */
  datatype Option<T> = None | Some(value: T)

  datatype HttpMethod = Get | Post | Put | Delete | Options | Patch | Head

  /** `!!v` for a text field: absent and the empty string are falsy. */
  predicate TruthyText(v: Option<string>)
  {
    v.Some? && v.value != ""
  }

  /** `!!v` for a numeric field: absent and 0 are falsy. */
  predicate TruthyNumber(v: Option<int>)
  {
    v.Some? && v.value != 0
  }
}
