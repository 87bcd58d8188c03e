/** Values shared by every part of the service model. */
module Common {

  /** A value that may be absent (`undefined` or `null` in the service). */
  datatype Option<+T> = None | Some(value: T)

  /** JavaScript truthiness of an optional string field: present and not the empty string. */
  predicate Truthy(s: Option<string>) {
    s.Some? && s.value != ""
  }

  /** The text of `${x}` in a template literal, where an absent value prints as "undefined". */
  function Interpolate(s: Option<string>): string {
    if s.Some? then s.value else "undefined"
  }
}
