/** The few JavaScript value notions the relay handler depends on: optional
    values (a JSON field that may be missing), string truthiness, settled
    promises and thrown errors. */
module JsValues {

  /** A value that may be absent (`undefined` or `null` in the handler). */
  datatype Option<+T> = None | Some(value: T)

  /** JavaScript truthiness of an optional string: a missing value and the
      empty string are falsy, every other string (whitespace included) is
      truthy. */
  predicate Truthy(s: Option<string>) {
    s.Some? && s.value != ""
  }

  /** A thrown value. `message` is its `message` property, which may be
      missing (a thrown string, say); `rendered` is what `String(err)` gives. */
  datatype Thrown = Thrown(message: Option<string>, rendered: string)

  /** The outcome of an awaited promise: resolved with a value or rejected
      with a thrown error. */
  datatype Awaited<+T> = Resolved(value: T) | Rejected(error: Thrown)

  /** The text the catch-all reports for a thrown error: its message when that
      is truthy, otherwise its string rendering (`err.message || String(err)`). */
  function ErrorText(err: Thrown): (t: string)
    ensures Truthy(err.message) ==> t == err.message.value
    ensures !Truthy(err.message) ==> t == err.rendered
  {
    if Truthy(err.message) then err.message.value else err.rendered
  }

  /** A truthy message decides the reported text: the rendering is ignored. */
  lemma MessageOverridesRendering(m: Option<string>, r1: string, r2: string)
    requires Truthy(m)
    ensures ErrorText(Thrown(m, r1)) == ErrorText(Thrown(m, r2)) == m.value
  {
  }

  /** Without a truthy message, a missing and an empty message are reported
      alike, by the rendering. */
  lemma RenderingWithoutMessage(m1: Option<string>, m2: Option<string>, r: string)
    requires !Truthy(m1) && !Truthy(m2)
    ensures ErrorText(Thrown(m1, r)) == ErrorText(Thrown(m2, r)) == r
  {
  }
}
