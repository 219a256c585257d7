/**
 * What the pages' dialogs have in common: the toast a submit ends with, and
 * JavaScript's `text || fallback`, which treats the empty string as absent.
 */
module Forms {
  import opened Wrappers

  /** `toast.success(message)` or `toast.error(message)`. */
  datatype Toast = Success(message: string) | Failure(message: string)

  /** `text || null` (or `|| undefined`): an empty input is sent as absent. */
  function NonEmpty(text: string): (r: Option<string>)
    ensures r.None? <==> text == ""
    ensures r.Some? ==> r.value == text
  {
    if text == "" then None else Some(text)
  }

  /** `a || b`, on a string that may be null: the first of the two that is a non-empty string. */
  function OrElse(a: Option<string>, b: string): (r: string)
    ensures a.Some? && a.value != "" ==> r == a.value
    ensures (a.None? || a.value == "") ==> r == b
  {
    if a.Some? && a.value != "" then a.value else b
  }
}
