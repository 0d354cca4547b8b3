/**
 * Truncation of the data received from an authorization provider to the
 * column sizes of the webtrees user table (`resizeUserData`). Characters
 * stand for bytes: PHP's `strlen` and `substr` count bytes.
 */
module Truncation {

  /** The length limit for the user-data item called `name`. */
  function MaxLength(name: string): nat
  {
    if name == "Username" then 32
    else if name == "Password" then 128
    else 64
  }

  /** `substr($value, 0, $length)`: the longest prefix of `value` within the limit. */
  function Resize(name: string, value: string): (r: string)
    ensures r <= value
    ensures |r| <= MaxLength(name)
    ensures |value| <= MaxLength(name) ==> r == value
    ensures |value| > MaxLength(name) ==> |r| == MaxLength(name)
  {
    if |value| <= MaxLength(name) then value else value[..MaxLength(name)]
  }

  /** Whether `resizeUserData` adds the "was reduced" flash message. */
  predicate Warns(name: string, value: string, addFlashMessage: bool)
  {
    addFlashMessage && |value| > MaxLength(name)
  }

  /** A value is changed by the resize exactly when it is longer than its limit. */
  lemma ResizeChangesOnlyLongValues(name: string, value: string)
    ensures Resize(name, value) != value <==> |value| > MaxLength(name)
    ensures Warns(name, value, true) <==> Resize(name, value) != value
  {
  }

  /** Resizing an already resized value changes nothing. */
  lemma ResizeIdempotent(name: string, value: string)
    ensures Resize(name, Resize(name, value)) == Resize(name, value)
  {
  }
}
