/**
 * Optional values. In the compositor's options record `None` is a field
 * left `undefined`, the only value a destructuring default replaces (a
 * `null` option is not modelled); `None` is `map = null` for a material's
 * colour map, an image that failed to load for the image loader, and a
 * reply without a URL for the upload (the request failed and `null` was
 * returned, or the reply's `secure_url` is `undefined`).
 */
module Wrappers {
  datatype Option<+T> = None | Some(value: T) {
    function GetOr(default: T): T {
      match this
      case Some(v) => v
      case None => default
    }
  }
}
