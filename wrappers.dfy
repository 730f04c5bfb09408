/** Optional values: the model of `WTF::Optional` used throughout the layout code. */
module Wrappers {

  datatype Option<+T> = None | Some(value: T) {

    /** The value, or `default` when there is none (`Optional::valueOr`). */
    function ValueOr(default: T): T {
      match this
      case Some(v) => v
      case None => default
    }
  }
}
