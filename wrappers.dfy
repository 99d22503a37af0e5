/** Optional values: the model's counterpart of `std::optional` and of a null
    `Wt::Dbo::ptr`. */
module Wrappers {

  datatype Option<+T> = None | Some(value: T) {

    /** Returns the contained value, or `default` when there is none
        (`std::optional::value_or`). */
    function GetOr(default: T): T {
      match this
      case Some(v) => v
      case None => default
    }
  }
}
