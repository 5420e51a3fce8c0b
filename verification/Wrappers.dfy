// The optional value shared by every module of the model.
module Wrappers {
  datatype Option<+T> = None | Some(value: T) {
    // The first value recorded wins; a later one is dropped.
    function Or(later: Option<T>): (r: Option<T>) {
      if this.Some? then this else later
    }
  }
}
