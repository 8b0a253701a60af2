/** Optional values: the source's null and undefined. */
module Options {
  datatype Option<+T> = None | Some(value: T) {
    /** JavaScript's `this ?? other`. */
    function Or(other: Option<T>): Option<T> {
      if Some? then this else other
    }
  }
}
