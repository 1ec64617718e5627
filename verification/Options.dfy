/** The optional value used for the source's nil pointers and missing map entries. */
module Options {
  datatype Option<+T> = None | Some(value: T)

  /** The value of a counter map at a key: a missing key reads as zero, as in Go. */
  function Count<K>(counts: map<K, nat>, key: K): nat {
    if key in counts then counts[key] else 0
  }
}
