/** Small datatypes shared by every module of the model. */
module Common {

  /** A value that may be absent: a Go nil pointer, a missing map key, an empty optional string. */
  datatype Option<+T> = None | Some(value: T) {

    function GetOr(default: T): T {
      match this
      case Some(v) => v
      case None => default
    }
  }

  /** Map lookup with Go's zero value for a missing key. */
  function Lookup<K, V>(m: map<K, V>, k: K, zero: V): V {
    if k in m then m[k] else zero
  }
}
