/** Small value types shared by the contract and client models. */
module Common {

  /** A value that may be missing: JavaScript's `null`/`undefined`, or a lookup that found nothing. */
  datatype Option<T> = None | Some(value: T) {
    function GetOr(default: T): T {
      match this
      case Some(v) => v
      case None => default
    }
  }

  const MaxUint32: nat := 0xFFFF_FFFF

  /** The range of a `uint32` message field. */
  type Uint32 = x: nat | x <= MaxUint32

  function Max(a: nat, b: nat): nat {
    if a >= b then a else b
  }
}
