/** Bytes and optional values. */
module Common {

  datatype Option<+T> = None | Some(value: T)

  type byte = x: nat | x < 256

  /** Printable ASCII, the only text accepted in identities and text fields. */
  predicate Printable(text: seq<byte>) {
    forall i :: 0 <= i < |text| ==> 0x20 <= text[i] <= 0x7E
  }
}
