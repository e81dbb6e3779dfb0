/**
 * The frame converter: the `Converter` interface of
 * internal/processor/processor.go and its default implementation in
 * internal/processor/converter.go, which hands its input back unchanged.
 */
module Converter {
  import opened Wrappers
  import opened Errors
  import opened Api

  /** A conversion of frame bytes into blob bytes that may fail. */
  type Converter = Bytes -> Result<Bytes, Error>

  /** converter.Convert: returns its input bytes unchanged and never fails. */
  function Identity(from: Bytes): (r: Result<Bytes, Error>)
    ensures r.Success? && r.value == from
  {
    Success(from)
  }

  /** NewConverter: always succeeds, with the identity conversion. */
  function NewConverter(): (r: Result<Converter, Error>)
    ensures r.Success?
    ensures forall b :: r.value(b) == Success(b)
  {
    Success(Identity)
  }
}
