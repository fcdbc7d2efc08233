/** The part of the XML decoder's interface that the library's hand-written
    scalar decoders touch: the error values they raise and the accumulator slot
    they fill. */
module XmlScalar {
  import opened Wrappers

  /** The decoder's error type, reduced to the variants the scalar decoders
      raise; `Decoder` stands for any error the decoder itself reports while
      reading the text. */
  datatype XmlError =
    | DuplicateValue(field: string)
    | MissingValue(message: string)
    | Decoder(message: string)

  /** The `Option<T>` accumulator a scalar deserializer receives by mutable
      reference; it starts empty and is filled at most once. */
  class Slot<T> {
    var value: Option<T>

    constructor ()
      ensures value == None
    {
      value := None;
    }
  }
}
