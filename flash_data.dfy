/** The flash message values carried by the request context, and the flash
    codec (flash.Encode / flash.Decode), whose algorithm is not part of this
    model: it is passed around as a pair of uninterpreted functions. */
module FlashData {

  /** One transient message shown once on the next page view. */
  datatype Flash = Flash(kind: string, text: string)

  /** flash.Encode and flash.Decode. Nothing is assumed about them unless a
      lemma states it in its requires clause. */
  datatype Codec = Codec(encode: seq<Flash> -> string, decode: string -> seq<Flash>)

  /** The codec round-trips the given messages. */
  predicate RoundTrips(codec: Codec, flashes: seq<Flash>)
  {
    codec.decode(codec.encode(flashes)) == flashes
  }
}
