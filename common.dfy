/** Machine types, error results and the base64 codec shared by the three packages. */
module Common {

  /** One octet of a Go []byte. */
  newtype byte = x: int | 0 <= x < 0x100

  /** Go's uint16, the provider's party handle. */
  newtype uint16 = x: int | 0 <= x < 0x1_0000

  type Bytes = seq<byte>

  /** Go's conversion uint16(i): keeps the low 16 bits of the two's-complement int. */
  function ToUint16(i: int): (r: uint16)
    ensures 0 <= i < 0x1_0000 ==> r as int == i
    ensures (i - r as int) % 0x1_0000 == 0
  {
    (i % 0x1_0000) as uint16
  }

  datatype Option<+T> = None | Some(value: T)

  /** The errors the orchestration layer returns or passes on. */
  datatype Error =
    | NoParties               // SaveKeysToYAML with an empty party list
    | ThresholdPKUnavailable  // party 0 could not produce its threshold public key
    | EmptySigsOrIds          // AggregateSignatures with no signatures or no ids
    | ConfigUnreadable        // os.ReadFile failed
    | ConfigMalformed         // yaml.Unmarshal failed
    | ProviderFailure         // an error returned by the threshold-BLS provider

  datatype Result<+T> = Ok(value: T) | Err(error: Error)

  /** The standard-alphabet base64 codec of RFC 4648, section 4, taken as an
      abstract encode/decode pair; decoding may fail on malformed text. */
  datatype Base64 = Base64(encode: Bytes -> string, decode: string -> Option<Bytes>)

  /** What the codec promises: decoding an encoding gives the bytes back. */
  ghost predicate RoundTrips(codec: Base64) {
    forall b :: codec.decode(codec.encode(b)) == Some(b)
  }
}
