/** Small value types shared by every part of the pipeline. */
module Common {

  /** Java's nullable reference: `None` stands for `null`. */
  datatype Option<+T> = None | Some(value: T) {
    function GetOr(default: T): T {
      match this
      case Some(v) => v
      case None => default
    }
  }

  /** A value, or the message of the checked exception that was thrown instead. */
  datatype Result<+T, +E> = Success(value: T) | Failure(error: E)

  /** Java's `byte`, as the unsigned octet it carries on the wire. */
  newtype uint8 = x: int | 0 <= x < 256

  /** One `byte[]` of PCM audio as it travels through the audio queue. */
  type Chunk = seq<uint8>
}
