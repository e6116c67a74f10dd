/** Values shared by the buffering model: optional values and sample metadata. */
module Samples {

  datatype Option<+T> = None | Some(value: T) {
    function GetOr(default: T): T {
      match this
      case Some(v) => v
      case None => default
    }
  }

  /** The sample flag bits. */
  datatype Flags = Flags(sync: bool, encrypted: bool, decodeOnly: bool)

  /** The metadata that the sample queue keeps, one field per parallel array. */
  datatype SampleInfo = SampleInfo(
    timeUs: int,
    durationUs: int,
    flags: Flags,
    offset: int,
    size: int,
    keyId: string,
    iv: string,
    bytesClear: seq<int>,
    bytesEnc: seq<int>)
  {
    predicate IsSync() {
      flags.sync
    }

    predicate IsEncrypted() {
      flags.encrypted
    }

    /** The byte position just after the sample's data. */
    function End(): int {
      offset + size
    }
  }
}
