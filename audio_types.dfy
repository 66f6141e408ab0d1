/** The values the recorder, the processor and the uploader pass between them. */
module AudioTypes {
  import opened Wrappers

  /** An octet of a `Blob`, an `ArrayBuffer` or a `DataView`. */
  newtype byte = x: int | 0 <= x < 256

  /** A recorded or uploaded sample: `{ blob, duration, timestamp }`. The blob is its bytes;
      `timestamp` is the `Date.now()` reading taken when it was added. */
  datatype Sample = Sample(blob: seq<byte>, duration: real, timestamp: int)

  /** A decoded `AudioBuffer`: its first channel (`getChannelData(0)`) and its `duration` in
      seconds, as the decoder reports them. */
  datatype AudioBuffer = AudioBuffer(channelData: seq<real>, duration: real)

  /** A `File` chosen for upload, or built from a fetched preset: its bytes, MIME `type` and name. */
  datatype UploadFile = UploadFile(bytes: seq<byte>, mimeType: string, name: string)

  /** `window.audioSamples`: one entry per class index. Holes of the sparse JavaScript array,
      and classes that never received a sample, are `None`. */
  type SampleLists = seq<Option<seq<Sample>>>
}
