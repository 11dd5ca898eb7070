/** The media frames passed between capture, the relay and playback (demos/neet/src/media.rs). */
module Media {
  import opened Wrappers
  import opened Ints

  /** A `bytes::Bytes` payload; its length is a `usize`. */
  type Bytes = s: seq<U8> | |s| < 0x1_0000_0000_0000_0000

  /** `MediaFrame`: an encoded payload and the optional sample bookkeeping a producer may attach. */
  datatype MediaFrame = MediaFrame(
    payload: Bytes,
    sampleCount: Option<U32>,
    skippedFrames: Option<U32>,
    skippedSamples: Option<U32>)
}
