# neet: role routing, relay session paths, audio forwarding and frame arithmetic

A Dafny model of the core of `neet`, a two-party voice demo over a MoQ
(Media over QUIC) relay. One side is the *listener*, the other the *caller*.
Each side publishes its captured audio as one broadcast under its own path and
subscribes to the other side's broadcast.

The model covers:

- **Role routing** (`Moq`): each role's publish path, subscribe path and log
  labels, and the proof that the two roles meet. Each side subscribes to the
  path the other side publishes under, and never to its own.
- **Session paths** (`Moq`): `append_session_path` extends the relay URL's
  path with the namespace segment `neet` and the session id. It refuses an
  empty session id and a URL that cannot be a base. The URL is a class with
  separate fields for its parts, and the method updates its path segments in
  place.
- **Choosing the remote broadcast** (`MoqSubscribe`): the waiting loop of
  `subscribe_audio`. It is a method with a `while` loop over the passes it
  observes, proved equal to a recursive specification. Lemmas then say exactly
  when the loop attaches, fails or keeps waiting.
- **Audio forwarding** (`MoqForward`): the publishing loop turns each captured
  frame into one group holding one frame. The receiving loop (two nested loops)
  sends every frame of every group on to playback, in order. Both are methods
  proved against recursive specifications. The lemmas cover their framing, lag,
  stop and error rules, and the publish-to-playback round trip.
- **Frame arithmetic** (`Audio`): `AudioFormat::new`, `new2`, `block_count` and
  `sample_count`, with the constants `SAMPLE_RATE`, `ENGINE_FORMAT`,
  `DURATION_10MS` and `DURATION_20MS`. `usize` is 64 bits wide, and its
  multiplication wraps the way a release build's does.

Supporting modules: `Wrappers` holds `Option`. `Ints` holds the fixed-width
integer types and the arithmetic facts the proofs use. `Media` holds
`MediaFrame` from `demos/neet/src/media.rs`.

Channels, tracks and announcement streams are asynchronous in the source. Here
each one is the finite sequence of events its loop receives. When a finite
input ends before the loop has decided anything, the outcome is `Pending`: the
source would block on the next item.

## Model

| member | source | states |
|---|---|---|
| `Moq.PublishPath` | demos/neet/src/moq.rs:26-31 | the listener publishes under `listener` and the caller under `caller`; each of the two paths belongs to exactly one role |
| `Moq.SubscribePath` | demos/neet/src/moq.rs:33-38 | a side subscribes to the path the other side publishes under, and never to its own publish path |
| `Moq.RemoteLabel` | demos/neet/src/moq.rs:40-45 | the remote label is the path subscribed to |
| `Moq.LocalLabel` | demos/neet/src/moq.rs:47-52 | the local label is the path published under |
| `Moq.PublishPathsDistinct` | demos/neet/src/moq.rs:26-31 | two roles publish under the same path exactly when they are the same role |
| `Moq.RolesMeet` | demos/neet/src/moq.rs:26-38 | side `a` subscribes to side `b`'s publish path if and only if `b` is the other side |
| `Moq.AppendSessionPath` | demos/neet/src/moq.rs:130-143 | an empty session id gives "session id must not be empty"; otherwise a URL that cannot be a base gives "cannot be a base"; in both cases the path is unchanged; success happens exactly when neither applies, and then the path is the old segments followed by `neet` and the session id; the URL's other parts never change |
| `Moq.AppendSessionPathExample` | demos/neet/src/moq.rs:314-318 | `https://example.com/anon` with session `test-session` succeeds and becomes `https://example.com/anon/neet/test-session` |
| `Moq.EmptySessionExample` | demos/neet/src/moq.rs:131-133 | an empty session id is refused, and the URL text stays `https://example.com/anon` |
| `MoqSubscribe.Select` | demos/neet/src/moq.rs:188-211 | the outcome of the waiting loop over the observed passes; its only error is "announcement stream closed", and a broadcast it attaches to was found available or announced at the target path in one of the passes |
| `MoqSubscribe.SubscribeAudio` | demos/neet/src/moq.rs:188-211 | the loop's outcome is the selection specification applied to the role's subscribe path and the observed passes |
| `MoqSubscribe.SelectSkipsPrefix` | demos/neet/src/moq.rs:195-206 | passes with nothing available and a removal or another path's announcement do not change the outcome |
| `MoqSubscribe.SelectAttachedIff` | demos/neet/src/moq.rs:189-203 | the loop attaches to `b` if and only if, after only skipped passes, a pass finds `b` already available at the target, or reads an announcement of `b` at the target path |
| `MoqSubscribe.SelectClosedIff` | demos/neet/src/moq.rs:207-209 | the loop fails with "announcement stream closed" if and only if the stream ends after only skipped passes |
| `MoqSubscribe.SelectPendingIff` | demos/neet/src/moq.rs:195-210 | the loop is still waiting if and only if every pass was skipped |
| `MoqSubscribe.NeverAttachesToOwnBroadcast` | demos/neet/src/moq.rs:180-203 | announcements of a side's own publish path never make that side attach |
| `MoqSubscribe.AttachesToPeerAnnouncement` | demos/neet/src/moq.rs:195-202 | after skipped passes, an announcement of the other side's broadcast is attached to, whatever follows it |
| `MoqForward.Publish` | demos/neet/src/moq.rs:248-268 | the run of the publishing loop: at most one group per receive result, each group holding one frame whose declared size is its payload's length, and the loop never ends with an error |
| `MoqForward.ForwardMediaToMoq` | demos/neet/src/moq.rs:248-268 | the groups written and the loop's outcome are those of the publishing specification |
| `MoqForward.PublishAudio` | demos/neet/src/moq.rs:157-168 | the broadcast goes out under the role's publish path, which is not the path the role subscribes to, its track is named `audio`, and the frames are forwarded as `forward_media_to_moq` does |
| `MoqForward.PublishGroupsFrames` | demos/neet/src/moq.rs:248-262 | one group per frame received before `Closed`, in order; each group holds exactly one frame; that frame's declared size is the payload length and its bytes are the payload; success happens exactly when `Closed` was received |
| `MoqForward.LaggedIsSkipped` | demos/neet/src/moq.rs:263-265 | a `Lagged` receive error leaves the published groups and the outcome unchanged |
| `MoqForward.ClosedEndsPublishing` | demos/neet/src/moq.rs:259-262 | nothing after `Closed` is published, and `Closed` ends the loop with success |
| `MoqForward.Deliver` | demos/neet/src/moq.rs:275-305 | the run of the receiving loop: every frame it sends on has no `sample_count`, `skipped_frames` or `skipped_samples`, and its only errors are a failed frame read and a failed track read |
| `MoqForward.ForwardMoqToMedia` | demos/neet/src/moq.rs:275-305 | the frames sent and the loop's outcome are those of the receiving specification |
| `MoqForward.DeliverCompleteGroups` | demos/neet/src/moq.rs:276-291 | fully read groups are forwarded in group order, then frame order; payloads are unchanged and `sample_count`, `skipped_frames` and `skipped_samples` are `None` |
| `MoqForward.DeliverEndings` | demos/neet/src/moq.rs:278-302 | after complete groups: the end of the track or `Cancel` ends the loop with success; any other track error ends it with failure; a failed frame read ends it with failure after the frames read before it were forwarded |
| `MoqForward.RoundTrip` | demos/neet/src/moq.rs:321-361 | under a lossless relay, frames captured before the capture channel closed reach playback in order, with payloads unchanged and no sample bookkeeping, and both loops end the same way |
| `MoqForward.RoundTripHello` | demos/neet/src/moq.rs:345-360 | the payload `hello`, followed by the end of the capture channel, reaches playback unchanged, and both loops succeed |
| `Audio.New` | demos/neet/src/audio.rs:83-88 | the format holds the given sample rate and channel count |
| `Audio.New2` | demos/neet/src/audio.rs:89-94 | the format holds the bare `u32` rate as its sample rate and the given channel count |
| `Audio.BlockCount` | demos/neet/src/audio.rs:102-104 | wrapping `usize` product of the rate's blocks per millisecond and the duration's whole milliseconds: the exact product modulo 2^64, although the milliseconds are first truncated to 64 bits |
| `Audio.SampleCount` | demos/neet/src/audio.rs:106-108 | wrapping `usize` product of the block count and the channel count: the exact product of blocks per millisecond, whole milliseconds and channels, modulo 2^64 |
| `Audio.FromMillis` | demos/neet/src/audio.rs:30-31 | a duration built from `ms` milliseconds gives back `ms` whole milliseconds and `ms * 10^6` nanoseconds |
| `Audio.AsMillis` | demos/neet/src/audio.rs:103 | the whole milliseconds of a duration are its length in milliseconds, rounded down |
| `Audio.BlockCountExact` | demos/neet/src/audio.rs:102-104 | without overflow, the block count is `(sample_rate / 1000) * millis(d)`, with integer division on the rate |
| `Audio.SampleCountExact` | demos/neet/src/audio.rs:106-108 | without overflow, the sample count is the block count times the channel count, so it is a multiple of the channel count |
| `Audio.EngineFormatCounts` | demos/neet/src/audio.rs:27-31 | at 48 kHz stereo, 10 ms gives 480 blocks (960 samples) and 20 ms gives 960 blocks (1920 samples) |
| `Audio.BlockCountMonotone` | demos/neet/src/audio.rs:102-104 | more whole milliseconds never give fewer blocks, as long as the larger count fits |
| `Audio.AddWholeMillis` | demos/neet/src/audio.rs:103 | adding two whole-millisecond durations adds their milliseconds |
| `Audio.BlockCountAdditive` | demos/neet/src/audio.rs:102-104 | for whole-millisecond durations whose sum fits, `block_count(a + b) == block_count(a) + block_count(b)` |
| `Audio.SubMillisecondPartsAreDropped` | demos/neet/src/audio.rs:103 | 0.5 ms counts 0 blocks but 0.5 ms + 0.5 ms counts 48, so additivity needs whole milliseconds |
| `Audio.LowRateCountsNothing` | demos/neet/src/audio.rs:103 | a sample rate below 1000 Hz gives 0 blocks and 0 samples for every duration |
| `Audio.New2IsNew` | demos/neet/src/audio.rs:83-94 | `new2(r, c)` is `new(SampleRate(r), c)`, and both fields are stored unchanged |

## Left out

- `run_audio_session` (demos/neet/src/moq.rs:72-128) is left out: it is relay connection, MoQ session setup and a `select!` over concurrent tasks, which is network I/O and concurrency. The model keeps its first step, `append_session_path`, and the three loops it runs.
- `handle_remote_broadcast` (demos/neet/src/moq.rs:215-242): subscribing to the `audio` track and registering the playback track are foreign calls. The model takes the track's events as the input of `ForwardMoqToMedia`. A failure of `play_track` is not modelled.
- `publish_audio`: creating the capture track is a device call. The "broadcast already existed; replacing" warning is only logged, so it is not modelled.
- `MoqSubscribe.SubscribeAudio`: each pass's `consume_broadcast` answer is an input of the model. The model does not tie that answer to earlier announcements, because the origin's state changes concurrently with the stream.
- MoQ and broadcast-channel semantics are not modelled: track priority, group and frame writers, channel capacity, lag counts and receivers of `sender.send`. A frame counts as sent whether or not anyone receives it, since the source discards the result of `send`. A frame is written as one chunk, as the source writes it.
- `Moq.AppendSessionPath` works on path segments. It does not model what the URL library does inside `push`: percent-encoding, skipping `.` and `..`, and replacing the single empty segment of a `/` path. `Moq.Url.Serialization` only renders URLs that can be a base. URL parsing is not modelled: the examples build the parsed URL directly.
- `MoqForward.RoundTrip` assumes a lossless relay: every group the publisher wrote reaches the consumer whole and in order, and none is skipped. The producer's drop is shown as the end of the track (`TrackEnded`). If the library reports it as `Cancel` instead, the receiving loop ends the same way (`MoqForward.DeliverEndings`).
- `Audio.BlockCount` and `Audio.SampleCount` follow release-build `usize` arithmetic, which wraps modulo 2^64. A debug build panics on overflow instead. The exact formulas are proved only where the result fits.
- `AudioFormat::duration_from_sample_count` (demos/neet/src/audio.rs:96-100) is left out: it is `f32` floating-point arithmetic.
- `AudioContext` (demos/neet/src/audio.rs:33-74) is left out: it uses audio devices, capture and playback tracks, and blocking tasks. The `capture`, `device`, `playback` and `processor` submodules are not part of this model.
- demos/neet/src/main.rs (command-line parsing, tracing, Ctrl+C, device listing) is left out, and so is the receiver wrapper in demos/neet/src/media.rs. Only `MediaFrame` is modelled from media.rs.
- demos/neet/src/codec.rs is left out, because its Opus implementation is not part of this model.
- The repository's browser-side presence, zone gating, jitter buffer and PCM packet codec do not appear in these source files, so they are not part of this model.
