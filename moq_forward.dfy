/**
 The two audio pumps of demos/neet/src/moq.rs. The publishing side
 (`forward_media_to_moq`) turns every captured media frame into one MoQ group
 holding one frame; the receiving side (`forward_moq_to_media`) reads every
 frame of every group, in order, and hands it on as a media frame for
 playback. The channels and tracks between them are seen as finite sequences
 of the events each loop receives.
 */
module MoqForward {
  import opened Wrappers
  import opened Ints
  import opened Media
  import opened Moq

  // ---------------------------------------------------------------------------
  // Publishing side

  /** What `MediaTrack::recv` returns: a frame, a report of `skipped` lost frames, or the end of the channel. */
  datatype RecvResult = Received(frame: MediaFrame) | Lagged(skipped: U64) | Closed

  /** A MoQ frame: its declared size and the bytes written to it. */
  datatype MoqFrame = MoqFrame(size: U64, payload: Bytes)

  /** A MoQ group, closed after its frames were written. */
  datatype Group = Group(frames: seq<MoqFrame>)

  /** The groups a publishing loop appended to the track and how the loop ended. */
  datatype PublishRun = PublishRun(groups: seq<Group>, outcome: Outcome<()>)

  /** The group written for one captured payload: one frame, declared with the payload's length. */
  function FrameGroup(payload: Bytes): Group {
    Group([MoqFrame(|payload|, payload)])
  }

  /** The run of `forward_media_to_moq` over the receive results `events`. */
  function Publish(events: seq<RecvResult>): (run: PublishRun)
    ensures |run.groups| <= |events|
    ensures forall i :: 0 <= i < |run.groups| ==>
      |run.groups[i].frames| == 1 && run.groups[i].frames[0].size == |run.groups[i].frames[0].payload|
    ensures run.outcome.Finished? ==> run.outcome == Finished(Ok(()))
  {
    if events == [] then PublishRun([], Pending)
    else match events[0]
      case Received(frame) =>
        var rest := Publish(events[1..]);
        PublishRun([FrameGroup(frame.payload)] + rest.groups, rest.outcome)
      case Lagged(_) => Publish(events[1..])
      case Closed => PublishRun([], Finished(Ok(())))
  }

  /** The receive results before the first `Closed`. */
  function UntilClosed(events: seq<RecvResult>): (prefix: seq<RecvResult>)
    ensures Closed !in prefix
  {
    if events == [] || events[0] == Closed then [] else [events[0]] + UntilClosed(events[1..])
  }

  /** The payloads of the frames among `events`, in order. */
  function Captured(events: seq<RecvResult>): (payloads: seq<Bytes>)
    ensures |payloads| <= |events|
  {
    if events == [] then []
    else (if events[0].Received? then [events[0].frame.payload] else []) + Captured(events[1..])
  }

  /**
   `forward_media_to_moq`: appends a group per received frame, skips lag
   reports, and stops with success when the capture channel closes.
   */
  method ForwardMediaToMoq(events: seq<RecvResult>) returns (groups: seq<Group>, outcome: Outcome<()>)
    ensures PublishRun(groups, outcome) == Publish(events)
  {
    groups := [];
    var i := 0;
    while i < |events|
      invariant 0 <= i <= |events|
      invariant Publish(events) == PublishRun(groups + Publish(events[i..]).groups, Publish(events[i..]).outcome)
    {
      assert events[i..][0] == events[i] && events[i..][1..] == events[i + 1..];
      match events[i] {
        case Received(frame) =>
          groups := groups + [FrameGroup(frame.payload)];
        case Closed =>
          return groups, Finished(Ok(()));
        case Lagged(_) =>
      }
      i := i + 1;
    }
    return groups, Pending;
  }

  /**
   `publish_audio` once its capture track exists: the broadcast goes out under
   the role's publish path, and the capture frames are forwarded into it.
   */
  method PublishAudio(role: Role, events: seq<RecvResult>)
    returns (path: string, track: string, groups: seq<Group>, outcome: Outcome<()>)
    ensures path == PublishPath(role) && path != SubscribePath(role)
    ensures track == AUDIO_TRACK_NAME
    ensures PublishRun(groups, outcome) == Publish(events)
  {
    path := PublishPath(role);
    track := AUDIO_TRACK_NAME;
    groups, outcome := ForwardMediaToMoq(events);
  }

  /**
   The publishing loop writes one group per frame received before the channel
   closed, each holding one frame whose declared size is its payload's length
   and whose bytes are that payload; it ends with success exactly when the
   channel closed.
   */
  lemma {:induction false} PublishGroupsFrames(events: seq<RecvResult>)
    ensures var run, captured := Publish(events), Captured(UntilClosed(events));
      && |run.groups| == |captured|
      && (forall i :: 0 <= i < |captured| ==>
            run.groups[i] == Group([MoqFrame(|captured[i]|, captured[i])]))
      && run.outcome == (if Closed in events then Finished(Ok(())) else Pending)
  {
    if events != [] {
      PublishGroupsFrames(events[1..]);
      assert Closed in events <==> events[0] == Closed || Closed in events[1..];
    }
  }

  /** A lag report changes nothing: the loop goes on as if it had not been there. */
  lemma {:induction false} LaggedIsSkipped(before: seq<RecvResult>, skipped: U64, after: seq<RecvResult>)
    ensures Publish(before + [Lagged(skipped)] + after) == Publish(before + after)
  {
    if before != [] {
      LaggedIsSkipped(before[1..], skipped, after);
      assert (before + [Lagged(skipped)] + after)[1..] == before[1..] + [Lagged(skipped)] + after;
      assert (before + after)[1..] == before[1..] + after;
    } else {
      var events := [Lagged(skipped)] + after;
      assert events[0] == Lagged(skipped) && events[1..] == after;
      assert before + [Lagged(skipped)] + after == events && before + after == after;
    }
  }

  /** Nothing received after the channel closed is published. */
  lemma {:induction false} ClosedEndsPublishing(before: seq<RecvResult>, after: seq<RecvResult>)
    ensures Publish(before + [Closed] + after) == Publish(before + [Closed])
    ensures Publish(before + [Closed]).outcome == Finished(Ok(()))
  {
    if before != [] {
      ClosedEndsPublishing(before[1..], after);
      assert (before + [Closed] + after)[1..] == before[1..] + [Closed] + after;
      assert (before + [Closed])[1..] == before[1..] + [Closed];
    }
  }

  // ---------------------------------------------------------------------------
  // Receiving side

  /** How reading the frames of one group ended: the group finished, a read failed, or it is still open. */
  datatype ReadEnd = GroupFinished | ReadFailed | Stalled

  /** What `read_frame` delivers for one group: its frames' bytes, then how reading ended. */
  datatype GroupRead = GroupRead(frames: seq<Bytes>, end: ReadEnd)

  /** A `moq_lite::Error` of a track consumer, which the loop tells apart only by cancellation. */
  datatype TrackError = Cancel | OtherError

  /** What `TrackConsumer::next_group` returns: a group, the end of the track, or an error. */
  datatype TrackEvent = NextGroup(group: GroupRead) | TrackEnded | TrackFailed(error: TrackError)

  /** The media frames a receiving loop sent on and how it ended. */
  datatype DeliverRun = DeliverRun(sent: seq<MediaFrame>, outcome: Outcome<()>)

  /** A frame from the relay handed to playback: its payload, no sample bookkeeping. */
  function BareFrame(payload: Bytes): (f: MediaFrame)
    ensures f.payload == payload
    ensures f.sampleCount.None? && f.skippedFrames.None? && f.skippedSamples.None?
  {
    MediaFrame(payload, None, None, None)
  }

  function BareFrames(payloads: seq<Bytes>): (frames: seq<MediaFrame>)
    ensures |frames| == |payloads|
    ensures forall i :: 0 <= i < |payloads| ==> frames[i] == BareFrame(payloads[i])
  {
    seq(|payloads|, i requires 0 <= i < |payloads| => BareFrame(payloads[i]))
  }

  /** The run of `forward_moq_to_media` over the track events `events`. */
  function Deliver(events: seq<TrackEvent>): (run: DeliverRun)
    ensures forall i :: 0 <= i < |run.sent| ==>
      run.sent[i].sampleCount.None? && run.sent[i].skippedFrames.None? && run.sent[i].skippedSamples.None?
    ensures run.outcome.Finished? && run.outcome.result.Err? ==>
      run.outcome.result.error == FrameReadFailed || run.outcome.result.error == TrackReadFailed
  {
    if events == [] then DeliverRun([], Pending)
    else match events[0]
      case NextGroup(g) =>
        (match g.end
          case ReadFailed => DeliverRun(BareFrames(g.frames), Finished(Err(FrameReadFailed)))
          case Stalled => DeliverRun(BareFrames(g.frames), Pending)
          case GroupFinished =>
            var rest := Deliver(events[1..]);
            DeliverRun(BareFrames(g.frames) + rest.sent, rest.outcome))
      case TrackEnded => DeliverRun([], Finished(Ok(())))
      case TrackFailed(e) => DeliverRun([], if e == Cancel then Finished(Ok(())) else Finished(Err(TrackReadFailed)))
  }

  /**
   `forward_moq_to_media`: for each group, sends every frame read from it on to
   playback, fails when a frame read fails; stops with success at the end of
   the track or on cancellation, and fails on any other track error.
   */
  method ForwardMoqToMedia(events: seq<TrackEvent>) returns (sent: seq<MediaFrame>, outcome: Outcome<()>)
    ensures DeliverRun(sent, outcome) == Deliver(events)
  {
    sent := [];
    var i := 0;
    while i < |events|
      invariant 0 <= i <= |events|
      invariant Deliver(events) == DeliverRun(sent + Deliver(events[i..]).sent, Deliver(events[i..]).outcome)
    {
      assert events[i..][0] == events[i] && events[i..][1..] == events[i + 1..];
      match events[i] {
        case NextGroup(group) =>
          var j := 0;
          ghost var before := sent;
          while j < |group.frames|
            invariant 0 <= j <= |group.frames|
            invariant sent == before + BareFrames(group.frames[..j])
          {
            assert group.frames[..j + 1] == group.frames[..j] + [group.frames[j]];
            sent := sent + [BareFrame(group.frames[j])];
            j := j + 1;
          }
          assert group.frames[..j] == group.frames;
          match group.end {
            case ReadFailed =>
              return sent, Finished(Err(FrameReadFailed));
            case Stalled =>
              return sent, Pending;
            case GroupFinished =>
          }
        case TrackEnded =>
          return sent, Finished(Ok(()));
        case TrackFailed(err) =>
          if err == Cancel {
            return sent, Finished(Ok(()));
          }
          return sent, Finished(Err(TrackReadFailed));
      }
      i := i + 1;
    }
    return sent, Pending;
  }

  /** All frames of a sequence of groups, group by group. */
  function Flatten(groups: seq<seq<Bytes>>): (frames: seq<Bytes>)
    ensures forall i, j :: 0 <= i < |groups| && 0 <= j < |groups[i]| ==> groups[i][j] in frames
  {
    if groups == [] then [] else groups[0] + Flatten(groups[1..])
  }

  /** Track events for groups that were each read to their end. */
  function CompleteGroups(groups: seq<seq<Bytes>>): (events: seq<TrackEvent>)
    ensures |events| == |groups|
    ensures forall i :: 0 <= i < |groups| ==> events[i] == NextGroup(GroupRead(groups[i], GroupFinished))
  {
    seq(|groups|, i requires 0 <= i < |groups| => NextGroup(GroupRead(groups[i], GroupFinished)))
  }

  lemma BareFramesAppend(a: seq<Bytes>, b: seq<Bytes>)
    ensures BareFrames(a + b) == BareFrames(a) + BareFrames(b)
  {
  }

  /**
   Complete groups are forwarded frame by frame, in group order and then frame
   order, with payloads unchanged; how the loop ends is decided by what
   follows them.
   */
  lemma {:induction false} DeliverCompleteGroups(groups: seq<seq<Bytes>>, tail: seq<TrackEvent>)
    ensures Deliver(CompleteGroups(groups) + tail)
         == DeliverRun(BareFrames(Flatten(groups)) + Deliver(tail).sent, Deliver(tail).outcome)
  {
    if groups != [] {
      var events := CompleteGroups(groups) + tail;
      assert events[0] == NextGroup(GroupRead(groups[0], GroupFinished));
      assert events[1..] == CompleteGroups(groups[1..]) + tail;
      DeliverCompleteGroups(groups[1..], tail);
      BareFramesAppend(groups[0], Flatten(groups[1..]));
    } else {
      assert CompleteGroups(groups) + tail == tail;
    }
  }

  /**
   After complete groups, the end of the track and a cancellation end the loop
   with success, any other track error with failure, and a failed frame read
   with failure after the frames read before it; all frames read are sent on.
   */
  lemma DeliverEndings(groups: seq<seq<Bytes>>, partial: seq<Bytes>, after: seq<TrackEvent>)
    ensures Deliver(CompleteGroups(groups) + [TrackEnded] + after)
         == DeliverRun(BareFrames(Flatten(groups)), Finished(Ok(())))
    ensures Deliver(CompleteGroups(groups) + [TrackFailed(Cancel)] + after)
         == DeliverRun(BareFrames(Flatten(groups)), Finished(Ok(())))
    ensures Deliver(CompleteGroups(groups) + [TrackFailed(OtherError)] + after)
         == DeliverRun(BareFrames(Flatten(groups)), Finished(Err(TrackReadFailed)))
    ensures Deliver(CompleteGroups(groups) + [NextGroup(GroupRead(partial, ReadFailed))] + after)
         == DeliverRun(BareFrames(Flatten(groups) + partial), Finished(Err(FrameReadFailed)))
  {
    var c := CompleteGroups(groups);
    assert c + [TrackEnded] + after == c + ([TrackEnded] + after);
    assert c + [TrackFailed(Cancel)] + after == c + ([TrackFailed(Cancel)] + after);
    assert c + [TrackFailed(OtherError)] + after == c + ([TrackFailed(OtherError)] + after);
    assert c + [NextGroup(GroupRead(partial, ReadFailed))] + after == c + ([NextGroup(GroupRead(partial, ReadFailed))] + after);
    DeliverCompleteGroups(groups, [TrackEnded] + after);
    DeliverCompleteGroups(groups, [TrackFailed(Cancel)] + after);
    DeliverCompleteGroups(groups, [TrackFailed(OtherError)] + after);
    DeliverCompleteGroups(groups, [NextGroup(GroupRead(partial, ReadFailed))] + after);
    BareFramesAppend(Flatten(groups), partial);
  }

  // ---------------------------------------------------------------------------
  // Publishing and receiving together

  /** The payloads a reader of a group gets back: each frame's bytes. */
  function FramePayloads(g: Group): (payloads: seq<Bytes>)
    ensures |payloads| == |g.frames|
    ensures forall i :: 0 <= i < |g.frames| ==> payloads[i] == g.frames[i].payload
  {
    seq(|g.frames|, i requires 0 <= i < |g.frames| => g.frames[i].payload)
  }

  /**
   What a track consumer sees of a publishing run through a lossless relay:
   every group, in order, read to its end, and the end of the track once the
   publisher finished and dropped its producer. No group is skipped or cut
   short on the way.
   */
  function ConsumerView(run: PublishRun): (view: seq<TrackEvent>)
    ensures |view| == |run.groups| + (if run.outcome.Finished? then 1 else 0)
  {
    CompleteGroups(seq(|run.groups|, i requires 0 <= i < |run.groups| => FramePayloads(run.groups[i])))
    + (if run.outcome.Finished? then [TrackEnded] else [])
  }

  lemma {:induction false} FlattenFrameGroups(captured: seq<Bytes>)
    ensures Flatten(seq(|captured|, i requires 0 <= i < |captured| => FramePayloads(FrameGroup(captured[i])))) == captured
  {
    if captured != [] {
      var gs := seq(|captured|, i requires 0 <= i < |captured| => FramePayloads(FrameGroup(captured[i])));
      var rest := captured[1..];
      FlattenFrameGroups(rest);
      assert gs[1..] == seq(|rest|, i requires 0 <= i < |rest| => FramePayloads(FrameGroup(rest[i])));
      assert gs[0] == [captured[0]];
    }
  }

  /**
   Round trip under a lossless relay: the frames captured before the capture channel closed reach
   playback in order with their payloads unchanged and without bookkeeping,
   and both loops end the same way.
   */
  lemma RoundTrip(events: seq<RecvResult>)
    ensures Deliver(ConsumerView(Publish(events)))
         == DeliverRun(BareFrames(Captured(UntilClosed(events))), Publish(events).outcome)
  {
    var run, captured := Publish(events), Captured(UntilClosed(events));
    PublishGroupsFrames(events);
    var payloads := seq(|run.groups|, i requires 0 <= i < |run.groups| => FramePayloads(run.groups[i]));
    assert payloads == seq(|captured|, i requires 0 <= i < |captured| => FramePayloads(FrameGroup(captured[i])));
    FlattenFrameGroups(captured);
    var tail: seq<TrackEvent> := if run.outcome.Finished? then [TrackEnded] else [];
    DeliverCompleteGroups(payloads, tail);
  }

  /** The payload `hello`, sent once and followed by the end of the capture channel, reaches playback and both sides succeed. */
  lemma RoundTripHello()
    ensures var hello: Bytes := [104, 101, 108, 108, 111];
      var events := [Received(MediaFrame(hello, None, None, None)), Closed];
      && Publish(events).outcome == Finished(Ok(()))
      && Deliver(ConsumerView(Publish(events))) == DeliverRun([BareFrame(hello)], Finished(Ok(())))
  {
    var hello: Bytes := [104, 101, 108, 108, 111];
    var events := [Received(MediaFrame(hello, None, None, None)), Closed];
    RoundTrip(events);
    assert UntilClosed(events) == [events[0]];
    assert Captured(UntilClosed(events)) == [hello];
    assert Closed in events;
    PublishGroupsFrames(events);
  }
}
