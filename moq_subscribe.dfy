/**
 How a side of the call finds the remote broadcast it listens to
 (`subscribe_audio` in demos/neet/src/moq.rs). The loop asks the origin for a
 broadcast already available at the target path; failing that it waits for
 the next announcement, attaches to one that announces a broadcast at the
 target path, skips removals and announcements of other paths, and gives up
 with an error when the announcement stream ends.
 */
module MoqSubscribe {
  import opened Wrappers
  import opened Moq

  /** A remote broadcast, known only by an identity. */
  datatype Broadcast = Broadcast(id: nat)

  /** An origin announcement: a path with a new broadcast, or with `None` when the broadcast was removed. */
  datatype Announcement = Announcement(path: string, broadcast: Option<Broadcast>)

  /**
   What one pass of the waiting loop observes: the answer of
   `consume_broadcast(target)` at the top of the pass, and the next item of the
   announcement stream (`None` once the stream has closed). The announcement
   is not read when a broadcast is already available.
   */
  datatype Round = Round(available: Option<Broadcast>, next: Option<Announcement>)

  /** A pass after which the loop keeps waiting: nothing available yet, and the announcement is a removal or is about another path. */
  predicate Skipped(target: string, r: Round) {
    && r.available.None?
    && r.next.Some?
    && (r.next.value.broadcast.None? || r.next.value.path != target)
  }

  /** Pass `r` finds `b` already available, or reads an announcement of `b` at the target. */
  predicate Found(target: string, r: Round, b: Broadcast) {
    || r.available == Some(b)
    || (r.available.None? && r.next == Some(Announcement(target, Some(b))))
  }

  /** The loop attaches to `b` in pass `k`: every earlier pass was skipped and pass `k` found `b` available or announced at the target. */
  predicate AttachesAt(target: string, rounds: seq<Round>, k: nat, b: Broadcast) {
    && k < |rounds|
    && (forall j :: 0 <= j < k ==> Skipped(target, rounds[j]))
    && Found(target, rounds[k], b)
  }

  /** The loop gives up in pass `k`: every earlier pass was skipped and in pass `k` nothing was available and the stream had closed. */
  predicate ClosesAt(target: string, rounds: seq<Round>, k: nat) {
    && k < |rounds|
    && (forall j :: 0 <= j < k ==> Skipped(target, rounds[j]))
    && rounds[k].available.None? && rounds[k].next.None?
  }

  /** The outcome of the waiting loop over the passes `rounds`, aiming at `target`. */
  function Select(target: string, rounds: seq<Round>): (o: Outcome<Broadcast>)
    ensures o.Finished? && o.result.Err? ==> o.result.error == AnnouncementStreamClosed
    ensures o.Finished? && o.result.Ok? ==>
      exists j :: 0 <= j < |rounds| && Found(target, rounds[j], o.result.value)
  {
    if rounds == [] then Pending
    else if rounds[0].available.Some? then Finished(Ok(rounds[0].available.value))
    else if rounds[0].next.None? then Finished(Err(AnnouncementStreamClosed))
    else if Skipped(target, rounds[0]) then Select(target, rounds[1..])
    else Finished(Ok(rounds[0].next.value.broadcast.value))
  }

  /**
   The selection loop of `subscribe_audio` for `role`: it waits for the
   broadcast at the role's subscribe path. Attaching is where the source goes
   on to play the broadcast's audio track (`handle_remote_broadcast`).
   */
  method SubscribeAudio(role: Role, rounds: seq<Round>) returns (outcome: Outcome<Broadcast>)
    ensures outcome == Select(SubscribePath(role), rounds)
  {
    var target := SubscribePath(role);
    var i := 0;
    while i < |rounds|
      invariant 0 <= i <= |rounds|
      invariant Select(target, rounds) == Select(target, rounds[i..])
    {
      var round := rounds[i];
      assert rounds[i..][0] == round && rounds[i..][1..] == rounds[i + 1..];
      if round.available.Some? {
        return Finished(Ok(round.available.value));
      }
      match round.next {
        case Some(Announcement(path, Some(broadcast))) =>
          if path == target {
            return Finished(Ok(broadcast));
          }
        case Some(Announcement(_, None)) =>
        case None =>
          return Finished(Err(AnnouncementStreamClosed));
      }
      i := i + 1;
    }
    return Pending;
  }

  /** Skipped passes at the front do not change the outcome. */
  lemma {:induction false} SelectSkipsPrefix(target: string, rounds: seq<Round>, k: nat)
    requires k <= |rounds|
    requires forall j :: 0 <= j < k ==> Skipped(target, rounds[j])
    ensures Select(target, rounds) == Select(target, rounds[k..])
  {
    if k > 0 {
      assert Skipped(target, rounds[0]);
      SelectSkipsPrefix(target, rounds[1..], k - 1);
      assert rounds[1..][k - 1..] == rounds[k..];
    }
  }

  /**
   The loop attaches to `b` exactly when some pass finds `b` already available,
   or reads an announcement of `b` at the target, after only skipped passes.
   */
  lemma {:induction false} SelectAttachedIff(target: string, rounds: seq<Round>, b: Broadcast)
    ensures Select(target, rounds) == Finished(Ok(b)) <==> exists k :: AttachesAt(target, rounds, k, b)
  {
    if rounds == [] {
    } else if !Skipped(target, rounds[0]) {
      if Select(target, rounds) == Finished(Ok(b)) {
        assert AttachesAt(target, rounds, 0, b);
      }
      forall k: nat | AttachesAt(target, rounds, k, b)
        ensures Select(target, rounds) == Finished(Ok(b))
      {
        assert k == 0;
      }
    } else {
      SelectAttachedIff(target, rounds[1..], b);
      if Select(target, rounds) == Finished(Ok(b)) {
        var k: nat :| AttachesAt(target, rounds[1..], k, b);
        assert rounds[k + 1] == rounds[1..][k];
        assert forall j :: 0 < j < k + 1 ==> rounds[j] == rounds[1..][j - 1];
        assert AttachesAt(target, rounds, k + 1, b);
      }
      forall k: nat | AttachesAt(target, rounds, k, b)
        ensures Select(target, rounds) == Finished(Ok(b))
      {
        assert k > 0;
        assert AttachesAt(target, rounds[1..], k - 1, b);
      }
    }
  }

  /** The loop fails with "announcement stream closed" exactly when the stream ends after only skipped passes. */
  lemma {:induction false} SelectClosedIff(target: string, rounds: seq<Round>)
    ensures Select(target, rounds) == Finished(Err(AnnouncementStreamClosed)) <==> exists k :: ClosesAt(target, rounds, k)
  {
    if rounds == [] {
    } else if !Skipped(target, rounds[0]) {
      if Select(target, rounds) == Finished(Err(AnnouncementStreamClosed)) {
        assert ClosesAt(target, rounds, 0);
      }
      forall k: nat | ClosesAt(target, rounds, k)
        ensures Select(target, rounds) == Finished(Err(AnnouncementStreamClosed))
      {
        assert k == 0;
      }
    } else {
      SelectClosedIff(target, rounds[1..]);
      if Select(target, rounds) == Finished(Err(AnnouncementStreamClosed)) {
        var k: nat :| ClosesAt(target, rounds[1..], k);
        assert rounds[k + 1] == rounds[1..][k];
        assert forall j :: 0 < j < k + 1 ==> rounds[j] == rounds[1..][j - 1];
        assert ClosesAt(target, rounds, k + 1);
      }
      forall k: nat | ClosesAt(target, rounds, k)
        ensures Select(target, rounds) == Finished(Err(AnnouncementStreamClosed))
      {
        assert k > 0;
        assert ClosesAt(target, rounds[1..], k - 1);
      }
    }
  }

  /** The loop is still waiting after `rounds` exactly when every pass was skipped. */
  lemma {:induction false} SelectPendingIff(target: string, rounds: seq<Round>)
    ensures Select(target, rounds) == Pending <==> forall j :: 0 <= j < |rounds| ==> Skipped(target, rounds[j])
  {
    if rounds != [] {
      SelectPendingIff(target, rounds[1..]);
      if Skipped(target, rounds[0]) {
        forall j | 1 <= j < |rounds| ensures rounds[j] == rounds[1..][j - 1] { }
      }
    }
  }

  /**
   A side never attaches to its own broadcast: while nothing is available at
   its subscribe path and the only announcements concern its own publish path,
   it keeps waiting.
   */
  lemma NeverAttachesToOwnBroadcast(role: Role, rounds: seq<Round>)
    requires forall j :: 0 <= j < |rounds| ==>
      rounds[j].available.None? && rounds[j].next.Some? && rounds[j].next.value.path == PublishPath(role)
    ensures Select(SubscribePath(role), rounds) == Pending
  {
    SelectPendingIff(SubscribePath(role), rounds);
  }

  /**
   A side attaches to the other side's broadcast as soon as it is announced,
   whatever came before it (only skipped passes) and whatever follows.
   */
  lemma AttachesToPeerAnnouncement(role: Role, skipped: seq<Round>, b: Broadcast, rest: seq<Round>)
    requires forall j :: 0 <= j < |skipped| ==> Skipped(SubscribePath(role), skipped[j])
    ensures Select(SubscribePath(role),
      skipped + [Round(None, Some(Announcement(PublishPath(Other(role)), Some(b))))] + rest) == Finished(Ok(b))
  {
    var rounds := skipped + [Round(None, Some(Announcement(PublishPath(Other(role)), Some(b))))] + rest;
    assert AttachesAt(SubscribePath(role), rounds, |skipped|, b);
    SelectAttachedIff(SubscribePath(role), rounds, b);
  }
}
