/**
 Role routing and relay session paths of the neet voice demo
 (demos/neet/src/moq.rs). Two sides of a call, a listener and a caller, each
 publish one audio broadcast under their own path on a relay and subscribe to
 the other side's; the relay URL is extended with the namespace segment
 `neet` and the session id.
 */
module Moq {
  import opened Wrappers

  /** Namespace segment put between the relay's own path and the session id. */
  const SESSION_NAMESPACE: string := "neet"

  /** Name of the one track each broadcast carries. */
  const AUDIO_TRACK_NAME: string := "audio"

  datatype Role = Listener | Caller

  /** The other side of a call. */
  function Other(r: Role): (o: Role)
    ensures o != r
  {
    match r
    case Listener => Caller
    case Caller => Listener
  }

  /** The broadcast path a side publishes its audio under. */
  function PublishPath(r: Role): (p: string)
    ensures p == "listener" <==> r == Listener
    ensures p == "caller" <==> r == Caller
  {
    match r
    case Listener => "listener"
    case Caller => "caller"
  }

  /** The broadcast path a side waits for: always the other side's publish path, never its own. */
  function SubscribePath(r: Role): (p: string)
    ensures p == PublishPath(Other(r))
    ensures p != PublishPath(r)
  {
    match r
    case Listener => "caller"
    case Caller => "listener"
  }

  /** The name logged for the remote side: the path subscribed to. */
  function RemoteLabel(r: Role): (l: string)
    ensures l == SubscribePath(r)
  {
    match r
    case Listener => "caller"
    case Caller => "listener"
  }

  /** The name logged for the local side: the path published under. */
  function LocalLabel(r: Role): (l: string)
    ensures l == PublishPath(r)
  {
    match r
    case Listener => "listener"
    case Caller => "caller"
  }

  /** Distinct roles publish under distinct paths. */
  lemma PublishPathsDistinct(a: Role, b: Role)
    ensures PublishPath(a) == PublishPath(b) <==> a == b
  {
    assert "listener"[0] != "caller"[0];
  }

  /** Side `a` attaches to the broadcast of side `b` exactly when `b` is the other side. */
  lemma RolesMeet(a: Role, b: Role)
    ensures SubscribePath(a) == PublishPath(b) <==> b == Other(a)
  {
    PublishPathsDistinct(Other(a), b);
  }

  /** Why a relay session could not be set up or ran into trouble. */
  datatype Error =
    | EmptySessionId            // "session id must not be empty"
    | CannotBeABase             // "relay URL cannot be a base"
    | AnnouncementStreamClosed  // "announcement stream closed"
    | FrameReadFailed           // "failed to read frame from MoQ group"
    | TrackReadFailed           // "failed to read from MoQ track"

  /** `anyhow::Result`. */
  datatype Result<T> = Ok(value: T) | Err(error: Error)

  /**
   How an event loop run over a finite stretch of its input ends: it finished
   with a result, or it is still waiting for more input.
   */
  datatype Outcome<T> = Finished(result: Result<T>) | Pending

  /**
   A `url::Url` at the level of its parts: scheme, host, query and fragment,
   whether it "cannot be a base" (an opaque path such as `mailto:`), and the
   path as a sequence of segments.
   */
  class Url {
    var scheme: string
    var host: string
    var cannotBeABase: bool
    var segments: seq<string>
    var query: Option<string>
    var fragment: Option<string>

    constructor (scheme: string, host: string, cannotBeABase: bool, segments: seq<string>,
                 query: Option<string>, fragment: Option<string>)
      ensures this.scheme == scheme && this.host == host && this.cannotBeABase == cannotBeABase
      ensures this.segments == segments && this.query == query && this.fragment == fragment
    {
      this.scheme := scheme;
      this.host := host;
      this.cannotBeABase := cannotBeABase;
      this.segments := segments;
      this.query := query;
      this.fragment := fragment;
    }

    /** The text of a URL that can be a base: `scheme://host/seg/seg?query#fragment`. */
    function Serialization(): string
      reads this
    {
      scheme + "://" + host + PathText(segments)
      + (match query case Some(q) => "?" + q case None => "")
      + (match fragment case Some(h) => "#" + h case None => "")
    }

    /** `PathSegmentsMut::push`: appends one segment, only possible on a URL that can be a base. */
    method Push(segment: string)
      requires !cannotBeABase
      modifies this`segments
      ensures segments == old(segments) + [segment]
    {
      segments := segments + [segment];
    }
  }

  /** A path as text, each segment preceded by a slash. */
  function PathText(segments: seq<string>): (text: string) {
    if segments == [] then "" else "/" + segments[0] + PathText(segments[1..])
  }

  /**
   `append_session_path`: rejects an empty session id, then a URL that cannot
   be a base, leaving the URL untouched in both cases; otherwise appends the
   namespace segment and the session id to the path, and changes nothing else.
   */
  method AppendSessionPath(url: Url, session: string) returns (r: Result<()>)
    modifies url`segments
    ensures session == [] ==> r == Err(EmptySessionId)
    ensures session != [] && url.cannotBeABase ==> r == Err(CannotBeABase)
    ensures r.Ok? <==> session != [] && !url.cannotBeABase
    ensures r.Ok? ==> url.segments == old(url.segments) + [SESSION_NAMESPACE, session]
    ensures r.Err? ==> url.segments == old(url.segments)
  {
    if session == [] {
      return Err(EmptySessionId);
    }
    if url.cannotBeABase {
      return Err(CannotBeABase);
    }
    if SESSION_NAMESPACE != [] {
      url.Push(SESSION_NAMESPACE);
    }
    url.Push(session);
    return Ok(());
  }

  /** The text of the example URL before the session path is appended. */
  lemma ExampleTextBefore()
    ensures "https" + "://" + "example.com" + PathText(["anon"]) == "https://example.com/anon"
  {
    assert PathText(["anon"]) == "/anon";
  }

  /** The path of the example URL after the session path is appended. */
  lemma ExamplePathAfter()
    ensures PathText(["anon", "neet", "test-session"]) == "/anon/neet/test-session"
  {
    var segments := ["anon", "neet", "test-session"];
    assert segments[1..] == ["neet", "test-session"];
    ExampleSessionPath();
    assert PathText(segments) == "/" + "anon" + "/neet/test-session";
  }

  /** The two segments the example appends, as path text. */
  lemma ExampleSessionPath()
    ensures PathText(["neet", "test-session"]) == "/neet/test-session"
  {
    var segments := ["neet", "test-session"];
    assert segments[1..][1..] == [];
    assert PathText(["test-session"]) == "/" + "test-session";
    assert "/" + "test-session" == "/test-session";
    assert PathText(segments) == "/" + "neet" + "/test-session";
  }

  /** The text of the example URL after the session path is appended. */
  lemma ExampleTextAfter()
    ensures "https" + "://" + "example.com" + PathText(["anon", "neet", "test-session"])
         == "https://example.com/anon/neet/test-session"
  {
    ExamplePathAfter();
    assert "https" + "://" + "example.com" == "https://example.com";
    assert "https://example.com" + "/anon/neet/test-session" == "https://example.com/anon/neet/test-session";
  }

  /** `https://example.com/anon` with session `test-session` becomes `https://example.com/anon/neet/test-session`. */
  method AppendSessionPathExample() returns (before: string, result: Result<()>, after: string)
    ensures before == "https://example.com/anon"
    ensures result.Ok?
    ensures after == "https://example.com/anon/neet/test-session"
  {
    var url := new Url("https", "example.com", false, ["anon"], None, None);
    ExampleTextBefore();
    ExampleTextAfter();
    before := url.Serialization();
    assert before == "https" + "://" + "example.com" + PathText(["anon"]) + "" + "";
    assert "test-session" != [];
    result := AppendSessionPath(url, "test-session");
    assert url.segments == ["anon", "neet", "test-session"];
    after := url.Serialization();
    assert after == "https" + "://" + "example.com" + PathText(["anon", "neet", "test-session"]) + "" + "";
  }

  /** An empty session id is refused and the URL keeps its text. */
  method EmptySessionExample() returns (result: Result<()>, after: string)
    ensures result == Err(EmptySessionId)
    ensures after == "https://example.com/anon"
  {
    var url := new Url("https", "example.com", false, ["anon"], None, None);
    result := AppendSessionPath(url, "");
    after := url.Serialization();
  }
}
