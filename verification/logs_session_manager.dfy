/**
  The logs product's view of the shared browser session.

  The shared session manager (not part of this model) keeps one record per
  visitor that several products read. The logs product owns one entry of that
  record, under the key "logs", whose value is a one-character
  tracking code. This module decides which raw codes are acceptable, keeps or
  resamples the code, derives the `isTracked` flag from it, and builds the
  two-getter facade the rest of the logs product queries.

  Randomness is an input: `draw` is the outcome of the sampling draw made
  against the configured sample rate (true when the visitor falls inside it).
*/
module LogsSessionManagement {

  /** Milliseconds relative to the page's time origin; an integer stands in for a possibly fractional number. */
  type RelativeTime = int

  /** `None` stands for JavaScript's `undefined`. */
  datatype Option<+T> = None | Some(value: T)

  /** Whether the logs of a session are sent; fixed for the session's lifetime. */
  datatype LoggerTrackingType = NotTracked | Tracked {
    /** The one-character wire code stored in the session record. */
    function Code(): (s: string)
      ensures |s| == 1
      ensures '0' <= s[0] <= '1'
      ensures s[0] == '1' <==> this == Tracked
    {
      match this
      case NotTracked => "0"
      case Tracked => "1"
    }
  }

  /** What the logs product hands back to the shared manager for its entry. */
  datatype SessionState = SessionState(trackingType: LoggerTrackingType, isTracked: bool)

  /**
    Accepts a raw code read from the record exactly when it is the code of
    some tracking type; an absent entry or any other string is rejected.
  */
  predicate HasValidLoggerSession(raw: Option<string>): (valid: bool)
    ensures valid <==> exists t: LoggerTrackingType :: raw == Some(t.Code())
  {
    raw == Some(NotTracked.Code()) || raw == Some(Tracked.Code())
  }

  /** The tracking type a valid raw code stands for. */
  function AsTrackingType(raw: Option<string>): (t: LoggerTrackingType)
    requires HasValidLoggerSession(raw)
    ensures raw == Some(t.Code())
  {
    if raw == Some(Tracked.Code()) then Tracked else NotTracked
  }

  /** A fresh sampling decision: tracked exactly when the draw succeeds. */
  function ComputeTrackingType(draw: bool): (t: LoggerTrackingType)
    ensures t == Tracked <==> draw
  {
    if !draw then NotTracked else Tracked
  }

  /**
    The callback the shared manager calls with the raw code it read: a valid
    code is kept, anything else is replaced by a fresh sampling decision.
  */
  function ComputeSessionState(raw: Option<string>, draw: bool): (s: SessionState)
    ensures HasValidLoggerSession(Some(s.trackingType.Code()))
    ensures s.isTracked <==> s.trackingType == Tracked
    ensures HasValidLoggerSession(raw) ==> raw == Some(s.trackingType.Code())
    ensures !HasValidLoggerSession(raw) ==> (s.trackingType == Tracked <==> draw)
  {
    var trackingType := if HasValidLoggerSession(raw) then AsTrackingType(raw) else ComputeTrackingType(draw);
    SessionState(trackingType, trackingType == Tracked)
  }

  /**
    Repeated reads of the record by the shared manager when nobody else writes
    it: the first tick reads `raw`, every later tick reads back the code the
    previous tick stored, and each tick brings its own draw.
  */
  function Rereads(raw: Option<string>, draws: seq<bool>): (s: SessionState)
    requires |draws| > 0
    ensures s.isTracked <==> s.trackingType == Tracked
    decreases |draws|
  {
    var first := ComputeSessionState(raw, draws[0]);
    if |draws| == 1 then first else Rereads(Some(first.trackingType.Code()), draws[1..])
  }

  /** The getters of the shared session manager, as far as the logs product uses them. */
  datatype CoreSessionManager = CoreSessionManager(
    getId: Option<RelativeTime> -> Option<string>,
    getTrackingType: Option<RelativeTime> -> Option<string>)

  /** The facade handed to the rest of the logs product. */
  datatype LogsSessionManager = LogsSessionManager(
    getId: Option<RelativeTime> -> Option<string>,
    isTracked: Option<RelativeTime> -> bool)

  /**
    Builds the facade. Without cookies there is no shared record: no id, and
    one decision drawn here is returned by every `isTracked` call. With
    cookies, `core` is the shared manager started with ComputeSessionState as
    its callback, and both getters read through to it.
  */
  function StartLogsSessionManagement(areCookieAuthorized: bool, draw: bool, core: CoreSessionManager)
    : (m: LogsSessionManager)
    ensures !areCookieAuthorized ==> forall t :: m.getId(t) == None
    ensures !areCookieAuthorized ==> forall t :: m.isTracked(t) == draw
    ensures areCookieAuthorized ==> m.getId == core.getId
    ensures areCookieAuthorized ==> forall t :: m.isTracked(t) <==> core.getTrackingType(t) == Some(Tracked.Code())
  {
    if !areCookieAuthorized then
      var isTracked := ComputeTrackingType(draw) == Tracked;
      LogsSessionManager(_ => None, _ => isTracked)
    else
      LogsSessionManager(core.getId, startTime => core.getTrackingType(startTime) == Some(Tracked.Code()))
  }

  // Properties of the wire code

  /** Encoding then narrowing gives back the tracking type, and distinct types have distinct codes. */
  lemma CodeRoundTrip(t: LoggerTrackingType, u: LoggerTrackingType)
    ensures HasValidLoggerSession(Some(t.Code()))
    ensures AsTrackingType(Some(t.Code())) == t
    ensures t.Code() == u.Code() ==> t == u
  {
    assert Tracked.Code()[0] != NotTracked.Code()[0];
  }

  /** An absent entry, the empty string and any string other than "0" and "1" are invalid. */
  lemma InvalidCodes(raw: Option<string>)
    requires raw == None || (raw.Some? && raw.value != "0" && raw.value != "1")
    ensures !HasValidLoggerSession(raw)
  {
  }

  // Properties of ComputeSessionState

  /** A valid existing code decides the state; the draw plays no part. */
  lemma DrawIgnoredForValidCode(raw: Option<string>, draw1: bool, draw2: bool)
    requires HasValidLoggerSession(raw)
    ensures ComputeSessionState(raw, draw1) == ComputeSessionState(raw, draw2)
    ensures ComputeSessionState(raw, draw1).trackingType == AsTrackingType(raw)
  {
  }

  /** Without a valid code the state is tracked exactly when the draw succeeds. */
  lemma ResampleWhenInvalid(raw: Option<string>, draw: bool)
    requires !HasValidLoggerSession(raw)
    ensures ComputeSessionState(raw, draw) == SessionState(ComputeTrackingType(draw), draw)
  {
  }

  /** Feeding the stored code back in yields the same state, whatever the second draw. */
  lemma SessionStateFixedPoint(raw: Option<string>, draw1: bool, draw2: bool)
    ensures var s := ComputeSessionState(raw, draw1);
            ComputeSessionState(Some(s.trackingType.Code()), draw2) == s
  {
    var s := ComputeSessionState(raw, draw1);
    CodeRoundTrip(s.trackingType, s.trackingType);
  }

  /** However many later ticks re-read the record, the state of the first tick stays. */
  lemma {:induction false} RereadsKeepFirstState(raw: Option<string>, draws: seq<bool>)
    requires |draws| > 0
    ensures Rereads(raw, draws) == ComputeSessionState(raw, draws[0])
    decreases |draws|
  {
    if |draws| > 1 {
      var first := ComputeSessionState(raw, draws[0]);
      RereadsKeepFirstState(Some(first.trackingType.Code()), draws[1..]);
      SessionStateFixedPoint(raw, draws[0], draws[1]);
    }
  }

  /** Once a valid code is stored, the later draws never change the state. */
  lemma RereadsIgnoreLaterDraws(raw: Option<string>, draws1: seq<bool>, draws2: seq<bool>)
    requires |draws1| > 0 && |draws2| > 0 && draws1[0] == draws2[0]
    ensures Rereads(raw, draws1) == Rereads(raw, draws2)
  {
    RereadsKeepFirstState(raw, draws1);
    RereadsKeepFirstState(raw, draws2);
  }

  // Properties of the facade

  /** Without cookies there is never an id, and isTracked gives one answer whatever the time. */
  lemma CookielessFacadeIsConstant(draw: bool, core: CoreSessionManager, t1: Option<RelativeTime>, t2: Option<RelativeTime>)
    ensures StartLogsSessionManagement(false, draw, core).getId(t1) == None
    ensures StartLogsSessionManagement(false, draw, core).isTracked(t1)
         == StartLogsSessionManagement(false, draw, core).isTracked(t2)
  {
    var m := StartLogsSessionManagement(false, draw, core);
    assert m.isTracked(t1) == draw && m.isTracked(t2) == draw;
  }

  /**
    With cookies, isTracked at a time holds exactly when the shared manager's
    code at that time is a valid code for Tracked; an absent or garbled code
    reads as not tracked.
  */
  lemma CookieIsTrackedDecodes(draw: bool, core: CoreSessionManager, t: Option<RelativeTime>)
    ensures StartLogsSessionManagement(true, draw, core).isTracked(t)
        <==> HasValidLoggerSession(core.getTrackingType(t)) && AsTrackingType(core.getTrackingType(t)) == Tracked
  {
    CodeRoundTrip(Tracked, NotTracked);
  }

  /**
    With cookies, when the shared manager stored the state computed by
    ComputeSessionState, the facade's isTracked agrees with that state's flag.
  */
  lemma CookieIsTrackedAgreesWithState(draw: bool, core: CoreSessionManager, t: Option<RelativeTime>,
                                      raw: Option<string>, tickDraw: bool)
    requires core.getTrackingType(t) == Some(ComputeSessionState(raw, tickDraw).trackingType.Code())
    ensures StartLogsSessionManagement(true, draw, core).isTracked(t) == ComputeSessionState(raw, tickDraw).isTracked
  {
    var s := ComputeSessionState(raw, tickDraw);
    CodeRoundTrip(s.trackingType, Tracked);
  }

  // The unit-test scenarios of the logs session manager

  /** An existing "1" or "0" is kept even when the draw would say otherwise. */
  lemma KeepsExistingCodeScenario()
    ensures ComputeSessionState(Some("1"), false) == SessionState(Tracked, true)
    ensures ComputeSessionState(Some("0"), true) == SessionState(NotTracked, false)
  {
  }

  /** With no entry, a successful draw stores "1" and a failed one stores "0". */
  lemma ResamplesWhenAbsentScenario()
    ensures ComputeSessionState(None, true).trackingType.Code() == "1"
    ensures ComputeSessionState(None, true).isTracked
    ensures ComputeSessionState(None, false).trackingType.Code() == "0"
    ensures !ComputeSessionState(None, false).isTracked
  {
  }
}
