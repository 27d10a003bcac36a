/**
 The background service worker of the extension (background.js): one global
 slot for the last auto-captured transcript, kept in memory and mirrored in
 the `capturedTranscript` key of the extension's local storage, a toolbar
 badge that signals a capture, and a message listener that routes three
 actions to the slot's operations.

 The pure functions (Capture, Get, Clear, Initialized, Restarted, Dispatch)
 specify one step each on a State value; the class
 TranscriptExtractorBackground performs the same steps in place and its
 methods are proved against them. Lemmas at the end state what the steps
 guarantee over whole runs.
 */
module Background {
  import opened Options

  /** A JSON-like field value of a transcript record. */
  datatype Value = Str(s: string) | Num(n: int) | Bool(b: bool) | Null

  /** A transcript record as a JavaScript object: field name to value. */
  type Record = map<string, Value>

  const CapturedAtKey := "capturedAt"
  const CaptureMethodKey := "captureMethod"
  const AutoCapture := "Auto-capture"

  const CapturedBadgeText := "1"
  const CapturedBadgeColor := "#4CAF50"
  const CapturedTitle := "Transcript captured! Click to view"
  const IdleTitle := "Extract YouTube Transcript"
  const NoTranscriptError := "No captured transcript"

  const TranscriptCaptured := "transcriptCaptured"
  const GetCapturedTranscriptAction := "getCapturedTranscript"
  const ClearCapturedTranscriptAction := "clearCapturedTranscript"

  /** The actions the message listener answers asynchronously. */
  predicate IsHandledAction(action: string) {
    action == TranscriptCaptured || action == GetCapturedTranscriptAction || action == ClearCapturedTranscriptAction
  }

  /** Toolbar badge text, badge background colour and toolbar title. */
  datatype Badge = Badge(text: string, color: string, title: string)

  /** The shapes of the objects passed to `sendResponse`. */
  datatype Response =
    | Ok                          // { success: true }
    | OkWith(transcript: Record)  // { success: true, transcript }
    | Fail(error: string)         // { success: false, error }
  {
    predicate Success() { !Fail? }
  }

  /** A runtime message: its `action` and its `data` payload. */
  datatype Message = Message(action: string, data: Record)

  /**
   The observable state: the in-memory slot `this.capturedTranscript`, the
   storage key `capturedTranscript` (None when the key is absent) and the badge.
   */
  datatype State = State(memory: Option<Record>, storage: Option<Record>, badge: Badge)

  /** The new state after one operation and what, if anything, went to `sendResponse`. */
  datatype Outcome = Outcome(state: State, response: Option<Response>)

  /** What the listener returns (true keeps the response channel open) and the outcome. */
  datatype Routed = Routed(keepOpen: bool, outcome: Outcome)

  /** A response is sent only when the caller supplied a responder. */
  function Reply(responder: bool, r: Response): Option<Response> {
    if responder then Some(r) else None
  }

  /**
   The record stored for a capture: the payload's fields spread first, then
   `capturedAt` and `captureMethod`, which therefore override payload fields
   of the same name.
   */
  function Stamp(data: Record, now: int): (r: Record)
    ensures r.Keys == data.Keys + {CapturedAtKey, CaptureMethodKey}
    ensures r[CapturedAtKey] == Num(now) && r[CaptureMethodKey] == Str(AutoCapture)
    ensures forall k :: k in data && k != CapturedAtKey && k != CaptureMethodKey ==> r[k] == data[k]
  {
    data + map[CapturedAtKey := Num(now), CaptureMethodKey := Str(AutoCapture)]
  }

  /** handleCapturedTranscript: write the stamped record to memory and storage, light the badge. */
  function Capture(s: State, data: Record, now: int, responder: bool): Outcome {
    var rec := Stamp(data, now);
    Outcome(State(Some(rec), Some(rec), Badge(CapturedBadgeText, CapturedBadgeColor, CapturedTitle)),
            Reply(responder, Ok))
  }

  /** getCapturedTranscript: memory first; otherwise storage, caching what it finds. */
  function Get(s: State, responder: bool): Outcome {
    match s.memory
    case Some(rec) => Outcome(s, Reply(responder, OkWith(rec)))
    case None =>
      match s.storage
      case Some(rec) => Outcome(s.(memory := Some(rec)), Reply(responder, OkWith(rec)))
      case None => Outcome(s, Reply(responder, Fail(NoTranscriptError)))
  }

  /** clearCapturedTranscript: empty both slots, blank the badge text, reset the title (the colour stays). */
  function Clear(s: State, responder: bool): Outcome {
    Outcome(State(None, None, s.badge.(text := "", title := IdleTitle)), Reply(responder, Ok))
  }

  /** initialize: copy storage into memory when storage holds a record. */
  function Initialized(s: State): State {
    if s.storage.Some? then s.(memory := s.storage) else s
  }

  /** A service-worker restart: memory is lost, then initialize runs. */
  function Restarted(s: State): State {
    Initialized(s.(memory := None))
  }

  /**
   The `switch` of the runtime message listener. The three known actions run
   their handler and return true; any other action returns false, sends
   nothing and changes nothing.
   */
  function Dispatch(s: State, msg: Message, now: int, responder: bool): (r: Routed)
    ensures r.keepOpen <==> IsHandledAction(msg.action)
    ensures !r.keepOpen ==> r.outcome == Outcome(s, None)
    ensures r.outcome.response.Some? ==> responder
    ensures responder && r.keepOpen ==> r.outcome.response.Some?
  {
    if msg.action == TranscriptCaptured then Routed(true, Capture(s, msg.data, now, responder))
    else if msg.action == GetCapturedTranscriptAction then Routed(true, Get(s, responder))
    else if msg.action == ClearCapturedTranscriptAction then Routed(true, Clear(s, responder))
    else Routed(false, Outcome(s, None))
  }

  /** The service worker as an object whose fields the handlers update in place. */
  class TranscriptExtractorBackground {
    /** this.capturedTranscript; None stands for null. */
    var capturedTranscript: Option<Record>
    /** chrome.storage.local's `capturedTranscript` key; None when absent. */
    var storage: Option<Record>
    var badgeText: string
    var badgeColor: string
    var title: string

    function Snapshot(): State
      reads this
    {
      State(capturedTranscript, storage, Badge(badgeText, badgeColor, title))
    }

    /** A fresh worker: empty memory over whatever storage and badge the browser holds. */
    constructor (stored: Option<Record>, badge: Badge)
      ensures Snapshot() == State(None, stored, badge)
    {
      capturedTranscript := None;
      storage := stored;
      badgeText, badgeColor, title := badge.text, badge.color, badge.title;
    }

    method HandleCapturedTranscript(data: Record, now: int, responder: bool) returns (response: Option<Response>)
      modifies this
      ensures Outcome(Snapshot(), response) == Capture(old(Snapshot()), data, now, responder)
    {
      capturedTranscript := Some(Stamp(data, now));
      storage := capturedTranscript;
      badgeText := CapturedBadgeText;
      badgeColor := CapturedBadgeColor;
      title := CapturedTitle;
      response := if responder then Some(Ok) else None;
    }

    method GetCapturedTranscript(responder: bool) returns (response: Option<Response>)
      modifies this
      ensures Outcome(Snapshot(), response) == Get(old(Snapshot()), responder)
    {
      if capturedTranscript.Some? {
        response := if responder then Some(OkWith(capturedTranscript.value)) else None;
        return;
      }
      var result := storage;
      if result.Some? {
        capturedTranscript := result;
        response := if responder then Some(OkWith(result.value)) else None;
      } else {
        response := if responder then Some(Fail(NoTranscriptError)) else None;
      }
    }

    method ClearCapturedTranscript(responder: bool) returns (response: Option<Response>)
      modifies this
      ensures Outcome(Snapshot(), response) == Clear(old(Snapshot()), responder)
    {
      capturedTranscript := None;
      badgeText := "";
      title := IdleTitle;
      storage := None;
      response := if responder then Some(Ok) else None;
    }

    method Initialize()
      modifies this
      ensures Snapshot() == Initialized(old(Snapshot()))
    {
      var result := storage;
      if result.Some? {
        capturedTranscript := result;
      }
    }

    /** The worker is torn down and started again: memory is lost, then initialize runs. */
    method Restart()
      modifies this
      ensures Snapshot() == Restarted(old(Snapshot()))
    {
      capturedTranscript := None;
      Initialize();
    }

    /** The runtime message listener. */
    method OnMessage(msg: Message, now: int, responder: bool) returns (keepOpen: bool, response: Option<Response>)
      modifies this
      ensures Routed(keepOpen, Outcome(Snapshot(), response)) == Dispatch(old(Snapshot()), msg, now, responder)
    {
      if msg.action == TranscriptCaptured {
        response := HandleCapturedTranscript(msg.data, now, responder);
        return true, response;
      } else if msg.action == GetCapturedTranscriptAction {
        response := GetCapturedTranscript(responder);
        return true, response;
      } else if msg.action == ClearCapturedTranscriptAction {
        response := ClearCapturedTranscript(responder);
        return true, response;
      }
      return false, None;
    }
  }

  // ---------------------------------------------------------------------------
  // Properties of single steps

  /** A capture fills both slots with the stamped record, lights the badge and acknowledges. */
  lemma CaptureStoresStamped(s: State, data: Record, now: int, responder: bool)
    ensures var o := Capture(s, data, now, responder);
      && o.state.memory == o.state.storage == Some(Stamp(data, now))
      && o.state.badge == Badge("1", "#4CAF50", "Transcript captured! Click to view")
      && (responder ==> o.response == Some(Ok))
  {
  }

  /** Last write wins: a second capture fully replaces the first, whatever the first held. */
  lemma LastCaptureWins(s: State, d1: Record, t1: int, d2: Record, t2: int, r1: bool, r2: bool)
    ensures Capture(Capture(s, d1, t1, r1).state, d2, t2, r2) == Capture(s, d2, t2, r2)
  {
  }

  /** With memory filled, a get answers from memory and changes nothing, whatever storage holds. */
  lemma GetPrefersMemory(s: State, responder: bool)
    requires s.memory.Some?
    ensures Get(s, responder) == Outcome(s, Reply(responder, OkWith(s.memory.value)))
    ensures Get(s.(storage := None), responder).response == Get(s, responder).response
  {
  }

  /** With memory empty and storage filled, a get caches the stored record and returns it. */
  lemma GetFallsBackToStorage(s: State, responder: bool)
    requires s.memory.None? && s.storage.Some?
    ensures Get(s, responder).state == s.(memory := s.storage)
    ensures responder ==> Get(s, responder).response == Some(OkWith(s.storage.value))
  {
  }

  /** With both slots empty, a get fails with "No captured transcript" and changes nothing. */
  lemma GetEmptyFails(s: State)
    requires s.memory.None? && s.storage.None?
    ensures Get(s, true) == Outcome(s, Some(Fail("No captured transcript")))
  {
  }

  /** Clear empties both slots, is idempotent, and a get after it fails. */
  lemma ClearResets(s: State, r1: bool, r2: bool)
    ensures var c := Clear(s, r1).state;
      && c.memory.None? && c.storage.None?
      && c.badge.text == "" && c.badge.title == "Extract YouTube Transcript"
      && Clear(c, r2).state == c
      && Get(c, true).response == Some(Fail(NoTranscriptError))
  {
  }

  /** Initialize never empties memory, and fills it exactly when storage holds a record. */
  lemma InitializeKeepsMemory(s: State)
    ensures s.memory.Some? ==> Initialized(s).memory.Some?
    ensures s.storage.Some? ==> Initialized(s).memory == s.storage
    ensures s.storage.None? ==> Initialized(s) == s
    ensures Initialized(Initialized(s)) == Initialized(s)
  {
  }

  // ---------------------------------------------------------------------------
  // Properties of whole runs

  /** What can happen to the worker: a delivered message, or a restart. */
  datatype Event = Deliver(msg: Message, now: int, responder: bool) | WorkerRestart

  function Step(s: State, e: Event): State {
    match e
    case Deliver(msg, now, responder) => Dispatch(s, msg, now, responder).outcome.state
    case WorkerRestart => Restarted(s)
  }

  /** The state after the events, in order, starting from s. */
  function Run(s: State, evs: seq<Event>): State
    decreases |evs|
  {
    if evs == [] then s else Run(Step(s, evs[0]), evs[1..])
  }

  /**
   Reference definition of the storage slot after a run: the record of the
   last capture, None if the last write was a clear, the initial slot if
   neither occurred.
   */
  function LastWrite(evs: seq<Event>, initial: Option<Record>): Option<Record>
    decreases |evs|
  {
    if evs == [] then initial
    else
      var e := evs[|evs| - 1];
      if e.Deliver? && e.msg.action == TranscriptCaptured then Some(Stamp(e.msg.data, e.now))
      else if e.Deliver? && e.msg.action == ClearCapturedTranscriptAction then None
      else LastWrite(evs[..|evs| - 1], initial)
  }

  /** Memory is a cache of storage: whenever it holds a record, storage holds the same one. */
  ghost predicate Coherent(s: State) {
    s.memory.Some? ==> s.memory == s.storage
  }

  /** The badge signals a capture exactly while storage holds one. */
  ghost predicate BadgeAgrees(s: State) {
    && (s.storage.Some? ==> s.badge == Badge(CapturedBadgeText, CapturedBadgeColor, CapturedTitle))
    && (s.storage.None? ==> s.badge.text == "" && s.badge.title == IdleTitle)
  }

  lemma StepPreserves(s: State, e: Event)
    ensures Coherent(s) ==> Coherent(Step(s, e))
    ensures BadgeAgrees(s) ==> BadgeAgrees(Step(s, e))
    ensures Step(s, e).storage == LastWrite([e], s.storage)
  {
  }

  lemma {:induction false} RunSnoc(s: State, evs: seq<Event>, e: Event)
    ensures Run(s, evs + [e]) == Step(Run(s, evs), e)
    decreases |evs|
  {
    if evs == [] {
      assert evs + [e] == [e];
    } else {
      assert (evs + [e])[1..] == evs[1..] + [e];
      RunSnoc(Step(s, evs[0]), evs[1..], e);
    }
  }

  /** The storage slot after any run is the last write of that run (single slot, last write wins). */
  lemma {:induction false} RunStorageIsLastWrite(s: State, evs: seq<Event>)
    ensures Run(s, evs).storage == LastWrite(evs, s.storage)
    decreases |evs|
  {
    if evs != [] {
      var init, e := evs[..|evs| - 1], evs[|evs| - 1];
      assert evs == init + [e];
      RunSnoc(s, init, e);
      RunStorageIsLastWrite(s, init);
      StepPreserves(Run(s, init), e);
    }
  }

  /** Every run keeps memory coherent with storage and the badge in agreement with storage. */
  lemma {:induction false} RunPreservesInvariants(s: State, evs: seq<Event>)
    ensures Coherent(s) ==> Coherent(Run(s, evs))
    ensures BadgeAgrees(s) ==> BadgeAgrees(Run(s, evs))
    decreases |evs|
  {
    if evs != [] {
      StepPreserves(s, evs[0]);
      RunPreservesInvariants(Step(s, evs[0]), evs[1..]);
    }
  }

  /**
   From a coherent start (a freshly constructed worker has empty memory),
   a get after any run answers with the last captured record, or fails when
   the last write was a clear or nothing was ever written.
   */
  lemma RunThenGet(s: State, evs: seq<Event>)
    requires Coherent(s)
    ensures Get(Run(s, evs), true).response ==
      match LastWrite(evs, s.storage)
      case Some(rec) => Some(OkWith(rec))
      case None => Some(Fail(NoTranscriptError))
  {
    RunPreservesInvariants(s, evs);
    RunStorageIsLastWrite(s, evs);
  }
}
