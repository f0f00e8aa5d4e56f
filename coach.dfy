/** The live coach of components/Coach.tsx: the `isActive`/`status` transitions of a voice
    session, the gapless scheduling of the audio chunks the model sends back, the set of
    sources still playing, the reset on an interruption, and the dispatch of `logWater` tool
    calls. Times are seconds on the output audio clock; the clock reading at each message is a
    parameter. Microphone capture, camera frames and the interval timer are device I/O and
    only their on/off state is kept. */
module Coach {
  import opened Types
  import opened Base64
  import opened GeminiService
  import App

  // ================================================================ messages and tool calls

  /** A `functionCalls` entry; `amount` is the `amount` argument. */
  datatype FunctionCall = FunctionCall(id: string, name: string, amount: int)

  /** A `functionResponses` entry. */
  datatype ToolResponse = ToolResponse(id: string, name: string, status: string)

  /** The parts of a `LiveServerMessage` the coach reads: the first part's inline audio, the
      tool call's function calls, and the interrupted flag. */
  datatype ServerMessage = ServerMessage(
    audio: Option<string>,
    toolCalls: Option<seq<FunctionCall>>,
    interrupted: bool)

  const LogWaterTool := "logWater"
  const SuccessStatus := "success"

  /** The `logWater` calls among `calls`, in order. */
  function LogWaterCalls(calls: seq<FunctionCall>): (r: seq<FunctionCall>)
    ensures |r| <= |calls|
  {
    if calls == [] then []
    else
      var last := calls[|calls| - 1];
      LogWaterCalls(calls[..|calls| - 1]) + (if last.name == LogWaterTool then [last] else [])
  }

  /** Exactly the calls named `logWater` are acted on. */
  lemma {:induction false} LogWaterCallsMembers(calls: seq<FunctionCall>)
    ensures forall c :: c in LogWaterCalls(calls) <==> c in calls && c.name == LogWaterTool
  {
    if calls != [] {
      var init := calls[..|calls| - 1];
      LogWaterCallsMembers(init);
      assert calls == init + [calls[|calls| - 1]];
    }
  }

  /** The number of calls named `logWater`. */
  function CountLogWater(calls: seq<FunctionCall>): nat
  {
    if calls == [] then 0
    else CountLogWater(calls[..|calls| - 1]) + (if calls[|calls| - 1].name == LogWaterTool then 1 else 0)
  }

  /** Each `logWater` call is acted on once, and the calls keep their order: the calls acted
      on are a subsequence of the message's calls, as many as there are `logWater` calls. */
  lemma {:induction false} LogWaterCallsOnceInOrder(calls: seq<FunctionCall>)
    ensures IsSubsequence(LogWaterCalls(calls), calls)
    ensures |LogWaterCalls(calls)| == CountLogWater(calls)
  {
    if calls != [] {
      var init := calls[..|calls| - 1];
      var last := calls[|calls| - 1];
      LogWaterCallsOnceInOrder(init);
      SubsequenceAppend(LogWaterCalls(init), init, last);
      assert calls == init + [last];
      if last.name == LogWaterTool {
        assert LogWaterCalls(calls) == LogWaterCalls(init) + [last];
      } else {
        assert LogWaterCalls(calls) == LogWaterCalls(init) + [] == LogWaterCalls(init);
      }
    }
  }

  /** The amounts handed to `onLogWater`, one per call. */
  function Amounts(calls: seq<FunctionCall>): (a: seq<int>)
    ensures |a| == |calls|
  {
    if calls == [] then [] else Amounts(calls[..|calls| - 1]) + [calls[|calls| - 1].amount]
  }

  /** Each amount logged is its call's `amount` argument, in the calls' order. */
  lemma {:induction false} AmountsPointwise(calls: seq<FunctionCall>)
    ensures forall k :: 0 <= k < |calls| ==> Amounts(calls)[k] == calls[k].amount
  {
    if calls != [] {
      AmountsPointwise(calls[..|calls| - 1]);
    }
  }

  /** The acknowledgements sent, one per call. */
  function Acks(calls: seq<FunctionCall>): (r: seq<ToolResponse>)
    ensures |r| == |calls|
  {
    if calls == [] then []
    else
      var last := calls[|calls| - 1];
      Acks(calls[..|calls| - 1]) + [ToolResponse(last.id, last.name, SuccessStatus)]
  }

  /** Each acknowledgement echoes its call's id and name with status "success". */
  lemma {:induction false} AcksPointwise(calls: seq<FunctionCall>)
    ensures forall k :: 0 <= k < |calls| ==>
              Acks(calls)[k] == ToolResponse(calls[k].id, calls[k].name, SuccessStatus)
  {
    if calls != [] {
      AcksPointwise(calls[..|calls| - 1]);
    }
  }

  lemma LogWaterCallsStep(calls: seq<FunctionCall>, i: nat)
    requires i < |calls|
    ensures LogWaterCalls(calls[..i + 1]) ==
            LogWaterCalls(calls[..i]) + (if calls[i].name == LogWaterTool then [calls[i]] else [])
  {
    assert calls[..i + 1][..i] == calls[..i];
  }

  lemma AmountsAppend(calls: seq<FunctionCall>, c: FunctionCall)
    ensures Amounts(calls + [c]) == Amounts(calls) + [c.amount]
  {
    assert (calls + [c])[..|calls|] == calls;
  }

  lemma AcksAppend(calls: seq<FunctionCall>, c: FunctionCall)
    ensures Acks(calls + [c]) == Acks(calls) + [ToolResponse(c.id, c.name, SuccessStatus)]
  {
    assert (calls + [c])[..|calls|] == calls;
  }

  /** The tool-call loop of `onmessage`: each `logWater` call logs its amount once when a
      callback is given and is acknowledged with its own id and name when the session
      reference is set; calls with any other name have no effect. */
  method DispatchToolCalls(calls: seq<FunctionCall>, hasLogWater: bool, sessionSet: bool)
    returns (waterLogs: seq<int>, responses: seq<ToolResponse>)
    ensures waterLogs == if hasLogWater then Amounts(LogWaterCalls(calls)) else []
    ensures responses == if sessionSet then Acks(LogWaterCalls(calls)) else []
  {
    waterLogs := [];
    responses := [];
    var i := 0;
    while i < |calls|
      invariant 0 <= i <= |calls|
      invariant hasLogWater ==> waterLogs == Amounts(LogWaterCalls(calls[..i]))
      invariant !hasLogWater ==> waterLogs == []
      invariant sessionSet ==> responses == Acks(LogWaterCalls(calls[..i]))
      invariant !sessionSet ==> responses == []
    {
      var fc := calls[i];
      ghost var before := LogWaterCalls(calls[..i]);
      LogWaterCallsStep(calls, i);
      if fc.name == LogWaterTool {
        AmountsAppend(before, fc);
        AcksAppend(before, fc);
        if hasLogWater {
          waterLogs := waterLogs + [fc.amount];
        }
        if sessionSet {
          responses := responses + [ToolResponse(fc.id, fc.name, SuccessStatus)];
        }
      } else {
        assert before + [] == before;
      }
      i := i + 1;
    }
    assert calls[..|calls|] == calls;
  }

  /** The sum of a list of amounts. */
  function Total(amounts: seq<int>): int
  {
    if amounts == [] then 0 else Total(amounts[..|amounts| - 1]) + amounts[|amounts| - 1]
  }

  /** Each logged amount goes to the app's `handleAddWater`: with a session the water total
      grows by the sum of the amounts and one log row per amount is inserted. */
  method LogWaterViaVoice(app: App.AppState, amounts: seq<int>) returns (calls: seq<App.RemoteCall>)
    requires app.Valid()
    modifies app`waterIntake
    ensures app.Valid()
    ensures app.session.Some? ==> app.waterIntake == old(app.waterIntake) + Total(amounts)
    ensures app.session.Some? ==>
              |calls| == |amounts| &&
              forall k :: 0 <= k < |amounts| ==> calls[k] == App.InsertWaterLog(app.session.value.userId, amounts[k])
    ensures app.session.None? ==> app.waterIntake == old(app.waterIntake) && calls == []
  {
    calls := [];
    var i := 0;
    while i < |amounts|
      invariant 0 <= i <= |amounts|
      invariant app.Valid()
      invariant app.session.Some? ==> app.waterIntake == old(app.waterIntake) + Total(amounts[..i])
      invariant app.session.Some? ==>
                  |calls| == i &&
                  forall k :: 0 <= k < i ==> calls[k] == App.InsertWaterLog(app.session.value.userId, amounts[k])
      invariant app.session.None? ==> app.waterIntake == old(app.waterIntake) && calls == []
    {
      assert amounts[..i + 1][..i] == amounts[..i];
      var call := app.AddWater(amounts[i]);
      if call.Some? {
        calls := calls + [call.value];
      }
      i := i + 1;
    }
    assert amounts[..|amounts|] == amounts;
  }

  // ================================================================ playback schedule

  /** `Math.max(nextStart, currentTime)`: a chunk starts when the queue runs dry, never in
      the past. */
  function StartOf(nextStart: real, now: real): (s: real)
    ensures s >= nextStart && s >= now
    ensures s == nextStart || s == now
  {
    if nextStart >= now then nextStart else now
  }

  /** A chunk arriving at clock time `now` that plays for `duration` seconds. */
  datatype Arrival = Arrival(now: real, duration: real)

  /** The start times of successive chunks with no interruption in between, from the queue
      end `nextStart`. */
  function Starts(nextStart: real, arrivals: seq<Arrival>): (starts: seq<real>)
    ensures |starts| == |arrivals|
    decreases |arrivals|
  {
    if arrivals == [] then []
    else
      var s := StartOf(nextStart, arrivals[0].now);
      [s] + Starts(s + arrivals[0].duration, arrivals[1..])
  }

  /** The schedule's guarantees: no chunk starts before it arrives or before the queue end,
      no two consecutive chunks overlap, and a chunk that arrives while earlier audio is still
      queued starts exactly when that audio ends. */
  lemma {:induction false} ScheduleIsGapless(nextStart: real, arrivals: seq<Arrival>)
    ensures var starts := Starts(nextStart, arrivals);
            && (|arrivals| > 0 ==> starts[0] >= nextStart)
            && (forall k :: 0 <= k < |arrivals| ==> starts[k] >= arrivals[k].now)
            && (forall k :: 0 <= k < |arrivals| - 1 ==> starts[k + 1] >= starts[k] + arrivals[k].duration)
            && (forall k :: 0 <= k < |arrivals| - 1 && arrivals[k + 1].now <= starts[k] + arrivals[k].duration ==>
                  starts[k + 1] == starts[k] + arrivals[k].duration)
    decreases |arrivals|
  {
    if arrivals != [] {
      var s := StartOf(nextStart, arrivals[0].now);
      var rest := Starts(s + arrivals[0].duration, arrivals[1..]);
      ScheduleIsGapless(s + arrivals[0].duration, arrivals[1..]);
      var starts := Starts(nextStart, arrivals);
      assert starts == [s] + rest;
      forall k | 1 <= k < |arrivals|
        ensures starts[k] == rest[k - 1] && arrivals[k] == arrivals[1..][k - 1]
      {
      }
    }
  }

  const OutputSampleRate := 24000

  /** How long a chunk of base64 audio plays, or `None` when decoding it throws. */
  function ChunkDuration(data: string): (d: Option<real>)
    ensures d.Some? ==> d.value > 0.0
    ensures d.Some? <==> Decode(data).Some? && |Decode(data).value| % 2 == 0 && |Decode(data).value| >= 2
  {
    var bytes := Decode(data);
    if bytes.None? || |bytes.value| % 2 != 0 || !BufferAccepted(1, |bytes.value| / 2, OutputSampleRate) then None
    else Some((|bytes.value| / 2) as real / OutputSampleRate as real)
  }

  /** An audio source started by `source.start(start)`. */
  datatype Playback = Playback(source: nat, start: real, duration: real)

  // ================================================================ the controller

  /** What `sessionRef` holds: nothing until the connection resolves, then the session,
      which `stopSession` closes but does not clear. */
  datatype SessionRef = NoSession | Connected | ClosedSession

  /** How `startSession` ends: fully set up, or with an exception at one of its steps. */
  datatype StartOutcome = Started | AudioContextFailed | MediaDenied | ConnectFailed

  const ReadyStatus := "Ready to chat"
  const ConnectingStatus := "Connecting..."
  const WatchingStatus := "Eyeing your food..."
  const ErrorStatus := "Error starting coach"

  class CoachController {
    var isActive: bool
    var status: string
    var nextStartTime: real
    /** `sourcesRef`: the sources scheduled and not yet ended, by id. */
    var sources: set<nat>
    var nextSourceId: nat
    var sessionRef: SessionRef
    var frameTimerRunning: bool
    var tracksLive: bool
    ghost var started: set<nat>
    ghost var ended: set<nat>

    /** The source set holds exactly the sources started and not yet ended. */
    ghost predicate Valid()
      reads this
    {
      sources == started - ended && ended <= started &&
      forall id :: id in started ==> id < nextSourceId
    }

    constructor ()
      ensures Valid()
      ensures !isActive && status == ReadyStatus && nextStartTime == 0.0 && sources == {}
      ensures sessionRef == NoSession && !frameTimerRunning && !tracksLive
    {
      isActive := false;
      status := ReadyStatus;
      nextStartTime := 0.0;
      sources := {};
      nextSourceId := 0;
      sessionRef := NoSession;
      frameTimerRunning := false;
      tracksLive := false;
      started := {};
      ended := {};
    }

    /** `startSession`: any exception leaves the error status; the camera and microphone
        stay on once granted even when the connection then fails. */
    method StartSession(outcome: StartOutcome)
      requires Valid()
      modifies this`status, this`sessionRef, this`tracksLive
      ensures Valid()
      ensures outcome != Started ==> status == ErrorStatus && sessionRef == old(sessionRef)
      ensures outcome == Started ==> status == ConnectingStatus && sessionRef == Connected
      ensures tracksLive == (old(tracksLive) || outcome == Started || outcome == ConnectFailed)
    {
      status := ConnectingStatus;
      if outcome == AudioContextFailed || outcome == MediaDenied {
        status := ErrorStatus;
        return;
      }
      tracksLive := true;
      if outcome == ConnectFailed {
        status := ErrorStatus;
        return;
      }
      sessionRef := Connected;
    }

    /** `onopen`: the coach is live, watching, and the frame timer runs. */
    method OnOpen()
      requires Valid()
      modifies this`isActive, this`status, this`frameTimerRunning
      ensures Valid()
      ensures isActive && status == WatchingStatus && frameTimerRunning
    {
      isActive := true;
      status := WatchingStatus;
      frameTimerRunning := true;
    }

    /** `onclose`: the coach is no longer live; nothing else changes. */
    method OnClose()
      requires Valid()
      modifies this`isActive
      ensures Valid()
      ensures !isActive
    {
      isActive := false;
    }

    /** `stopSession`: stops the frame timer, closes the session, stops the tracks, marks the
        coach inactive and asks the parent to close it. Sources already scheduled keep
        playing and the queue end is kept. */
    method StopSession() returns (closeRequested: bool)
      requires Valid()
      modifies this`frameTimerRunning, this`sessionRef, this`tracksLive, this`isActive
      ensures Valid()
      ensures !frameTimerRunning && !tracksLive && !isActive && closeRequested
      ensures sessionRef == if old(sessionRef) == NoSession then NoSession else ClosedSession
    {
      frameTimerRunning := false;
      if sessionRef != NoSession {
        sessionRef := ClosedSession;
      }
      tracksLive := false;
      isActive := false;
      closeRequested := true;
    }

    /** A source's `onended`: it leaves the set. */
    method OnSourceEnded(id: nat)
      requires Valid() && id in started
      modifies this`sources, this`ended
      ensures Valid()
      ensures sources == old(sources) - {id}
    {
      sources := sources - {id};
      ended := ended + {id};
    }

    /** The audio part of `onmessage`: the queue end first moves up to `now`; if decoding
        the chunk throws, nothing else happens. Otherwise the chunk starts at the queue end,
        which then advances by the chunk's duration, and its new source joins the set. */
    method PlayChunk(data: string, now: real) returns (played: Option<Playback>)
      requires Valid()
      modifies this`nextStartTime, this`sources, this`nextSourceId, this`started
      ensures Valid()
      ensures played.None? <==> ChunkDuration(data).None?
      ensures played.None? ==> nextStartTime == StartOf(old(nextStartTime), now) && sources == old(sources)
      ensures played.Some? ==>
                && played.value == Playback(old(nextSourceId), StartOf(old(nextStartTime), now), ChunkDuration(data).value)
                && nextStartTime == played.value.start + played.value.duration
                && sources == old(sources) + {played.value.source}
                && played.value.source !in old(sources)
    {
      nextStartTime := StartOf(nextStartTime, now);
      var bytes := DecodePCM(data);
      if bytes.Err? {
        return None;
      }
      var buffer := DecodeAudioData(bytes.value, OutputSampleRate, 1);
      if buffer.Err? {
        return None;
      }
      var duration := buffer.value.Length1 as real / OutputSampleRate as real;
      var id := nextSourceId;
      played := Some(Playback(id, nextStartTime, duration));
      nextStartTime := nextStartTime + duration;
      sources := sources + {id};
      started := started + {id};
      nextSourceId := nextSourceId + 1;
    }

    /** `onmessage` at clock time `now`: a non-empty audio part is played first, and if
        decoding it throws the rest of the message is dropped. Then `logWater` calls are
        dispatched, and finally an interruption stops every source, empties the set and
        resets the queue end to 0. */
    method OnMessage(msg: ServerMessage, now: real, hasLogWater: bool)
      returns (played: Option<Playback>, waterLogs: seq<int>, responses: seq<ToolResponse>, failed: bool)
      requires Valid()
      modifies this`nextStartTime, this`sources, this`nextSourceId, this`started, this`ended
      ensures Valid()
      ensures var hasAudio := msg.audio.Some? && msg.audio.value != "";
              failed <==> hasAudio && ChunkDuration(msg.audio.value).None?
      ensures failed ==>
                nextStartTime == StartOf(old(nextStartTime), now) && sources == old(sources) &&
                played.None? && waterLogs == [] && responses == []
      ensures !failed && msg.audio.Some? && msg.audio.value != "" ==>
                played == Some(Playback(old(nextSourceId), StartOf(old(nextStartTime), now),
                                        ChunkDuration(msg.audio.value).value))
      ensures !failed && !(msg.audio.Some? && msg.audio.value != "") ==> played.None?
      ensures !failed && !msg.interrupted ==>
                nextStartTime == (if played.Some? then played.value.start + played.value.duration else old(nextStartTime)) &&
                sources == old(sources) + (if played.Some? then {played.value.source} else {})
      ensures !failed && msg.interrupted ==> nextStartTime == 0.0 && sources == {}
      ensures !failed && msg.toolCalls.None? ==> waterLogs == [] && responses == []
      ensures !failed && msg.toolCalls.Some? ==>
                waterLogs == (if hasLogWater then Amounts(LogWaterCalls(msg.toolCalls.value)) else []) &&
                responses == (if sessionRef != NoSession then Acks(LogWaterCalls(msg.toolCalls.value)) else [])
    {
      played, waterLogs, responses, failed := None, [], [], false;
      if msg.audio.Some? && msg.audio.value != "" {
        played := PlayChunk(msg.audio.value, now);
        if played.None? {
          return None, [], [], true;
        }
      }
      if msg.toolCalls.Some? {
        waterLogs, responses := DispatchToolCalls(msg.toolCalls.value, hasLogWater, sessionRef != NoSession);
      }
      if msg.interrupted {
        ended := ended + sources;
        sources := {};
        nextStartTime := 0.0;
      }
    }
  }
}
