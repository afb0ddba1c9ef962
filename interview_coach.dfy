/** The live interview's playback scheduler and session flags.

    Audio chunks streamed back by the remote interviewer are decoded (outside
    this model) and queued for playback on the output context's clock: each
    starts at the later of the playback cursor and the current time, and the
    cursor moves to its end. An interruption stops everything still queued.
    Times are seconds, as exact reals. */
module InterviewCoach {
  import opened Types

  /** The output context's sample rate; chunks are mono at this rate. */
  const OutputSampleRate: real := 24000.0

  /** The playing time of a decoded chunk of `frames` samples. */
  function ChunkDuration(frames: nat): (d: real)
    ensures d >= 0.0 && d * OutputSampleRate == frames as real
  {
    frames as real / OutputSampleRate
  }

  /** `Math.max(cursor, now)`: where the next chunk starts. Never before the
      current time, and exactly at the cursor when the cursor is not behind. */
  function StartTime(cursor: real, now: real): (t: real)
    ensures t >= now && t >= cursor
    ensures cursor >= now ==> t == cursor
    ensures now >= cursor ==> t == now
  {
    if cursor >= now then cursor else now
  }

  // ---------------------------------------------------------------------------
  // Successive chunks without an interruption

  /** A chunk as the scheduler sees it: the clock reading when it is scheduled
      and its playing time. */
  datatype Arrival = Arrival(now: real, duration: real)

  predicate DurationsNonNegative(a: seq<Arrival>) {
    forall k :: 0 <= k < |a| ==> a[k].duration >= 0.0
  }

  /** The start times of chunks scheduled one after another from cursor `cursor`. */
  function Starts(cursor: real, a: seq<Arrival>): (st: seq<real>)
    ensures |st| == |a|
    decreases |a|
  {
    if a == [] then []
    else
      var t := StartTime(cursor, a[0].now);
      [t] + Starts(t + a[0].duration, a[1..])
  }

  /** The cursor once every chunk of `a` has been scheduled. */
  function CursorAfter(cursor: real, a: seq<Arrival>): real
    decreases |a|
  {
    if a == [] then cursor
    else CursorAfter(StartTime(cursor, a[0].now) + a[0].duration, a[1..])
  }

  /** The summed playing time of `a`. */
  function TotalDuration(a: seq<Arrival>): real
    decreases |a|
  {
    if a == [] then 0.0 else a[0].duration + TotalDuration(a[1..])
  }

  /** No chunk is scheduled before the clock reading at which it arrived. */
  lemma {:induction false} StartsNotInPast(cursor: real, a: seq<Arrival>)
    ensures forall k :: 0 <= k < |a| ==> Starts(cursor, a)[k] >= a[k].now
    decreases |a|
  {
    if a != [] {
      var t := StartTime(cursor, a[0].now);
      StartsNotInPast(t + a[0].duration, a[1..]);
      assert forall k :: 1 <= k < |a| ==> Starts(cursor, a)[k] == Starts(t + a[0].duration, a[1..])[k - 1];
    }
  }

  /** Every chunk plays between the starting cursor and the final cursor. */
  lemma {:induction false} StartsWithinCursor(cursor: real, a: seq<Arrival>)
    requires DurationsNonNegative(a)
    ensures forall k :: 0 <= k < |a| ==> cursor <= Starts(cursor, a)[k]
    ensures forall k :: 0 <= k < |a| ==> Starts(cursor, a)[k] + a[k].duration <= CursorAfter(cursor, a)
    ensures cursor <= CursorAfter(cursor, a)
    decreases |a|
  {
    if a != [] {
      var t := StartTime(cursor, a[0].now);
      StartsWithinCursor(t + a[0].duration, a[1..]);
      assert forall k :: 1 <= k < |a| ==> Starts(cursor, a)[k] == Starts(t + a[0].duration, a[1..])[k - 1];
    }
  }

  /** Chunks never overlap: each one ends no later than any later one starts.
      With non-negative durations the starts are therefore non-decreasing. */
  lemma {:induction false} StartsNoOverlap(cursor: real, a: seq<Arrival>)
    requires DurationsNonNegative(a)
    ensures forall i, j :: 0 <= i < j < |a| ==> Starts(cursor, a)[i] + a[i].duration <= Starts(cursor, a)[j]
    ensures forall i, j :: 0 <= i <= j < |a| ==> Starts(cursor, a)[i] <= Starts(cursor, a)[j]
    decreases |a|
  {
    if a != [] {
      var t := StartTime(cursor, a[0].now);
      var rest := Starts(t + a[0].duration, a[1..]);
      StartsNoOverlap(t + a[0].duration, a[1..]);
      StartsWithinCursor(t + a[0].duration, a[1..]);
      assert forall k :: 1 <= k < |a| ==> Starts(cursor, a)[k] == rest[k - 1];
    }
  }

  /** When every chunk arrives before the previous one has finished playing,
      playback is gapless: the k-th chunk starts at the cursor plus the playing
      time of the chunks before it, and the cursor ends at their total. */
  lemma {:induction false} StartsGapless(cursor: real, a: seq<Arrival>)
    requires forall k :: 0 <= k < |a| ==> a[k].now <= cursor + TotalDuration(a[..k])
    ensures forall k :: 0 <= k < |a| ==> Starts(cursor, a)[k] == cursor + TotalDuration(a[..k])
    ensures CursorAfter(cursor, a) == cursor + TotalDuration(a)
    decreases |a|
  {
    if a != [] {
      assert a[..0] == [];
      var next := cursor + a[0].duration;
      forall m | 0 <= m < |a| - 1
        ensures a[1..][m].now <= next + TotalDuration(a[1..][..m])
      {
        assert a[..m + 1][1..] == a[1..][..m];
      }
      StartsGapless(next, a[1..]);
      forall k | 1 <= k < |a|
        ensures Starts(cursor, a)[k] == cursor + TotalDuration(a[..k])
      {
        assert a[..k][1..] == a[1..][..k - 1];
      }
    }
  }

  /** The first chunk after an interruption, which leaves the cursor at 0,
      starts exactly at the current time. */
  lemma FirstChunkAfterInterruption(a: seq<Arrival>)
    requires |a| > 0 && a[0].now >= 0.0
    ensures Starts(0.0, a)[0] == a[0].now
  {
  }

  /** Three chunks of 1.0 s, 0.5 s and 0.75 s arriving while the first is
      still playing are scheduled at 0.0, 1.0 and 1.5, ending at 2.25. */
  lemma ThreeChunkScenario()
    ensures Starts(0.0, [Arrival(0.0, 1.0), Arrival(0.1, 0.5), Arrival(0.2, 0.75)]) == [0.0, 1.0, 1.5]
    ensures CursorAfter(0.0, [Arrival(0.0, 1.0), Arrival(0.1, 0.5), Arrival(0.2, 0.75)]) == 2.25
  {
    var a := [Arrival(0.0, 1.0), Arrival(0.1, 0.5), Arrival(0.2, 0.75)];
    assert a[1..] == [Arrival(0.1, 0.5), Arrival(0.2, 0.75)];
    assert a[1..][1..] == [Arrival(0.2, 0.75)];
    assert a[1..][1..][1..] == [];
  }

  // ---------------------------------------------------------------------------
  // The session

  /** A scheduled playback of one decoded chunk. */
  class BufferSource {
    const startAt: real
    const duration: real
    var stopped: bool

    constructor (startAt: real, duration: real)
      ensures this.startAt == startAt && this.duration == duration && !stopped
    {
      this.startAt := startAt;
      this.duration := duration;
      stopped := false;
    }

    function End(): real {
      startAt + duration
    }

    /** Stopping a source that is still scheduled; never done twice. */
    method Stop()
      requires !stopped
      modifies this
      ensures stopped
    {
      stopped := true;
    }
  }

  /** The part of a server message the scheduler looks at: the inline audio
      data of the first part of the model's turn, and the interruption flag. */
  datatype ServerMessage = ServerMessage(audioData: Option<string>, interrupted: bool)

  /** Whether a message carries audio: inline data that is present and non-empty. */
  predicate HasAudio(m: ServerMessage) {
    m.audioData.Some? && m.audioData.value != ""
  }

  const ReadyStatus: string := "Ready to start interview"
  const ConnectingStatus: string := "Connecting to AI Coach..."
  const LiveStatus: string := "Interview in progress. Speak clearly."
  const EndedStatus: string := "Interview ended."
  const StartError: string := "Failed to access microphone or connect."
  const ConnectionError: string := "Connection error. Please try again."

  /** The placeholder completion score `Math.floor(draw * 20) + 75` for a
      random draw in [0, 1). */
  function MockScore(draw: real): (score: int)
    requires 0.0 <= draw < 1.0
    ensures 75 <= score <= 94
  {
    (draw * 20.0).Floor + 75
  }

  class Session {
    var isLive: bool
    var isConnecting: bool
    var error: Option<string>
    var statusMessage: string
    /** The audio contexts and the output gain node have been created. */
    var outputReady: bool
    /** The output context has been closed, which silences everything scheduled on it. */
    var outputClosed: bool
    /** A microphone stream has been obtained. */
    var streamAcquired: bool
    /** The microphone's tracks are running. */
    var micLive: bool
    /** A connection to the remote session has been requested. */
    var sessionRequested: bool
    /** The capture processor is attached and forwards microphone frames. */
    var capturing: bool
    /** Where the next chunk may start, in output-clock seconds. */
    var nextStartTime: real
    /** The chunks scheduled and neither finished nor stopped. */
    var sources: set<BufferSource>

    /** Every queued source is still unstopped and ends by the cursor, and no
        two queued sources overlap. */
    ghost predicate Valid()
      reads this, sources
    {
      && nextStartTime >= 0.0
      && (forall s :: s in sources ==> !s.stopped && s.duration >= 0.0 && s.End() <= nextStartTime)
      && (forall s, u :: s in sources && u in sources && s != u ==>
            s.End() <= u.startAt || u.End() <= s.startAt)
    }

    constructor ()
      ensures Valid()
      ensures !isLive && !isConnecting && error == None && statusMessage == ReadyStatus
      ensures !outputReady && !outputClosed && !streamAcquired && !micLive && !sessionRequested && !capturing
      ensures nextStartTime == 0.0 && sources == {}
    {
      isLive, isConnecting := false, false;
      error := None;
      statusMessage := ReadyStatus;
      outputReady, outputClosed, streamAcquired, micLive := false, false, false, false;
      sessionRequested, capturing := false, false;
      nextStartTime := 0.0;
      sources := {};
    }

    /** Starting: the session is connecting while the client and the audio
        contexts are created (`contextsCreated` says whether that succeeded) and
        then the microphone is requested (`micGranted` is its answer). Either
        failure clears `isConnecting` and shows the start error; otherwise the
        connection is requested. */
    method StartInterview(contextsCreated: bool, micGranted: bool)
      requires Valid() && !isLive && !isConnecting
      modifies this
      ensures Valid() && !isLive
      ensures contextsCreated ==> outputReady && !outputClosed
      ensures !contextsCreated ==>
        outputReady == old(outputReady) && outputClosed == old(outputClosed)
      ensures contextsCreated && micGranted ==>
        && isConnecting && error == None
        && streamAcquired && micLive && sessionRequested
      ensures !(contextsCreated && micGranted) ==>
        && !isConnecting && error == Some(StartError)
        && streamAcquired == old(streamAcquired) && micLive == old(micLive)
        && sessionRequested == old(sessionRequested)
      ensures statusMessage == ConnectingStatus && capturing == old(capturing)
      ensures nextStartTime == old(nextStartTime) && sources == old(sources)
    {
      isConnecting := true;
      statusMessage := ConnectingStatus;
      error := None;
      if !contextsCreated {
        error := Some(StartError);
        isConnecting := false;
        return;
      }
      outputReady, outputClosed := true, false;
      if !micGranted {
        error := Some(StartError);
        isConnecting := false;
        return;
      }
      streamAcquired := true;
      micLive := true;
      sessionRequested := true;
    }

    /** The connection opened: the session is live, no longer connecting, and
        microphone capture starts when the stream and the connection exist. */
    method HandleOnOpen()
      requires Valid()
      modifies this
      ensures Valid() && isLive && !isConnecting && statusMessage == LiveStatus
      ensures capturing == (old(capturing) || (outputReady && streamAcquired && sessionRequested))
      ensures error == old(error) && outputReady == old(outputReady) && micLive == old(micLive)
      ensures outputClosed == old(outputClosed)
      ensures streamAcquired == old(streamAcquired) && sessionRequested == old(sessionRequested)
      ensures nextStartTime == old(nextStartTime) && sources == old(sources)
    {
      isConnecting := false;
      isLive := true;
      statusMessage := LiveStatus;
      if !outputReady || !streamAcquired || !sessionRequested {
        return;
      }
      capturing := true;
    }

    /** A message from the remote session, handled once its audio (if any) has
        been decoded to `frames` samples, at output-clock time `now`. Audio is
        scheduled at `max(cursor, now)` and the cursor moves to its end; an
        interruption then stops every queued source, empties the queue and
        puts the cursor back to 0. Returns the source created, if any. */
    method HandleOnMessage(msg: ServerMessage, frames: nat, now: real)
      returns (scheduled: Option<BufferSource>)
      requires Valid() && now >= 0.0
      modifies this, sources
      ensures Valid()
      ensures scheduled.Some? <==> HasAudio(msg) && outputReady
      ensures scheduled.Some? ==>
        && fresh(scheduled.value)
        && scheduled.value.startAt == StartTime(old(nextStartTime), now)
        && scheduled.value.duration == ChunkDuration(frames)
      ensures !msg.interrupted && scheduled.Some? ==>
        && sources == old(sources) + {scheduled.value}
        && nextStartTime == scheduled.value.End()
      ensures !msg.interrupted && scheduled.None? ==>
        sources == old(sources) && nextStartTime == old(nextStartTime)
      ensures msg.interrupted ==>
        && sources == {} && nextStartTime == 0.0
        && (forall s :: s in old(sources) ==> s.stopped)
        && (scheduled.Some? ==> scheduled.value.stopped)
      ensures !msg.interrupted ==> forall s :: s in old(sources) ==> !s.stopped
      ensures isLive == old(isLive) && isConnecting == old(isConnecting)
      ensures error == old(error) && statusMessage == old(statusMessage)
      ensures outputReady == old(outputReady) && outputClosed == old(outputClosed)
      ensures capturing == old(capturing)
      ensures micLive == old(micLive) && streamAcquired == old(streamAcquired)
      ensures sessionRequested == old(sessionRequested)
    {
      scheduled := None;
      if HasAudio(msg) && outputReady {
        var duration := ChunkDuration(frames);
        nextStartTime := StartTime(nextStartTime, now);
        var source := new BufferSource(nextStartTime, duration);
        nextStartTime := nextStartTime + duration;
        sources := sources + {source};
        scheduled := Some(source);
      }
      if msg.interrupted {
        StopAll();
      }
    }

    /** Everything but the queue and the cursor. */
    ghost function Flags(): (bool, bool, Option<string>, string, bool, bool, bool, bool, bool, bool)
      reads this
    {
      (isLive, isConnecting, error, statusMessage, outputReady, outputClosed,
       streamAcquired, micLive, sessionRequested, capturing)
    }

    /** The interruption: stop and forget every queued source, reset the cursor. */
    method StopAll()
      requires forall s :: s in sources ==> !s.stopped
      modifies this, sources
      ensures Valid()
      ensures sources == {} && nextStartTime == 0.0
      ensures forall s :: s in old(sources) ==> s.stopped
      ensures isLive == old(isLive) && isConnecting == old(isConnecting)
      ensures error == old(error) && statusMessage == old(statusMessage)
      ensures outputReady == old(outputReady) && outputClosed == old(outputClosed)
      ensures capturing == old(capturing)
      ensures micLive == old(micLive) && streamAcquired == old(streamAcquired)
      ensures sessionRequested == old(sessionRequested)
    {
      while sources != {}
        invariant sources <= old(sources)
        invariant forall s :: s in sources ==> !s.stopped
        invariant forall s :: s in old(sources) && s !in sources ==> s.stopped
        invariant Flags() == old(Flags())
        decreases sources
      {
        var s :| s in sources;
        s.Stop();
        sources := sources - {s};
      }
      nextStartTime := 0.0;
    }

    /** A source finished playing on its own and leaves the queue; the others stay. */
    method OnEnded(source: BufferSource)
      requires Valid()
      modifies this
      ensures Valid() && sources == old(sources) - {source}
      ensures nextStartTime == old(nextStartTime)
      ensures isLive == old(isLive) && isConnecting == old(isConnecting)
      ensures error == old(error) && statusMessage == old(statusMessage)
      ensures outputReady == old(outputReady) && outputClosed == old(outputClosed)
      ensures capturing == old(capturing)
      ensures micLive == old(micLive) && streamAcquired == old(streamAcquired)
      ensures sessionRequested == old(sessionRequested)
    {
      sources := sources - {source};
    }

    /** The remote side closed the connection: the session is no longer live. */
    method OnClose()
      requires Valid()
      modifies this
      ensures Valid() && !isLive
      ensures isConnecting == old(isConnecting) && error == old(error)
      ensures statusMessage == old(statusMessage) && capturing == old(capturing)
      ensures micLive == old(micLive) && nextStartTime == old(nextStartTime)
      ensures sources == old(sources)
      ensures outputReady == old(outputReady) && outputClosed == old(outputClosed)
      ensures streamAcquired == old(streamAcquired) && sessionRequested == old(sessionRequested)
    {
      isLive := false;
    }

    /** Ending the interview: capture stops, the microphone is released, the
        output context is closed (silencing what was scheduled on it), both
        flags clear and the completion score is reported. The queued sources
        are not stopped one by one: the queue and the cursor stay as they are. */
    method StopInterview(draw: real) returns (score: int)
      requires Valid() && 0.0 <= draw < 1.0
      modifies this
      ensures Valid() && !isLive && !isConnecting && statusMessage == EndedStatus
      ensures !capturing && !micLive && outputClosed
      ensures score == MockScore(draw) && 75 <= score <= 94
      ensures error == old(error) && outputReady == old(outputReady)
      ensures streamAcquired == old(streamAcquired) && sessionRequested == old(sessionRequested)
      ensures nextStartTime == old(nextStartTime) && sources == old(sources)
    {
      capturing := false;
      micLive := false;
      outputClosed := true;
      isLive := false;
      isConnecting := false;
      statusMessage := EndedStatus;
      score := MockScore(draw);
    }

    /** A connection error shows its message and ends the interview. */
    method OnError(draw: real) returns (score: int)
      requires Valid() && 0.0 <= draw < 1.0
      modifies this
      ensures Valid() && !isLive && !isConnecting && statusMessage == EndedStatus
      ensures error == Some(ConnectionError) && !capturing && !micLive && outputClosed
      ensures score == MockScore(draw) && 75 <= score <= 94
      ensures outputReady == old(outputReady)
      ensures streamAcquired == old(streamAcquired) && sessionRequested == old(sessionRequested)
      ensures nextStartTime == old(nextStartTime) && sources == old(sources)
    {
      error := Some(ConnectionError);
      score := StopInterview(draw);
    }
  }
}
