/** The live conversation of the Aural Studio (`LiveConversation` in
    features/AudioStudio.tsx). It has three parts: a lifecycle over two flags and six
    nullable resource handles, a transcript accumulator, and a playback scheduler
    that leaves neither overlaps nor unforced gaps. Every callback is one atomic step. Devices, the transport and the
    audio clock appear only as the answers and times passed to the methods. */
module AudioStudio {
  import opened JsText

  /** A reading of an audio clock, or the length of a decoded audio buffer. */
  type Seconds = r: real | r >= 0.0

  /** One exchange as the turn log stores it: what the user said, what the model said. */
  datatype Turn = Turn(user: string, model: string)

  const EmptyTurn := Turn("", "")

  /** The resources a conversation holds. They are listed in the order teardown
      releases them: the transport session, the microphone stream, the camera stream,
      the 16 kHz input audio context, the 24 kHz output audio context, and the
      one-per-second frame timer. */
  datatype Kind = Session | MicStream | VideoStream | InputContext | OutputContext | FrameTimer

  /** One acquired resource. `serial` numbers acquisitions in the order they happened,
      so two acquisitions never yield the same handle. */
  datatype Handle = Handle(kind: Kind, serial: nat)

  /** The answer to one `getUserMedia` request or to `ai.live.connect`. */
  datatype Acquisition = Granted | Refused(thrown: Thrown)

  /** `serverContent.inputTranscription` / `outputTranscription`; `text` may be undefined. */
  datatype Transcription = Transcription(text: Option<string>)

  /** The inline audio of `modelTurn.parts[0]`, after decoding. `Undecodable` means
      that `decodeAudioData` rejected it. */
  datatype AudioPart = Decoded(duration: Seconds) | Undecodable

  /** What `onmessage` looks at in a `LiveServerMessage`. `audio` is None when the
      base64 data is missing or empty. */
  datatype ServerMessage = ServerMessage(
    inputTranscription: Option<Transcription>,
    outputTranscription: Option<Transcription>,
    turnComplete: bool,
    audio: Option<AudioPart>)

  /** One `source.start(start)` call on an output context, playing `duration` seconds. */
  datatype Playback = Playback(context: Handle, start: real, duration: Seconds)

  function End(p: Playback): real
  {
    p.start + p.duration
  }

  /** Each scheduled fragment starts no earlier than the one before it ends. */
  ghost predicate NoOverlap(ps: seq<Playback>)
    decreases |ps|
  {
    |ps| <= 1 || (End(ps[|ps| - 2]) <= ps[|ps| - 1].start && NoOverlap(ps[..|ps| - 1]))
  }

  /** No handle occurs twice in `s`. */
  ghost predicate NoRepeats(s: seq<Handle>)
    decreases |s|
  {
    s == [] || (s[|s| - 1] !in s[..|s| - 1] && NoRepeats(s[..|s| - 1]))
  }

  /** Every handle in `s` has a serial below `issued`. */
  ghost predicate AllIssued(s: seq<Handle>, issued: nat)
    decreases |s|
  {
    s == [] || (s[|s| - 1].serial < issued && AllIssued(s[..|s| - 1], issued))
  }

  function Present(slot: Option<Handle>): seq<Handle>
  {
    if slot.Some? then [slot.value] else []
  }

  /** The release log. Only handles already issued (serial below `issued`) are
      released, and none is released twice. */
  ghost predicate LedgerOk(issued: nat, released: seq<Handle>)
  {
    AllIssued(released, issued) && NoRepeats(released)
  }

  /** A ref holds, if anything, an issued and not yet released handle of its kind. */
  ghost predicate SlotOk(slot: Option<Handle>, k: Kind, issued: nat, released: seq<Handle>)
  {
    slot.Some? ==> slot.value.kind == k && slot.value.serial < issued && slot.value !in released
  }

  /** The six nullable refs of the component: `sessionRef`, `mediaStreamRef`,
      `videoStreamRef`, `audioContextRef`, `outputAudioContextRef` and
      `frameIntervalRef`. */
  datatype Refs = Refs(
    session: Option<Handle>,
    micStream: Option<Handle>,
    videoStream: Option<Handle>,
    inputContext: Option<Handle>,
    outputContext: Option<Handle>,
    frameInterval: Option<Handle>)
  {
    /** The refs with the one for kind `k` set to `h`. */
    function Put(k: Kind, h: Option<Handle>): Refs
    {
      match k
      case Session => this.(session := h)
      case MicStream => this.(micStream := h)
      case VideoStream => this.(videoStream := h)
      case InputContext => this.(inputContext := h)
      case OutputContext => this.(outputContext := h)
      case FrameTimer => this.(frameInterval := h)
    }

    /** The handles teardown releases, in its order. */
    function Held(): seq<Handle>
    {
      Present(session) + Present(micStream) + Present(videoStream)
        + Present(inputContext) + Present(outputContext) + Present(frameInterval)
    }
  }

  const NoRefs := Refs(None, None, None, None, None, None)

  /** The ledger is sound and every ref holds an issued, unreleased handle of its kind. */
  ghost predicate RefsOk(issued: nat, released: seq<Handle>, r: Refs)
  {
    && LedgerOk(issued, released)
    && SlotOk(r.session, Session, issued, released)
    && SlotOk(r.micStream, MicStream, issued, released)
    && SlotOk(r.videoStream, VideoStream, issued, released)
    && SlotOk(r.inputContext, InputContext, issued, released)
    && SlotOk(r.outputContext, OutputContext, issued, released)
    && SlotOk(r.frameInterval, FrameTimer, issued, released)
  }

  /** The next serial is a handle nobody has released. */
  lemma {:induction false} AcquireFresh(issued: nat, released: seq<Handle>, k: Kind)
    requires LedgerOk(issued, released)
    ensures Handle(k, issued) !in released
    ensures LedgerOk(issued + 1, released)
    decreases |released|
  {
    if released != [] {
      var prefix := released[..|released| - 1];
      AcquireFresh(issued, prefix, k);
      assert released == prefix + [released[|released| - 1]];
    }
  }

  /** Storing a newly acquired handle in its ref keeps the refs sound. */
  lemma Grant(issued: nat, released: seq<Handle>, r: Refs, k: Kind)
    requires RefsOk(issued, released, r)
    ensures RefsOk(issued + 1, released, r.Put(k, Some(Handle(k, issued))))
  {
    AcquireFresh(issued, released, k);
  }

  /** Releasing what a ref holds (nothing, for a null ref) keeps the ledger free of
      double releases. */
  lemma ReleaseSlot(issued: nat, released: seq<Handle>, slot: Option<Handle>, k: Kind)
    requires LedgerOk(issued, released) && SlotOk(slot, k, issued, released)
    ensures LedgerOk(issued, released + Present(slot))
  {
    var log := released + Present(slot);
    if slot.Some? {
      assert log[..|released|] == released && log[|released|] == slot.value;
    } else {
      assert log == released;
    }
  }

  /** Releasing every held ref, one after the other, never releases a handle twice,
      and leaves all refs null. */
  lemma ReleaseAll(issued: nat, released: seq<Handle>, r: Refs)
    requires RefsOk(issued, released, r)
    ensures RefsOk(issued, released + r.Held(), NoRefs)
  {
    var r1 := released + Present(r.session);
    assert LedgerOk(issued, r1) && SlotOk(r.micStream, MicStream, issued, r1)
        && SlotOk(r.videoStream, VideoStream, issued, r1) && SlotOk(r.inputContext, InputContext, issued, r1)
        && SlotOk(r.outputContext, OutputContext, issued, r1) && SlotOk(r.frameInterval, FrameTimer, issued, r1)
    by { ReleaseSlot(issued, released, r.session, Session); }
    var r2 := r1 + Present(r.micStream);
    assert LedgerOk(issued, r2)
        && SlotOk(r.videoStream, VideoStream, issued, r2) && SlotOk(r.inputContext, InputContext, issued, r2)
        && SlotOk(r.outputContext, OutputContext, issued, r2) && SlotOk(r.frameInterval, FrameTimer, issued, r2)
    by { ReleaseSlot(issued, r1, r.micStream, MicStream); }
    var r3 := r2 + Present(r.videoStream);
    assert LedgerOk(issued, r3) && SlotOk(r.inputContext, InputContext, issued, r3)
        && SlotOk(r.outputContext, OutputContext, issued, r3) && SlotOk(r.frameInterval, FrameTimer, issued, r3)
    by { ReleaseSlot(issued, r2, r.videoStream, VideoStream); }
    var r4 := r3 + Present(r.inputContext);
    assert LedgerOk(issued, r4)
        && SlotOk(r.outputContext, OutputContext, issued, r4) && SlotOk(r.frameInterval, FrameTimer, issued, r4)
    by { ReleaseSlot(issued, r3, r.inputContext, InputContext); }
    var r5 := r4 + Present(r.outputContext);
    assert LedgerOk(issued, r5) && SlotOk(r.frameInterval, FrameTimer, issued, r5)
    by { ReleaseSlot(issued, r4, r.outputContext, OutputContext); }
    assert LedgerOk(issued, r5 + Present(r.frameInterval))
    by { ReleaseSlot(issued, r5, r.frameInterval, FrameTimer); }
    AppendInOrder(released, Present(r.session), Present(r.micStream), Present(r.videoStream),
                  Present(r.inputContext), Present(r.outputContext), Present(r.frameInterval));
  }

  /** Appending six pieces one at a time is appending their concatenation. */
  lemma AppendInOrder(log: seq<Handle>, a: seq<Handle>, b: seq<Handle>, c: seq<Handle>,
                      d: seq<Handle>, e: seq<Handle>, f: seq<Handle>)
    ensures log + a + b + c + d + e + f == log + (a + b + c + d + e + f)
  {
    assert log + a + b == log + (a + b);
    assert log + a + b + c == log + (a + b + c);
    assert log + a + b + c + d == log + (a + b + c + d);
    assert log + a + b + c + d + e == log + (a + b + c + d + e);
  }

  /** The schedule never overlaps, and the counter marks where its last fragment ends. */
  ghost predicate ScheduleOk(played: seq<Playback>, next: real)
  {
    NoOverlap(played) && (played != [] ==> End(played[|played| - 1]) == next)
  }

  /** Appending a fragment that starts at or after the counter keeps the schedule free of overlaps. */
  lemma ScheduleAppend(played: seq<Playback>, next: real, p: Playback)
    requires ScheduleOk(played, next) && p.start >= next
    ensures ScheduleOk(played + [p], End(p))
  {
    assert (played + [p])[..|played|] == played;
  }

  // ---------------------------------------------------------------------------
  // Playback scheduling

  /** `Math.max(nextStartTime, outputCtx.currentTime)`: a fragment starts no earlier
      than the queue ends and never in the device's past. */
  function StartTime(next: real, deviceTime: Seconds): (start: real)
    ensures start >= next && start >= deviceTime
    ensures start == next || start == deviceTime
  {
    if next >= deviceTime then next else deviceTime
  }

  /** One decoded fragment reaching the scheduler: the device clock when it arrives
      and the fragment's length. */
  datatype Arrival = Arrival(deviceTime: Seconds, duration: Seconds)

  /** The start times a run of fragments receives when the counter begins at `next`. */
  function ScheduleRun(next: real, arrivals: seq<Arrival>): (starts: seq<real>)
    ensures |starts| == |arrivals|
    decreases |arrivals|
  {
    if arrivals == [] then []
    else
      var s := StartTime(next, arrivals[0].deviceTime);
      [s] + ScheduleRun(s + arrivals[0].duration, arrivals[1..])
  }

  /** The counter after a run of fragments has been scheduled. */
  function CounterAfter(next: real, arrivals: seq<Arrival>): real
    decreases |arrivals|
  {
    if arrivals == [] then next
    else
      var s := StartTime(next, arrivals[0].deviceTime);
      CounterAfter(s + arrivals[0].duration, arrivals[1..])
  }

  /** The scheduling bound. Each fragment starts at or after its own arrival time and
      at or after the end of the fragment before it (the first one at or after the
      initial counter). Start times never decrease. The counter never decreases and
      ends where the last fragment ends. */
  lemma {:induction false} ScheduleRunIsGapless(next: real, arrivals: seq<Arrival>)
    decreases |arrivals|
    ensures var starts := ScheduleRun(next, arrivals);
      && (forall i :: 0 <= i < |arrivals| ==> starts[i] >= arrivals[i].deviceTime)
      && (|arrivals| > 0 ==> starts[0] >= next)
      && (forall i :: 0 < i < |arrivals| ==> starts[i] >= starts[i - 1] + arrivals[i - 1].duration)
      && (forall i :: 0 < i < |arrivals| ==> starts[i] >= starts[i - 1])
      && CounterAfter(next, arrivals) >= next
      && (|arrivals| > 0 ==>
            CounterAfter(next, arrivals) == starts[|arrivals| - 1] + arrivals[|arrivals| - 1].duration)
  {
    if arrivals != [] {
      var s := StartTime(next, arrivals[0].deviceTime);
      var rest := arrivals[1..];
      ScheduleRunIsGapless(s + arrivals[0].duration, rest);
      var starts := ScheduleRun(next, arrivals);
      assert starts == [s] + ScheduleRun(s + arrivals[0].duration, rest);
      forall i | 0 < i < |arrivals|
        ensures starts[i] >= starts[i - 1] + arrivals[i - 1].duration
      {
        assert arrivals[i] == rest[i - 1];
      }

      if |arrivals| > 1 {
        assert arrivals[|arrivals| - 1] == rest[|rest| - 1];
      }
    }
  }

  /** No gap is left that the device clock does not force: each fragment starts
      exactly when the one before it ends, or at its own arrival time if that is
      later (the first one: when the initial counter says, or at its arrival). */
  lemma {:induction false} ScheduleRunIsTight(next: real, arrivals: seq<Arrival>)
    decreases |arrivals|
    ensures var starts := ScheduleRun(next, arrivals);
      && (|arrivals| > 0 ==> starts[0] == StartTime(next, arrivals[0].deviceTime))
      && (forall i :: 0 < i < |arrivals| ==>
            starts[i] == StartTime(starts[i - 1] + arrivals[i - 1].duration, arrivals[i].deviceTime))
  {
    if arrivals != [] {
      var s := StartTime(next, arrivals[0].deviceTime);
      var rest := arrivals[1..];
      ScheduleRunIsTight(s + arrivals[0].duration, rest);
      var starts := ScheduleRun(next, arrivals);
      var tail := ScheduleRun(s + arrivals[0].duration, rest);
      assert starts == [s] + tail;
      forall i | 0 < i < |arrivals|
        ensures starts[i] == StartTime(starts[i - 1] + arrivals[i - 1].duration, arrivals[i].deviceTime)
      {
        assert starts[i] == tail[i - 1] && arrivals[i] == rest[i - 1];
        if i > 1 {
          assert starts[i - 1] == tail[i - 2] && arrivals[i - 1] == rest[i - 2];
        }
      }
    }
  }

  /** Two fragments of 0.5 s and 0.3 s arriving 0.1 s apart, on a counter not ahead of
      the device clock, play back to back with no gap. Together they take 0.8 s. */
  lemma BackToBackFragments(now: Seconds, next: real)
    requires next <= now
    ensures ScheduleRun(next, [Arrival(now, 0.5), Arrival(now + 0.1, 0.3)]) == [now, now + 0.5]
    ensures CounterAfter(next, [Arrival(now, 0.5), Arrival(now + 0.1, 0.3)]) == now + 0.8
  {
    var arrivals := [Arrival(now, 0.5), Arrival(now + 0.1, 0.3)];
    var second := [Arrival(now + 0.1, 0.3)];
    assert arrivals[1..] == second;
    assert second[1..] == [];
    assert StartTime(next, now) == now;
    assert StartTime(now + 0.5, now + 0.1) == now + 0.5;
    assert CounterAfter(now + 0.5, second) == now + 0.8;
    assert ScheduleRun(now + 0.5, second) == [now + 0.5];
  }

  // ---------------------------------------------------------------------------
  // Transcript accumulation

  /** The transcript: the turn log and the two live buffers (`transcription` and
      `currentTurn` in the source). */
  datatype Transcript = Transcript(log: seq<Turn>, live: Turn)

  /** The text a transcription part appends to its buffer; "" when the message has none. */
  function Delta(t: Option<Transcription>): string
  {
    if t.Some? then AsText(t.value.text) else ""
  }

  /** What one message does to the transcript. The input delta goes to the user
      buffer and the output delta to the model buffer. A turn-complete marker then
      appends `captured` to the log and empties both buffers. `captured` is the
      `currentTurn` that the callbacks closed over when the conversation started;
      it is not the live buffers. */
  function Transcribe(t: Transcript, captured: Turn, m: ServerMessage): Transcript
  {
    if m.turnComplete then Transcript(t.log + [captured], EmptyTurn)
    else Transcript(t.log, Turn(t.live.user + Delta(m.inputTranscription),
                                t.live.model + Delta(m.outputTranscription)))
  }

  /** The transcript after a run of messages, taken in arrival order. */
  function TranscribeAll(t: Transcript, captured: Turn, ms: seq<ServerMessage>): Transcript
    decreases |ms|
  {
    if ms == [] then t else TranscribeAll(Transcribe(t, captured, ms[0]), captured, ms[1..])
  }

  /** All input deltas of a run, concatenated in arrival order. */
  function UserText(ms: seq<ServerMessage>): string
    decreases |ms|
  {
    if ms == [] then "" else Delta(ms[0].inputTranscription) + UserText(ms[1..])
  }

  /** All output deltas of a run, concatenated in arrival order. */
  function ModelText(ms: seq<ServerMessage>): string
    decreases |ms|
  {
    if ms == [] then "" else Delta(ms[0].outputTranscription) + ModelText(ms[1..])
  }

  function TurnCompletes(ms: seq<ServerMessage>): nat
    decreases |ms|
  {
    if ms == [] then 0 else (if ms[0].turnComplete then 1 else 0) + TurnCompletes(ms[1..])
  }

  function Repeat(t: Turn, n: nat): seq<Turn>
  {
    if n == 0 then [] else [t] + Repeat(t, n - 1)
  }

  /** Between turn boundaries each buffer is its old text followed by its own channel's
      deltas, in arrival order. Input deltas never reach the model buffer and output
      deltas never reach the user buffer. The log is untouched. */
  lemma {:induction false} LiveBuffersConcatenateDeltas(t: Transcript, captured: Turn, ms: seq<ServerMessage>)
    requires forall i :: 0 <= i < |ms| ==> !ms[i].turnComplete
    decreases |ms|
    ensures TranscribeAll(t, captured, ms)
         == Transcript(t.log, Turn(t.live.user + UserText(ms), t.live.model + ModelText(ms)))
  {
    if ms != [] {
      var t1 := Transcribe(t, captured, ms[0]);
      LiveBuffersConcatenateDeltas(t1, captured, ms[1..]);
      assert t1.live.user + UserText(ms[1..])
          == t.live.user + (Delta(ms[0].inputTranscription) + UserText(ms[1..]));
      assert t1.live.model + ModelText(ms[1..])
          == t.live.model + (Delta(ms[0].outputTranscription) + ModelText(ms[1..]));
    }
  }

  /** The log only ever gains copies of the captured turn, one per turn-complete
      marker, whatever deltas arrive. This is the stale-closure behaviour of
      features/AudioStudio.tsx:153. */
  lemma {:induction false} LogHoldsOnlyCapturedTurns(t: Transcript, captured: Turn, ms: seq<ServerMessage>)
    ensures TranscribeAll(t, captured, ms).log == t.log + Repeat(captured, TurnCompletes(ms))
    decreases |ms|
  {
    if ms != [] {
      var t1 := Transcribe(t, captured, ms[0]);
      LogHoldsOnlyCapturedTurns(t1, captured, ms[1..]);
      var n := TurnCompletes(ms[1..]);
      if ms[0].turnComplete {
        assert Repeat(captured, n + 1) == [captured] + Repeat(captured, n);
        assert t.log + [captured] + Repeat(captured, n) == t.log + ([captured] + Repeat(captured, n));
      }
    }
  }

  function ModelDelta(text: string): ServerMessage
  {
    ServerMessage(None, Some(Transcription(Some(text))), false, None)
  }

  const TurnCompleteMarker := ServerMessage(None, None, true, None)

  /** Model deltas "Hel", "lo wo" and "rld" build the live model buffer "Hello world".
      The turn-complete marker that follows empties the buffers. The entry it appends
      is the captured turn, not "Hello world". */
  lemma HelloWorldTurn(captured: Turn)
    ensures var ms := [ModelDelta("Hel"), ModelDelta("lo wo"), ModelDelta("rld")];
      && TranscribeAll(Transcript([], EmptyTurn), captured, ms).live == Turn("", "Hello world")
      && TranscribeAll(Transcript([], EmptyTurn), captured, ms + [TurnCompleteMarker])
         == Transcript([captured], EmptyTurn)
  {
    var ms := [ModelDelta("Hel"), ModelDelta("lo wo"), ModelDelta("rld")];
    var t0 := Transcript([], EmptyTurn);
    var t1 := Transcript([], Turn("", "Hel"));
    var t2 := Transcript([], Turn("", "Hello wo"));
    var t3 := Transcript([], Turn("", "Hello world"));
    assert Transcribe(t0, captured, ms[0]) == t1;
    assert Transcribe(t1, captured, ms[1]) == t2;
    assert Transcribe(t2, captured, ms[2]) == t3;
    assert TranscribeAll(t3, captured, []) == t3;
    assert TranscribeAll(t2, captured, ms[2..]) == t3 by { assert ms[2..][1..] == []; }
    assert TranscribeAll(t1, captured, ms[1..]) == t3 by { assert ms[1..][1..] == ms[2..]; }
    var ms' := ms + [TurnCompleteMarker];
    var done := Transcript([captured], EmptyTurn);
    assert TranscribeAll(done, captured, []) == done;
    assert TranscribeAll(t3, captured, [TurnCompleteMarker]) == done;
    assert ms'[3..] == [TurnCompleteMarker];
    assert TranscribeAll(t2, captured, ms'[2..]) == done by { assert ms'[2..][1..] == ms'[3..]; }
    assert TranscribeAll(t1, captured, ms'[1..]) == done by { assert ms'[1..][1..] == ms'[2..]; }
    assert ms'[0] == ms[0];
  }

  // ---------------------------------------------------------------------------
  // Starting: the order in which resources are requested

  /** The requests `startConversation` issues, in order: the microphone, then the
      camera when vision is on, then the transport connect. Nothing is requested
      after the first refusal. */
  function StartRequests(vision: bool, mic: Acquisition, video: Acquisition): seq<Kind>
  {
    if mic.Refused? then [MicStream]
    else if !vision then [MicStream, Session]
    else if video.Refused? then [MicStream, VideoStream]
    else [MicStream, VideoStream, Session]
  }

  /** The first refusal among the issued requests, if any: what the `catch` receives. */
  function FirstRefusal(vision: bool, mic: Acquisition, video: Acquisition, connect: Acquisition): Option<Thrown>
  {
    if mic.Refused? then Some(mic.thrown)
    else if vision && video.Refused? then Some(video.thrown)
    else if connect.Refused? then Some(connect.thrown)
    else None
  }

  /** The requests that were granted, in order. */
  function StartGrants(vision: bool, mic: Acquisition, video: Acquisition, connect: Acquisition): seq<Kind>
  {
    if mic.Refused? then []
    else if vision && video.Refused? then [MicStream]
    else if connect.Refused? then (if vision then [MicStream, VideoStream] else [MicStream])
    else if vision then [MicStream, VideoStream, Session]
    else [MicStream, Session]
  }

  /** The refs after the requests of a start, numbering the grants from `base`: the
      microphone, camera and session refs are overwritten by what was granted, and
      every other ref keeps its value. */
  function StartRefs(r: Refs, base: nat, vision: bool, mic: Acquisition, video: Acquisition,
                     connect: Acquisition): Refs
  {
    var camera := vision && mic.Granted? && video.Granted?;
    r.(micStream := if mic.Granted? then Some(Handle(MicStream, base)) else r.micStream,
       videoStream := if camera then Some(Handle(VideoStream, base + 1)) else r.videoStream,
       session := if FirstRefusal(vision, mic, video, connect).None?
                  then Some(Handle(Session, base + if vision then 2 else 1)) else r.session)
  }

  /** The answer a request of kind `k` gets. */
  function Answer(k: Kind, mic: Acquisition, video: Acquisition, connect: Acquisition): Acquisition
  {
    match k
    case MicStream => mic
    case VideoStream => video
    case _ => connect
  }

  /** Logging two requests one at a time is logging them as one run. */
  lemma AppendTwo(log: seq<Kind>, a: Kind, b: Kind)
    ensures log + [a] + [b] == log + [a, b]
  {
  }

  /** Logging three requests one at a time is logging them as one run. */
  lemma AppendThree(log: seq<Kind>, a: Kind, b: Kind, c: Kind)
    ensures log + [a] + [b] + [c] == log + [a, b, c]
  {
    AppendTwo(log, a, b);
  }

  /** The order of the requests. The microphone is asked for first and the connect
      last. The camera is asked for exactly when vision is on and the microphone was
      granted. The connect is issued exactly when every stream asked for was granted.
      Every request but the last was granted. */
  lemma RequestOrder(vision: bool, mic: Acquisition, video: Acquisition, connect: Acquisition)
    ensures var r := StartRequests(vision, mic, video);
      && 1 <= |r| <= 3 && r[0] == MicStream
      && (VideoStream in r <==> vision && mic.Granted?)
      && (Session in r <==> mic.Granted? && (!vision || video.Granted?))
      && (Session in r ==> r[|r| - 1] == Session)
      && (forall i :: 0 <= i < |r| - 1 ==> Answer(r[i], mic, video, connect).Granted?)
  {
  }

  /** The grants are the requests without a refused last one, and the start fails
      exactly when the last request was refused. */
  lemma GrantsAreRequestsUpToRefusal(vision: bool, mic: Acquisition, video: Acquisition, connect: Acquisition)
    ensures var r := StartRequests(vision, mic, video);
      var g := StartGrants(vision, mic, video, connect);
      var last := Answer(r[|r| - 1], mic, video, connect);
      && (last.Granted? ==> g == r && FirstRefusal(vision, mic, video, connect) == None)
      && (last.Refused? ==> g == r[..|r| - 1] && FirstRefusal(vision, mic, video, connect) == Some(last.thrown))
  {
  }

  /** A failed start keeps every stream it was granted: once the microphone is
      granted, a refused camera or connect leaves it among the grants, and the
      session is never among them. */
  lemma FailedStartKeepsMicrophone(vision: bool, mic: Acquisition, video: Acquisition, connect: Acquisition)
    requires mic.Granted? && FirstRefusal(vision, mic, video, connect).Some?
    ensures MicStream in StartGrants(vision, mic, video, connect)
    ensures Session !in StartGrants(vision, mic, video, connect)
  {
  }

  // ---------------------------------------------------------------------------
  // The conversation object

  class LiveConversation {
    var isConnecting: bool
    var isActive: bool
    var error: Option<string>
    /** The turn log. */
    var transcription: seq<Turn>
    /** The two live buffers. */
    var currentTurn: Turn
    var enableVision: bool

    /** The nullable resource refs. */
    var refs: Refs
    /** `nextStartTimeRef`: where the next audio fragment may start. */
    var nextStartTime: real

    /** The values that the callbacks of the latest start closed over. */
    var capturedTurn: Turn
    var capturedVision: bool

    /** Effects on the world outside, each log in order. `requests` holds the
        `getUserMedia` and `connect` calls. `released` holds every release call (`close()`, `track.stop()` and
        `clearInterval`). `played` holds every fragment handed to an output context. */
    var requests: seq<Kind>
    var released: seq<Handle>
    var played: seq<Playback>
    /** How many resources have been obtained so far; the next one gets this serial. */
    var issued: nat


    /** The object invariant. The flags are never both set. No resource is released
        twice. Every ref holds an acquired, unreleased handle of its own kind. The
        scheduled fragments never overlap, and the counter marks where the last one
        ends. */
    ghost predicate Valid()
      reads this
    {
      && !(isActive && isConnecting)
      && RefsOk(issued, released, refs)
      && ScheduleOk(played, nextStartTime)
    }

    /** The component's first render: idle, nothing held, counter at 0. */
    constructor ()
      ensures Valid()
      ensures !isConnecting && !isActive && error == None && !enableVision
      ensures transcription == [] && currentTurn == EmptyTurn
      ensures refs == NoRefs && nextStartTime == 0.0
      ensures requests == [] && issued == 0 && released == [] && played == []
    {
      isConnecting, isActive, error := false, false, None;
      transcription, currentTurn, enableVision := [], EmptyTurn, false;
      refs, nextStartTime := NoRefs, 0.0;
      capturedTurn, capturedVision := EmptyTurn, false;
      requests, issued, released, played := [], 0, [], [];
    }

    /** The "Enable Live Vision" checkbox. */
    method SetEnableVision(on: bool)
      requires Valid()
      modifies this`enableVision
      ensures Valid() && enableVision == on
    {
      enableVision := on;
    }

    /** Stores a newly obtained resource of kind `k` in its ref. The handle gets the
        next serial. */
    method Acquire(k: Kind) returns (h: Handle)
      requires Valid()
      modifies this`issued, this`refs
      ensures Valid()
      ensures h == Handle(k, old(issued)) && issued == old(issued) + 1
      ensures refs == old(refs).Put(k, Some(h))
    {
      h := Handle(k, issued);
      Grant(issued, released, refs, k);
      issued, refs := issued + 1, refs.Put(k, Some(h));
    }

    /** One awaited request of `startConversation`: it is issued, and the resource
        is stored in its ref when granted. A refusal is what the `catch` block sees:
        it sets the error and clears connecting. */
    method Request(k: Kind, answer: Acquisition) returns (granted: bool)
      requires Valid() && !isActive
      modifies this`requests, this`issued, this`refs, this`error, this`isConnecting
      ensures Valid() && granted == answer.Granted?
      ensures requests == old(requests) + [k]
      ensures granted ==>
        && issued == old(issued) + 1 && refs == old(refs).Put(k, Some(Handle(k, old(issued))))
        && error == old(error) && isConnecting == old(isConnecting)
      ensures !granted ==>
        && issued == old(issued) && refs == old(refs)
        && error == Some(ErrorText(answer.thrown, "Environment capture failed.")) && !isConnecting
    {
      requests := requests + [k];
      if answer.Refused? {
        isConnecting, error := false, Some(ErrorText(answer.thrown, "Environment capture failed."));
        return false;
      }
      var h := Acquire(k);
      return true;
    }

    /** `startConversation`. It does nothing while a session is active or connecting.
        Otherwise it sets connecting, clears the error, empties the turn log and the
        buffers, and then makes its requests as `Capture` says. It releases nothing,
        so streams granted earlier stay held. */
    method Start(mic: Acquisition, video: Acquisition, connect: Acquisition) returns (began: bool)
      requires Valid()
      modifies this`isConnecting, this`error, this`transcription, this`currentTurn
      modifies this`capturedTurn, this`capturedVision, this`requests, this`issued, this`refs
      ensures Valid()
      ensures began <==> !old(isActive) && !old(isConnecting)
      ensures !began ==> unchanged(this)
      ensures began ==>
        var vision := old(enableVision);
        var refusal := FirstRefusal(vision, mic, video, connect);
        && transcription == [] && currentTurn == EmptyTurn
        && capturedTurn == old(currentTurn) && capturedVision == vision
        && requests == old(requests) + StartRequests(vision, mic, video)
        && issued == old(issued) + |StartGrants(vision, mic, video, connect)|
        && refs == StartRefs(old(refs), old(issued), vision, mic, video, connect)
        && isConnecting == refusal.None?
        && error == (if refusal.Some? then Some(ErrorText(refusal.value, "Environment capture failed.")) else None)
    {
      if isActive || isConnecting {
        return false;
      }
      began := true;
      Begin();
      Capture(mic, video, connect);
    }

    /** The synchronous part of `startConversation`: connecting is set, the error
        cleared, the turn log and the buffers emptied. The callbacks created next
        close over the current turn and the vision flag as they are now. */
    method Begin()
      requires Valid() && !isActive
      modifies this`isConnecting, this`error, this`transcription, this`currentTurn
      modifies this`capturedTurn, this`capturedVision
      ensures Valid() && isConnecting && error == None
      ensures transcription == [] && currentTurn == EmptyTurn
      ensures capturedTurn == old(currentTurn) && capturedVision == enableVision
    {
      isConnecting, error := true, None;
      capturedTurn, capturedVision, transcription, currentTurn := currentTurn, enableVision, [], EmptyTurn;
    }

    /** The `try` block of `startConversation`: the microphone, then the camera when
        the captured vision flag is on, then the transport connect, each awaited in
        turn. `mic`, `video` and `connect` are the answers. The first refusal goes to
        the `catch`, which sets the error and clears connecting; later requests are
        not made. */
    method Capture(mic: Acquisition, video: Acquisition, connect: Acquisition)
      requires Valid() && !isActive
      modifies this`requests, this`issued, this`refs, this`error, this`isConnecting
      ensures Valid()
      ensures var refusal := FirstRefusal(capturedVision, mic, video, connect);
        && requests == old(requests) + StartRequests(capturedVision, mic, video)
        && issued == old(issued) + |StartGrants(capturedVision, mic, video, connect)|
        && refs == StartRefs(old(refs), old(issued), capturedVision, mic, video, connect)
        && isConnecting == (refusal.None? && old(isConnecting))
        && error == (if refusal.Some? then Some(ErrorText(refusal.value, "Environment capture failed.")) else old(error))
    {
      AppendThree(requests, MicStream, VideoStream, Session);
      AppendTwo(requests, MicStream, Session);
      var ok := Request(MicStream, mic);
      if ok && capturedVision {
        ok := Request(VideoStream, video);
      }
      if ok {
        ok := Request(Session, connect);
      }
    }

    /** `onopen`: connecting becomes active, and a 16 kHz input context is created.
        The frame timer starts only when the start captured vision on and the video
        element is mounted. That element renders only while the conversation is
        active, so `videoMounted` is usually false at the first open. */
    method OnOpen(videoMounted: bool)
      requires Valid()
      modifies this`isConnecting, this`isActive, this`refs, this`issued
      ensures Valid()
      ensures !isConnecting && isActive
      ensures var base := old(issued);
        var timer := capturedVision && videoMounted;
        && refs == old(refs).(
             inputContext := Some(Handle(InputContext, base)),
             frameInterval := if timer then Some(Handle(FrameTimer, base + 1)) else old(refs.frameInterval))
        && issued == base + (if timer then 2 else 1)
    {
      isConnecting, isActive := false, true;
      var context := Acquire(InputContext);
      if capturedVision && videoMounted {
        var timer := Acquire(FrameTimer);
      }
    }

    /** `onmessage`. First the transcript moves as `Transcribe` says. Then inline audio,
        if any, is played as `Play` says. */
    method OnMessage(m: ServerMessage, deviceTime: Seconds)
      requires Valid()
      modifies this`transcription, this`currentTurn, this`refs, this`issued, this`played, this`nextStartTime
      ensures Valid()
      ensures Transcript(transcription, currentTurn)
           == Transcribe(Transcript(old(transcription), old(currentTurn)), capturedTurn, m)
      ensures m.audio.None? ==>
        refs == old(refs) && issued == old(issued)
        && played == old(played) && nextStartTime == old(nextStartTime)
      ensures m.audio.Some? ==>
        var ctx := if old(refs.outputContext).Some? then old(refs.outputContext.value)
                   else Handle(OutputContext, old(issued));
        && refs == old(refs).(outputContext := Some(ctx))
        && issued == old(issued) + (if old(refs.outputContext).Some? then 0 else 1)
        && (m.audio.value.Decoded? ==>
              var start := StartTime(old(nextStartTime), deviceTime);
              && played == old(played) + [Playback(ctx, start, m.audio.value.duration)]
              && nextStartTime == start + m.audio.value.duration)
        && (m.audio.value.Undecodable? ==> played == old(played) && nextStartTime == old(nextStartTime))
    {
      Caption(m);
      if m.audio.Some? {
        Play(m.audio.value, deviceTime);
      }
    }

    /** The transcript half of `onmessage`: input and output deltas are appended to
        the live buffers, and a turn-complete marker logs the captured turn and
        clears the buffers. */
    method Caption(m: ServerMessage)
      requires Valid()
      modifies this`transcription, this`currentTurn
      ensures Valid()
      ensures Transcript(transcription, currentTurn)
           == Transcribe(Transcript(old(transcription), old(currentTurn)), capturedTurn, m)
    {
      var turn, log := currentTurn, transcription;
      if m.inputTranscription.Some? {
        turn := turn.(user := turn.user + AsText(m.inputTranscription.value.text));
      }
      if m.outputTranscription.Some? {
        turn := turn.(model := turn.model + AsText(m.outputTranscription.value.text));
      }
      if m.turnComplete {
        log, turn := log + [capturedTurn], EmptyTurn;
      }
      transcription, currentTurn := log, turn;
    }

    /** The audio half of `onmessage`. The fragment gets an output context, created
        at 24 kHz when none is held. A decoded fragment starts at
        `StartTime(nextStartTime, deviceTime)`, so never before the counter, and the
        counter moves to its end. A fragment that fails to decode changes neither the
        schedule nor the counter. */
    method Play(audio: AudioPart, deviceTime: Seconds)
      requires Valid()
      modifies this`refs, this`issued, this`played, this`nextStartTime
      ensures Valid()
      ensures var ctx := if old(refs.outputContext).Some? then old(refs.outputContext.value)
                         else Handle(OutputContext, old(issued));
        && refs == old(refs).(outputContext := Some(ctx))
        && issued == old(issued) + (if old(refs.outputContext).Some? then 0 else 1)
        && (audio.Decoded? ==>
              var start := StartTime(old(nextStartTime), deviceTime);
              && played == old(played) + [Playback(ctx, start, audio.duration)]
              && nextStartTime == start + audio.duration)
        && (audio.Undecodable? ==> played == old(played) && nextStartTime == old(nextStartTime))
    {
      if refs.outputContext.None? {
        var context := Acquire(OutputContext);
      }
      var start := StartTime(nextStartTime, deviceTime);
      match audio
      case Decoded(duration) =>
        var p := Playback(refs.outputContext.value, start, duration);
        ScheduleAppend(played, nextStartTime, p);
        played, nextStartTime := played + [p], start + duration;
      case Undecodable =>
    }

    /** `stopConversation`. It releases each held handle once, in the order session,
        microphone, camera, input context, output context, frame timer, and nulls
        every ref. Both flags end false. The error, the transcript, the schedule and
        the counter are left as they were, so the counter carries over into the next
        session. A second call releases nothing. */
    method Stop()
      requires Valid()
      modifies this`released, this`refs, this`isActive, this`isConnecting
      ensures Valid()
      ensures released == old(released) + old(refs).Held()
      ensures refs == NoRefs && !isActive && !isConnecting
    {
      ReleaseAll(issued, released, refs);
      released, refs := released + refs.Held(), NoRefs;
      isActive, isConnecting := false, false;
    }

    /** `onerror`: reports "Neural connection interrupted: " and the event's message,
        then tears down exactly as `Stop` does. */
    method OnError(message: string)
      requires Valid()
      modifies this`error, this`released, this`refs, this`isActive, this`isConnecting
      ensures Valid()
      ensures error == Some("Neural connection interrupted: " + message)
      ensures released == old(released) + old(refs).Held()
      ensures refs == NoRefs && !isActive && !isConnecting
    {
      error := Some("Neural connection interrupted: " + message);
      Stop();
    }

    /** `onclose`: the remote side closed, so tear down. */
    method OnClose()
      requires Valid()
      modifies this`released, this`refs, this`isActive, this`isConnecting
      ensures Valid()
      ensures released == old(released) + old(refs).Held()
      ensures refs == NoRefs && !isActive && !isConnecting
    {
      Stop();
    }

    /** The effect cleanup that runs when the component unmounts: tear down. */
    method Unmount()
      requires Valid()
      modifies this`released, this`refs, this`isActive, this`isConnecting
      ensures Valid()
      ensures released == old(released) + old(refs).Held()
      ensures refs == NoRefs && !isActive && !isConnecting
    {
      Stop();
    }
  }

  // ---------------------------------------------------------------------------
  // Runs of the conversation that show what the source does

  /** Stopping twice releases each resource once. The second call adds nothing to
      the release log. */
  method StopTwiceReleasesOnce(c: LiveConversation)
    requires c.Valid()
    modifies c
    ensures c.Valid() && c.refs == NoRefs && !c.isActive && !c.isConnecting
    ensures c.released == old(c.released) + old(c.refs).Held()
  {
    c.Stop();
    ghost var afterFirst := c.released;
    c.Stop();
    assert c.released == afterFirst;
  }

  /** The refs of a session that started cleanly, opened, and played its first
      fragment: every resource it obtained is held, numbered in the order obtained
      (microphone 0, then the camera with vision on, the session, the input context,
      the frame timer when it started, and the output context last). */
  function CleanSessionRefs(vision: bool, timer: bool): Refs
  {
    var n := if vision then 2 else 1;
    var m := n + (if timer then 3 else 2);
    Refs(Some(Handle(Session, n)), Some(Handle(MicStream, 0)),
         if vision then Some(Handle(VideoStream, 1)) else None,
         Some(Handle(InputContext, n + 1)), Some(Handle(OutputContext, m)),
         if timer then Some(Handle(FrameTimer, n + 2)) else None)
  }

  /** Some handle in `hs`, of whatever kind, has serial `n`. */
  ghost predicate HasSerial(hs: seq<Handle>, n: nat)
  {
    exists k :: Handle(k, n) in hs
  }

  /** The refs of a clean session hold one handle for each serial obtained, and no
      other: serials 0 up to the number of resources obtained, each once. */
  lemma CleanSessionHoldsEverySerial(vision: bool, timer: bool)
    ensures var held := CleanSessionRefs(vision, timer).Held();
      var obtained := (if vision then 3 else 2) + (if timer then 2 else 1) + 1;
      && |held| == obtained
      && (forall n :: 0 <= n < obtained ==> HasSerial(held, n))
  {
    var held := CleanSessionRefs(vision, timer).Held();
    var m := if vision then 2 else 1;
    assert Handle(MicStream, 0) in held && Handle(Session, m) in held && Handle(InputContext, m + 1) in held;
    assert Handle(OutputContext, m + (if timer then 3 else 2)) in held;
    if vision { assert Handle(VideoStream, 1) in held; }
    if timer { assert Handle(FrameTimer, m + 2) in held; }
  }

  /** A fresh conversation whose three requests are all granted and which opens.
      Nothing has been released, and every resource obtained is held in its ref. */
  method OpenSession(vision: bool, videoMounted: bool) returns (c: LiveConversation)
    ensures fresh(c) && c.Valid() && c.isActive && !c.isConnecting && c.error == None
    ensures c.released == []
    ensures c.refs == CleanSessionRefs(vision, vision && videoMounted).(outputContext := None)
    ensures c.issued == (if vision then 3 else 2) + (if vision && videoMounted then 2 else 1)
  {
    c := new LiveConversation();
    c.SetEnableVision(vision);
    var began := c.Start(Granted, Granted, Granted);
    var n := if vision then 2 else 1;
    var camera := if vision then Some(Handle(VideoStream, 1)) else None;
    assert c.refs == Refs(Some(Handle(Session, n)), Some(Handle(MicStream, 0)), camera, None, None, None);
    c.OnOpen(videoMounted);
  }

  /** Such a session then receives one decoded audio fragment, for which the output
      context is created. Still nothing has been released, and every resource obtained
      is held in its ref. */
  method CleanSession(vision: bool, videoMounted: bool, deviceTime: Seconds, duration: Seconds)
      returns (c: LiveConversation)
    ensures fresh(c) && c.Valid() && c.isActive && !c.isConnecting && c.error == None
    ensures c.released == []
    ensures c.refs == CleanSessionRefs(vision, vision && videoMounted)
    ensures c.issued == (if vision then 3 else 2) + (if vision && videoMounted then 2 else 1) + 1
  {
    c := OpenSession(vision, videoMounted);
    c.OnMessage(ServerMessage(None, None, false, Some(Decoded(duration))), deviceTime);
  }

  /** A session that starts cleanly and ends with a transport error releases every
      resource it obtained, each once: the release log has one entry per resource
      obtained, and `Valid()` rules out repeats. */
  method ErrorAfterCleanStartReleasesAll(vision: bool, videoMounted: bool, deviceTime: Seconds,
                                         duration: Seconds, message: string)
      returns (c: LiveConversation)
    ensures c.Valid() && c.refs.Held() == [] && !c.isActive && !c.isConnecting
    ensures c.released == CleanSessionRefs(vision, vision && videoMounted).Held()
    ensures |c.released| == c.issued
    ensures forall n :: 0 <= n < c.issued ==> HasSerial(c.released, n)
    ensures c.issued == (if vision then 3 else 2) + (if vision && videoMounted then 2 else 1) + 1
    ensures c.error == Some("Neural connection interrupted: " + message)
  {
    c := CleanSession(vision, videoMounted, deviceTime, duration);
    CleanSessionHoldsEverySerial(vision, vision && videoMounted);
    c.OnError(message);
  }

  /** A start with vision on whose camera request is refused. The microphone stays
      held, no connect is issued, and the flags are both clear, so nothing but a
      later teardown will release the microphone. */
  method CameraRefusalKeepsMicrophone() returns (c: LiveConversation, mic: Handle)
    ensures c.Valid()
    ensures c.refs.micStream == Some(mic) && mic.serial < c.issued && mic !in c.released
    ensures Session !in c.requests && c.refs.session == None
    ensures !c.isConnecting && !c.isActive && c.error == Some("Permission denied")
  {
    c := new LiveConversation();
    c.SetEnableVision(true);
    var began := c.Start(Granted, Refused(ErrorObject("Permission denied")), Granted);
    mic := Handle(MicStream, 0);
    assert c.requests == [MicStream, VideoStream];
  }

  /** After such a failed start the flags allow a new start, and the new start
      overwrites the microphone ref. The microphone held before is lost: it was
      obtained, it has not been released, and once the new session is torn down no
      ref holds it any more, so nothing can release it. */
  method RestartLosesFirstMicrophone(c: LiveConversation) returns (lost: Handle)
    requires c.Valid() && !c.isActive && !c.isConnecting && c.refs.micStream.Some?
    modifies c
    ensures c.Valid() && c.refs.Held() == []
    ensures lost.kind == MicStream && lost.serial < c.issued && lost !in c.released
  {
    lost := c.refs.micStream.value;
    var began := c.Start(Granted, Granted, Granted);
    assert lost !in c.refs.Held();
    c.Stop();
  }

  /** The counter survives teardown. Whatever state the conversation is in, a stop,
      a new start and its open leave `nextStartTime` where it was. The first
      fragment of the new session therefore starts no earlier than the old
      schedule's end, although it plays on a newly created output context, whose
      clock starts again from 0. */
  method CounterSurvivesTeardown(c: LiveConversation, deviceTime: Seconds, duration: Seconds)
      returns (first: Playback)
    requires c.Valid()
    modifies c
    ensures c.Valid() && c.played == old(c.played) + [first]
    ensures first.start == StartTime(old(c.nextStartTime), deviceTime) && first.duration == duration
    ensures first.context.kind == OutputContext && first.context.serial >= old(c.issued)
  {
    c.Stop();
    var began := c.Start(Granted, Granted, Granted);
    c.OnOpen(false);
    c.OnMessage(ServerMessage(None, None, false, Some(Decoded(duration))), deviceTime);
    first := c.played[|c.played| - 1];
  }
}
