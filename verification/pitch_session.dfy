/** The `usePitchDetection` hook of hooks/usePitchDetection.ts as a state
    machine: the effect starts an asynchronous capture, each animation frame
    runs `updatePitch`, and the effect's cleanup stops it. Capture is an
    abstract source that grants a sample rate or refuses; each callback is one
    step. */
module PitchSession {
  import opened Options
  import opened JsNumbers
  import opened PitchDetection

  /** Pitch is accepted only above this clarity. */
  const ClarityGate: real := 0.85

  /** `analyser.fftSize = 2048`. */
  const AnalyserFftSize: nat := 2048

  /** The analyser and the audio context, which the refs always hold together. */
  datatype Capture = Capture(fftSize: nat, sampleRate: real)

  /** The hook's state and refs:
      - pitch and clarity: the two `useState` values;
      - capture: `analyserRef` and `audioContextRef`;
      - open: the audio context has not been closed;
      - scheduled: an animation-frame callback is pending (`requestRef`);
      - acquiring: `initAudio` is waiting for the microphone;
      - cancelled: the cleanup has run (only the corrected step reads it). */
  datatype Session = Session(
    pitch: Option<Num>,
    clarity: real,
    capture: Option<Capture>,
    open: bool,
    scheduled: bool,
    acquiring: bool,
    cancelled: bool)

  /** What can happen to a mounted hook. */
  datatype Event =
    | Granted(sampleRate: real, samples: seq<real>)  // getUserMedia resolves; initAudio runs to its end
    | Denied                                          // getUserMedia rejects; the catch logs the error
    | Frame(samples: seq<real>)                       // the pending animation frame fires
    | Cleanup                                         // the effect's cleanup runs

  /** The first render: `pitch = null`, `clarity = 0`, no refs; with `active`
      the effect starts `initAudio`, without it the effect returns at once. */
  function Mount(active: bool): (s: Session)
    ensures s.pitch == None && s.clarity == 0.0
    ensures s.capture == None && !s.scheduled
    ensures s.acquiring <==> active
  {
    Session(None, 0.0, None, false, false, active, false)
  }

  /** `getFloatTimeDomainData` fills a zeroed Float32Array of `len` samples
      from the newest audio: the source is cut to `len`, or left zero past its end. */
  function FillFrame(len: nat, samples: seq<real>): (frame: seq<real>)
    ensures |frame| == len
    ensures forall i :: 0 <= i < len ==> frame[i] == (if i < |samples| then samples[i] else 0.0)
  {
    if len <= |samples| then samples[..len] else samples + seq(len - |samples|, _ => 0.0)
  }

  /** The confidence gate: the detected pitch when clarity beats 0.85, else null. */
  function Gate(e: Estimate): (p: Option<Num>)
    ensures p.Some? <==> e.clarity > ClarityGate
    ensures p.Some? ==> p.value == e.pitch
  {
    if e.clarity > ClarityGate then Some(e.pitch) else None
  }

  /** What `updatePitch` hands to the detector: a frame of `inputLength`
      samples, which is the analyser's FFT size. */
  function Detect(c: Capture, samples: seq<real>): (e: Estimate)
    ensures e == FindPitch(FillFrame(c.fftSize, samples), c.sampleRate)
    ensures c.fftSize >= 2 ==> e.pitch.Finite? && e.clarity <= 1.0
  {
    var detector := ForFloat32Array(c.fftSize);
    FindPitch(FillFrame(detector.InputLength(), samples), c.sampleRate)
  }

  /** `updatePitch`: with no refs it returns at once and schedules nothing;
      otherwise it detects, gates, always records clarity, and schedules the next frame. */
  function Tick(s: Session, samples: seq<real>): (t: Session)
    ensures s.capture.None? ==> t == s
    ensures s.capture.Some? ==>
              && t.clarity == Detect(s.capture.value, samples).clarity
              && (t.pitch.Some? <==> t.clarity > ClarityGate)
              && (t.pitch.Some? ==> t.pitch.value == Detect(s.capture.value, samples).pitch)
              && t.scheduled
              && t == s.(pitch := t.pitch, clarity := t.clarity, scheduled := true)
  {
    match s.capture
    case None => s
    case Some(c) =>
      var e := Detect(c, samples);
      s.(pitch := Gate(e), clarity := e.clarity, scheduled := true)
  }

  /** The end of `initAudio`, once the microphone is granted: a context and a
      2048-point analyser go into the refs and the first tick runs right away. */
  function Open(s: Session, sampleRate: real, samples: seq<real>): (t: Session)
    ensures t.capture == Some(Capture(AnalyserFftSize, sampleRate))
    ensures t.open && t.scheduled && !t.acquiring
    ensures t.clarity == Detect(Capture(AnalyserFftSize, sampleRate), samples).clarity
    ensures t.cancelled == s.cancelled
  {
    Tick(s.(capture := Some(Capture(AnalyserFftSize, sampleRate)), open := true, acquiring := false), samples)
  }

  /** The cleanup: cancel the pending frame, close the context if there is
      one. The refs keep their values. */
  function Release(s: Session): (t: Session)
    ensures !t.scheduled && !t.open
    ensures t.pitch == s.pitch && t.clarity == s.clarity && t.capture == s.capture
  {
    s.(scheduled := false, open := false)
  }

  /** One event, as the hook is written: a grant that arrives after the
      cleanup still fills the refs and starts the tick loop. */
  function StepAsWritten(s: Session, e: Event): (t: Session)
    ensures e.Granted? && s.acquiring ==> t == Open(s, e.sampleRate, e.samples)
    ensures e.Granted? && !s.acquiring ==> t == s
    ensures e.Denied? ==> !t.acquiring && t.capture == s.capture && t.scheduled == s.scheduled
    ensures e.Frame? && !s.scheduled ==> t == s
    ensures e.Frame? && s.scheduled && s.capture.Some? ==>
              t.scheduled && t.clarity == Detect(s.capture.value, e.samples).clarity
    ensures e.Cleanup? ==> !t.scheduled && !t.open && t.pitch == s.pitch && t.clarity == s.clarity
    ensures e.Cleanup? ==> t.acquiring == s.acquiring
  {
    match e
    case Granted(sampleRate, samples) => if s.acquiring then Open(s, sampleRate, samples) else s
    case Denied => s.(acquiring := false)
    case Frame(samples) => if s.scheduled then Tick(s.(scheduled := false), samples) else s
    case Cleanup => Release(s)
  }

  /** One event, with the cleanup also cancelling an acquisition in flight:
      a grant after the cleanup is dropped. */
  function Step(s: Session, e: Event): (t: Session)
    ensures e.Granted? && s.acquiring && !s.cancelled ==> t == Open(s, e.sampleRate, e.samples)
    ensures e.Granted? && (!s.acquiring || s.cancelled) ==>
              !t.acquiring && t.capture == s.capture && t.scheduled == s.scheduled && t.open == s.open
    ensures e.Denied? ==> !t.acquiring && t.capture == s.capture && t.scheduled == s.scheduled
    ensures e.Frame? && !s.scheduled ==> t == s
    ensures e.Frame? && s.scheduled && s.capture.Some? ==>
              t.scheduled && t.clarity == Detect(s.capture.value, e.samples).clarity
    ensures e.Cleanup? ==> Stopped(t, s.pitch, s.clarity)
  {
    match e
    case Granted(sampleRate, samples) =>
      if s.acquiring && !s.cancelled then Open(s, sampleRate, samples) else s.(acquiring := false)
    case Denied => s.(acquiring := false)
    case Frame(samples) => if s.scheduled then Tick(s.(scheduled := false), samples) else s
    case Cleanup => Release(s).(cancelled := true)
  }

  function RunAsWritten(s: Session, events: seq<Event>): Session
    decreases |events|
  {
    if events == [] then s else RunAsWritten(StepAsWritten(s, events[0]), events[1..])
  }

  function Run(s: Session, events: seq<Event>): Session
    decreases |events|
  {
    if events == [] then s else Run(Step(s, events[0]), events[1..])
  }

  /** What holds of every session the hook can reach: refs only ever hold a
      2048-point analyser, only a live capture has a pending frame, an
      accepted pitch is finite and was accepted at the clarity now shown, and
      clarity never exceeds 1. */
  predicate Valid(s: Session) {
    && (s.capture.Some? ==> s.capture.value.fftSize == AnalyserFftSize)
    && (s.scheduled ==> s.capture.Some?)
    && (s.pitch.Some? ==> s.pitch.value.Finite? && s.clarity > ClarityGate)
    && s.clarity <= 1.0
  }

  /** The detector on a 2048-sample frame never divides by a zero lag. */
  lemma AnalyserPitchIsFinite(c: Capture, samples: seq<real>)
    requires c.fftSize == AnalyserFftSize
    ensures Detect(c, samples).pitch.Finite?
    ensures Detect(c, samples).clarity <= 1.0
  {
  }

  lemma MountIsValid(active: bool)
    ensures Valid(Mount(active))
  {
  }

  lemma TickPreservesValid(s: Session, samples: seq<real>)
    requires Valid(s)
    ensures Valid(Tick(s, samples))
  {
  }

  lemma StepPreservesValid(s: Session, e: Event)
    requires Valid(s)
    ensures Valid(Step(s, e))
    ensures Valid(StepAsWritten(s, e))
  {
  }

  lemma {:induction false} RunPreservesValid(s: Session, events: seq<Event>)
    requires Valid(s)
    ensures Valid(Run(s, events))
    ensures Valid(RunAsWritten(s, events))
    decreases |events|
  {
    if events != [] {
      StepPreservesValid(s, events[0]);
      RunPreservesValid(Step(s, events[0]), events[1..]);
      RunPreservesValid(StepAsWritten(s, events[0]), events[1..]);
    }
  }

  /** Every session reached from a mount is valid. */
  lemma ReachableIsValid(active: bool, events: seq<Event>)
    ensures Valid(Run(Mount(active), events))
    ensures Valid(RunAsWritten(Mount(active), events))
  {
    MountIsValid(active);
    RunPreservesValid(Mount(active), events);
  }

  /** A tick on a frame below the silence gate clears the pitch and shows clarity 0. */
  lemma SilentFrameClearsPitch(s: Session, samples: seq<real>)
    requires s.capture.Some?
    requires Silent(FillFrame(s.capture.value.fftSize, samples))
    ensures Tick(s, samples).pitch == None
    ensures Tick(s, samples).clarity == 0.0
  {
  }

  /** The frame handed to the detector is exactly as long as the analyser's FFT. */
  lemma FrameMatchesAnalyser(c: Capture, samples: seq<real>)
    ensures |FillFrame(ForFloat32Array(c.fftSize).InputLength(), samples)| == c.fftSize
  {
  }

  /** The state a consumer sees while nothing has been captured. */
  predicate Idle(s: Session) {
    s.pitch == None && s.clarity == 0.0 && s.capture == None && !s.scheduled && !s.acquiring
  }

  /** Nothing moves an idle session: no grant can arrive, no frame is pending. */
  lemma {:induction false} IdleStaysIdle(s: Session, events: seq<Event>)
    requires Idle(s)
    ensures Idle(Run(s, events)) && Idle(RunAsWritten(s, events))
    decreases |events|
  {
    if events != [] {
      IdleStaysIdle(Step(s, events[0]), events[1..]);
      IdleStaysIdle(StepAsWritten(s, events[0]), events[1..]);
    }
  }

  /** With `active = false` capture never starts and the state keeps its initial values. */
  lemma InactiveNeverCaptures(events: seq<Event>)
    ensures Idle(Run(Mount(false), events))
    ensures Idle(RunAsWritten(Mount(false), events))
  {
    IdleStaysIdle(Mount(false), events);
  }

  /** When the microphone is refused, no tick ever runs and the state keeps its initial values. */
  lemma DeniedNeverCaptures(events: seq<Event>)
    ensures Idle(Run(Mount(true), [Denied] + events))
    ensures Idle(RunAsWritten(Mount(true), [Denied] + events))
  {
    var s := Step(Mount(true), Denied);
    assert ([Denied] + events)[1..] == events;
    IdleStaysIdle(s, events);
  }

  /** After the cleanup: no frame pending, no context open, no acquisition
      to complete; pitch and clarity are frozen at `pitch` and `clarity`. */
  predicate Stopped(s: Session, pitch: Option<Num>, clarity: real) {
    && !s.scheduled
    && !s.open
    && s.cancelled
    && s.pitch == pitch
    && s.clarity == clarity
  }

  lemma {:induction false} StoppedStaysStopped(s: Session, events: seq<Event>)
    requires Stopped(s, s.pitch, s.clarity)
    ensures Stopped(Run(s, events), s.pitch, s.clarity)
    decreases |events|
  {
    if events != [] {
      StoppedStaysStopped(Step(s, events[0]), events[1..]);
    }
  }

  /** Stop is final: after the cleanup no tick runs and no capture stays
      open, whatever arrives afterwards. */
  lemma CleanupIsFinal(s: Session, events: seq<Event>)
    ensures Stopped(Run(s, [Cleanup] + events), s.pitch, s.clarity)
  {
    assert ([Cleanup] + events)[1..] == events;
    StoppedStaysStopped(Step(s, Cleanup), events);
  }

  /** What the cleanup leaves when no acquisition is in flight, as the hook
      is written: no frame pending, no context open, nothing left to grant;
      pitch and clarity are frozen at `pitch` and `clarity`. */
  predicate StoppedAsWritten(s: Session, pitch: Option<Num>, clarity: real) {
    && !s.scheduled
    && !s.open
    && !s.acquiring
    && s.pitch == pitch
    && s.clarity == clarity
  }

  lemma {:induction false} StoppedStaysStoppedAsWritten(s: Session, events: seq<Event>)
    requires StoppedAsWritten(s, s.pitch, s.clarity)
    ensures StoppedAsWritten(RunAsWritten(s, events), s.pitch, s.clarity)
    decreases |events|
  {
    if events != [] {
      StoppedStaysStoppedAsWritten(StepAsWritten(s, events[0]), events[1..]);
    }
  }

  /** As written, the cleanup is final when it comes after the grant (or the
      refusal): the defect is confined to a cleanup that races the grant. */
  lemma CleanupAfterGrantIsFinalAsWritten(s: Session, events: seq<Event>)
    requires !s.acquiring
    ensures StoppedAsWritten(RunAsWritten(s, [Cleanup] + events), s.pitch, s.clarity)
  {
    assert ([Cleanup] + events)[1..] == events;
    StoppedStaysStoppedAsWritten(StepAsWritten(s, Cleanup), events);
  }

  /** A grant to a mounted hook opens a 2048-point capture at the granted
      rate and schedules the next frame, in both versions of the step. */
  lemma GrantStartsCapture(sampleRate: real, samples: seq<real>)
    ensures var s := Run(Mount(true), [Granted(sampleRate, samples)]);
            s.scheduled && s.open && s.capture == Some(Capture(AnalyserFftSize, sampleRate))
    ensures var s := RunAsWritten(Mount(true), [Granted(sampleRate, samples)]);
            s.scheduled && s.open && s.capture == Some(Capture(AnalyserFftSize, sampleRate))
  {
  }

  /** As written, a cleanup that runs while `getUserMedia` is pending does
      not stop the hook: the late grant opens a context and schedules ticks. */
  lemma CleanupRacesGrantAsWritten(sampleRate: real, samples: seq<real>)
    ensures var s := RunAsWritten(Mount(true), [Cleanup, Granted(sampleRate, samples)]);
            s.scheduled && s.open && s.capture.Some?
  {
    var events := [Cleanup, Granted(sampleRate, samples)];
    var s1 := StepAsWritten(Mount(true), Cleanup);
    assert s1.acquiring;
    assert events[1..] == [Granted(sampleRate, samples)];
    assert RunAsWritten(Mount(true), events) == RunAsWritten(s1, [Granted(sampleRate, samples)]);
    assert RunAsWritten(s1, [Granted(sampleRate, samples)]) == StepAsWritten(s1, Granted(sampleRate, samples));
  }
}
