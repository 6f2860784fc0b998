/** The speech-to-text worker (src-tauri/src/transcription/whisper.rs): a
    service holding the whisper context and decoding state, and the thread
    that serves requests from a channel, answering final requests one for
    one and coalescing queued partial (streaming) requests. The whisper
    library is an `Engine` of three uninterpreted functions; the channel
    is the sequence of slots the thread reads. */
module Whisper {
  import opened Wrappers
  import opened Text
  import opened Channels

  type Sample = real

  /** Opaque handles for a loaded `WhisperContext` and its `WhisperState`. */
  type ContextId = nat
  type StateId = nat

  /** The whisper library: load a model file, create a decoding state, run
      the full decoder (each segment's text, or None where `to_str_lossy`
      fails). Error strings are the library's `{:?}` rendering. */
  datatype Engine = Engine(
    newContext: string -> Result<ContextId>,
    createState: ContextId -> Result<StateId>,
    full: (StateId, seq<Sample>) -> Result<seq<Option<string>>>)

  /** The service's two fields. */
  datatype Handles = Handles(context: Option<ContextId>, state: Option<StateId>)

  function SegmentText(segment: Option<string>): string
  {
    match segment
    case Some(s) => s
    case None => ""
  }

  /** The text of the readable segments, in order. */
  function Concat(segments: seq<Option<string>>): string
  {
    if segments == [] then ""
    else Concat(segments[..|segments| - 1]) + SegmentText(segments[|segments| - 1])
  }

  /** `TranscriptionService::transcribe` on the handles it finds. */
  function Transcription(engine: Engine, state: Option<StateId>, audio: seq<Sample>): (r: Result<string>)
    ensures state.None? ==> r == Err("Model not loaded")
    ensures r.Ok? ==> IsTrimmed(r.value)
    ensures r.Ok? <==> state.Some? && engine.full(state.value, audio).Ok?
    ensures r.Ok? ==> r.value == Trim(Concat(engine.full(state.value, audio).value))
  {
    match state
    case None => Err("Model not loaded")
    case Some(st) =>
      match engine.full(st, audio)
      case Err(e) => Err("Transcription failed: " + e)
      case Ok(segments) =>
        TrimIsSlice(Concat(segments));
        Ok(Trim(Concat(segments)))
  }

  /** `TranscriptionService::load_model`: the handles afterwards and the reply. */
  function Load(engine: Engine, h: Handles, path: string): (res: (Handles, Result<()>))
    ensures res.1.Ok? <==> res.0.state.Some?
    ensures res.1.Ok? ==> res.0.context.Some?
    ensures res.1.Err? ==> res.0 == Handles(h.context, None)
    ensures res.1.Ok? <==> engine.newContext(path).Ok? && engine.createState(engine.newContext(path).value).Ok?
  {
    match engine.newContext(path)
    case Err(e) => (Handles(h.context, None), Err("Failed to load Whisper model: " + e))
    case Ok(ctx) =>
      match engine.createState(ctx)
      case Err(e) => (Handles(h.context, None), Err("Failed to create whisper state: " + e))
      case Ok(st) => (Handles(Some(ctx), Some(st)), Ok(()))
  }

  /** A failed load forgets the earlier model: the next transcription fails. */
  lemma FailedLoadUnloads(engine: Engine, h: Handles, path: string, audio: seq<Sample>)
    requires Load(engine, h, path).1.Err?
    ensures Transcription(engine, Load(engine, h, path).0.state, audio) == Err("Model not loaded")
  {
  }

  class TranscriptionService {
    const engine: Engine
    var context: Option<ContextId>
    var state: Option<StateId>

    function Current(): Handles
      reads this
    {
      Handles(context, state)
    }

    constructor(engine: Engine)
      ensures this.engine == engine && context == None && state == None
    {
      this.engine := engine;
      context := None;
      state := None;
    }

    /** load_model: drops the old state first, so a failure leaves none. */
    method LoadModel(path: string) returns (r: Result<()>)
      modifies this
      ensures (Current(), r) == Load(engine, old(Current()), path)
    {
      state := None;
      var ctx := engine.newContext(path);
      if ctx.Err? {
        return Err("Failed to load Whisper model: " + ctx.error);
      }
      var st := engine.createState(ctx.value);
      if st.Err? {
        return Err("Failed to create whisper state: " + st.error);
      }
      context := Some(ctx.value);
      state := Some(st.value);
      r := Ok(());
    }

    /** transcribe: runs the decoder and joins the readable segments. */
    method Transcribe(audio: seq<Sample>) returns (r: Result<string>)
      ensures r == Transcription(engine, state, audio)
    {
      if state.None? {
        return Err("Model not loaded");
      }
      var full := engine.full(state.value, audio);
      if full.Err? {
        return Err("Transcription failed: " + full.error);
      }
      var segments := full.value;
      var text := "";
      for k := 0 to |segments|
        invariant text == Concat(segments[..k])
      {
        assert segments[..k + 1][..k] == segments[..k];
        text := text + SegmentText(segments[k]);
      }
      assert segments[..|segments|] == segments;
      r := Ok(Trim(text));
    }
  }

  // ------------------------------------------------------------ the worker

  datatype TranscriptionRequest =
    | LoadModel(path: string)
    | Transcribe(audio: seq<Sample>)
    | TranscribePartial(audio: seq<Sample>)
    | Shutdown

  datatype TranscriptionResponse =
    | ModelLoaded(loaded: Result<()>)
    | TranscriptionComplete(text: Result<string>)

  /** What one read of the request channel finds: a request, or a queue that
      is empty for now (`recv` waits past it, `try_recv` stops at it). The
      end of the sequence is the channel closing. */
  datatype Slot = Queued(request: TranscriptionRequest) | Empty

  type WorkerTrace = Trace<TranscriptionResponse>

  /** The main loop from the given handles over the remaining slots. */
  function Worker(engine: Engine, h: Handles, q: seq<Slot>): WorkerTrace
    decreases |q|, 0
  {
    if q == [] then Silent()
    else match q[0]
      case Empty => Worker(engine, h, q[1..])
      case Queued(LoadModel(path)) =>
        var loaded := Load(engine, h, path);
        Then(Reply(ModelLoaded(loaded.1)), Worker(engine, loaded.0, q[1..]))
      case Queued(Transcribe(audio)) =>
        Then(Reply(TranscriptionComplete(Transcription(engine, h.state, audio))), Worker(engine, h, q[1..]))
      case Queued(TranscribePartial(audio)) => Drain(engine, h, audio, q[1..])
      case Queued(Shutdown) => Silent()
  }

  /** Draining after a partial request, `latest` being the newest partial audio. */
  function Drain(engine: Engine, h: Handles, latest: seq<Sample>, q: seq<Slot>): WorkerTrace
    decreases |q|, 1
  {
    if q == [] || q[0].Empty? then
      Then(PartialOutput(Transcription(engine, h.state, latest)), Worker(engine, h, q))
    else match q[0].request
      case TranscribePartial(newer) => Drain(engine, h, newer, q[1..])
      case Transcribe(audio) =>
        Then(Reply(TranscriptionComplete(Transcription(engine, h.state, audio))), Worker(engine, h, q[1..]))
      case LoadModel(path) =>
        var loaded := Load(engine, h, path);
        Then(Reply(ModelLoaded(loaded.1)), Drain(engine, loaded.0, latest, q[1..]))
      case Shutdown => Silent()
  }

  // ------------------------------------------------ properties of the worker

  datatype Kind = LoadKind | TranscribeKind

  function KindOf(r: TranscriptionResponse): Kind
  {
    if r.ModelLoaded? then LoadKind else TranscribeKind
  }

  function Kinds(rs: seq<TranscriptionResponse>): (ks: seq<Kind>)
    ensures |ks| == |rs|
  {
    if rs == [] then [] else [KindOf(rs[0])] + Kinds(rs[1..])
  }

  lemma {:induction false} KindsAppend(a: seq<TranscriptionResponse>, b: seq<TranscriptionResponse>)
    ensures Kinds(a + b) == Kinds(a) + Kinds(b)
  {
    if a == [] {
      assert a + b == b;
    } else {
      assert (a + b)[1..] == a[1..] + b;
      KindsAppend(a[1..], b);
    }
  }

  /** The requests that are owed a response: each LoadModel and Transcribe
      before the first Shutdown, in channel order. */
  function Owed(q: seq<Slot>): seq<Kind>
  {
    if q == [] then []
    else match q[0]
      case Empty => Owed(q[1..])
      case Queued(LoadModel(_)) => [LoadKind] + Owed(q[1..])
      case Queued(Transcribe(_)) => [TranscribeKind] + Owed(q[1..])
      case Queued(TranscribePartial(_)) => Owed(q[1..])
      case Queued(Shutdown) => []
  }

  /** Every LoadModel gets exactly one ModelLoaded and every Transcribe
      exactly one TranscriptionComplete, in the order they were queued,
      whether met by the main loop or while draining; nothing is answered
      after a Shutdown. */
  lemma {:induction false} WorkerAnswersEachOnce(engine: Engine, h: Handles, q: seq<Slot>)
    ensures Kinds(Worker(engine, h, q).responses) == Owed(q)
    decreases |q|, 0
  {
    if q != [] {
      match q[0]
      case Empty =>
        WorkerAnswersEachOnce(engine, h, q[1..]);
      case Queued(LoadModel(path)) =>
        var h', r := Load(engine, h, path).0, Load(engine, h, path).1;
        WorkerAnswersEachOnce(engine, h', q[1..]);
        KindsAppend([ModelLoaded(r)], Worker(engine, h', q[1..]).responses);
      case Queued(Transcribe(audio)) =>
        WorkerAnswersEachOnce(engine, h, q[1..]);
        KindsAppend([TranscriptionComplete(Transcription(engine, h.state, audio))], Worker(engine, h, q[1..]).responses);
      case Queued(TranscribePartial(audio)) =>
        DrainAnswersEachOnce(engine, h, audio, q[1..]);
      case Queued(Shutdown) =>
    }
  }

  lemma {:induction false} DrainAnswersEachOnce(engine: Engine, h: Handles, latest: seq<Sample>, q: seq<Slot>)
    ensures Kinds(Drain(engine, h, latest, q).responses) == Owed(q)
    decreases |q|, 1
  {
    if q == [] || q[0].Empty? {
      WorkerAnswersEachOnce(engine, h, q);
      assert Drain(engine, h, latest, q).responses == Worker(engine, h, q).responses;
    } else {
      match q[0].request
      case TranscribePartial(newer) =>
        DrainAnswersEachOnce(engine, h, newer, q[1..]);
      case Transcribe(audio) =>
        WorkerAnswersEachOnce(engine, h, q[1..]);
        KindsAppend([TranscriptionComplete(Transcription(engine, h.state, audio))], Worker(engine, h, q[1..]).responses);
      case LoadModel(path) =>
        var h', r := Load(engine, h, path).0, Load(engine, h, path).1;
        DrainAnswersEachOnce(engine, h', latest, q[1..]);
        KindsAppend([ModelLoaded(r)], Drain(engine, h', latest, q[1..]).responses);
      case Shutdown =>
    }
  }

  /** Whatever is queued after a Shutdown is never looked at. */
  lemma {:induction false} WorkerStopsAtShutdown(engine: Engine, h: Handles, q: seq<Slot>, rest: seq<Slot>)
    ensures Worker(engine, h, q + [Queued(Shutdown)] + rest) == Worker(engine, h, q + [Queued(Shutdown)])
    decreases |q|, 0
  {
    var s := [Queued(Shutdown)];
    if q != [] {
      assert (q + s + rest)[1..] == q[1..] + s + rest;
      assert (q + s)[1..] == q[1..] + s;
      match q[0]
      case Empty =>
        WorkerStopsAtShutdown(engine, h, q[1..], rest);
      case Queued(LoadModel(path)) =>
        WorkerStopsAtShutdown(engine, Load(engine, h, path).0, q[1..], rest);
      case Queued(Transcribe(audio)) =>
        WorkerStopsAtShutdown(engine, h, q[1..], rest);
      case Queued(TranscribePartial(audio)) =>
        DrainStopsAtShutdown(engine, h, audio, q[1..], rest);
      case Queued(Shutdown) =>
    }
  }

  lemma {:induction false} DrainStopsAtShutdown(engine: Engine, h: Handles, latest: seq<Sample>, q: seq<Slot>, rest: seq<Slot>)
    ensures Drain(engine, h, latest, q + [Queued(Shutdown)] + rest) == Drain(engine, h, latest, q + [Queued(Shutdown)])
    decreases |q|, 1
  {
    var s := [Queued(Shutdown)];
    if q == [] {
      assert q + s + rest == s + rest;
      assert q + s == s;
    } else {
      assert (q + s + rest)[1..] == q[1..] + s + rest;
      assert (q + s)[1..] == q[1..] + s;
      if q[0].Empty? {
        WorkerStopsAtShutdown(engine, h, q, rest);
      } else {
        match q[0].request
        case TranscribePartial(newer) =>
          DrainStopsAtShutdown(engine, h, newer, q[1..], rest);
        case Transcribe(audio) =>
          WorkerStopsAtShutdown(engine, h, q[1..], rest);
        case LoadModel(path) =>
          DrainStopsAtShutdown(engine, Load(engine, h, path).0, latest, q[1..], rest);
        case Shutdown =>
      }
    }
  }

  /** Only partial requests are queued. */
  ghost predicate AllPartial(ps: seq<Slot>)
  {
    forall k :: 0 <= k < |ps| ==> ps[k].Queued? && ps[k].request.TranscribePartial?
  }

  /** The newest of the queued partials, or `latest` when there is none. */
  function Newest(latest: seq<Sample>, ps: seq<Slot>): seq<Sample>
    requires AllPartial(ps)
  {
    if ps == [] then latest else ps[|ps| - 1].request.audio
  }

  /** Stale partials are skipped: draining a run of partials only keeps the newest. */
  lemma {:induction false} DrainKeepsNewest(engine: Engine, h: Handles, latest: seq<Sample>, ps: seq<Slot>, rest: seq<Slot>)
    requires AllPartial(ps)
    ensures Drain(engine, h, latest, ps + rest) == Drain(engine, h, Newest(latest, ps), rest)
    decreases |ps|
  {
    if ps == [] {
      assert ps + rest == rest;
    } else {
      assert (ps + rest)[1..] == ps[1..] + rest;
      assert (ps + rest)[0] == ps[0];
      assert AllPartial(ps[1..]);
      assert Newest(ps[0].request.audio, ps[1..]) == Newest(latest, ps);
      DrainKeepsNewest(engine, h, ps[0].request.audio, ps[1..], rest);
    }
  }

  /** Once the queue runs dry, exactly the newest partial is transcribed, and
      its text is forwarded only if transcription succeeded. */
  lemma NewestPartialTranscribed(engine: Engine, h: Handles, latest: seq<Sample>, ps: seq<Slot>, rest: seq<Slot>)
    requires AllPartial(ps)
    ensures Drain(engine, h, latest, ps + [Empty] + rest) ==
              Then(PartialOutput(Transcription(engine, h.state, Newest(latest, ps))), Worker(engine, h, rest))
  {
    assert ps + [Empty] + rest == ps + ([Empty] + rest);
    DrainKeepsNewest(engine, h, latest, ps, [Empty] + rest);
    assert ([Empty] + rest)[1..] == rest;
  }

  /** A final request found while draining pre-empts the pending partial:
      only the final result is sent, and no partial text. */
  lemma FinalPreemptsPartial(engine: Engine, h: Handles, latest: seq<Sample>, ps: seq<Slot>,
                             audio: seq<Sample>, rest: seq<Slot>)
    requires AllPartial(ps)
    ensures Drain(engine, h, latest, ps + [Queued(Transcribe(audio))] + rest) ==
              Then(Reply(TranscriptionComplete(Transcription(engine, h.state, audio))), Worker(engine, h, rest))
  {
    assert ps + [Queued(Transcribe(audio))] + rest == ps + ([Queued(Transcribe(audio))] + rest);
    DrainKeepsNewest(engine, h, latest, ps, [Queued(Transcribe(audio))] + rest);
    assert ([Queued(Transcribe(audio))] + rest)[1..] == rest;
  }

  /** Every partial text the worker forwards is trimmed. */
  lemma {:induction false} WorkerPartialsTrimmed(engine: Engine, h: Handles, q: seq<Slot>)
    ensures AllTrimmed(Worker(engine, h, q))
    decreases |q|, 0
  {
    if q != [] {
      match q[0]
      case Empty =>
        WorkerPartialsTrimmed(engine, h, q[1..]);
      case Queued(LoadModel(path)) =>
        var h', r := Load(engine, h, path).0, Load(engine, h, path).1;
        WorkerPartialsTrimmed(engine, h', q[1..]);
        ThenTrimmed(Reply(ModelLoaded(r)), Worker(engine, h', q[1..]));
      case Queued(Transcribe(audio)) =>
        WorkerPartialsTrimmed(engine, h, q[1..]);
        ThenTrimmed(Reply(TranscriptionComplete(Transcription(engine, h.state, audio))), Worker(engine, h, q[1..]));
      case Queued(TranscribePartial(audio)) =>
        DrainPartialsTrimmed(engine, h, audio, q[1..]);
      case Queued(Shutdown) =>
    }
  }

  lemma {:induction false} DrainPartialsTrimmed(engine: Engine, h: Handles, latest: seq<Sample>, q: seq<Slot>)
    ensures AllTrimmed(Drain(engine, h, latest, q))
    decreases |q|, 1
  {
    if q == [] || q[0].Empty? {
      WorkerPartialsTrimmed(engine, h, q);
      ThenTrimmed(PartialOutput(Transcription(engine, h.state, latest)), Worker(engine, h, q));
    } else {
      match q[0].request
      case TranscribePartial(newer) =>
        DrainPartialsTrimmed(engine, h, newer, q[1..]);
      case Transcribe(audio) =>
        WorkerPartialsTrimmed(engine, h, q[1..]);
        ThenTrimmed(Reply(TranscriptionComplete(Transcription(engine, h.state, audio))), Worker(engine, h, q[1..]));
      case LoadModel(path) =>
        var h', r := Load(engine, h, path).0, Load(engine, h, path).1;
        DrainPartialsTrimmed(engine, h', latest, q[1..]);
        ThenTrimmed(Reply(ModelLoaded(r)), Drain(engine, h', latest, q[1..]));
      case Shutdown =>
    }
  }

  // ------------------------------------------------------ the worker thread

  /** One step of the main loop at slot `i`. */
  lemma WorkerAt(engine: Engine, h: Handles, q: seq<Slot>, i: nat)
    requires i < |q|
    ensures q[i].Empty? ==> Worker(engine, h, q[i..]) == Worker(engine, h, q[i + 1..])
    ensures q[i].Queued? && q[i].request.LoadModel? ==>
              Worker(engine, h, q[i..]) ==
              Then(Reply(ModelLoaded(Load(engine, h, q[i].request.path).1)),
                   Worker(engine, Load(engine, h, q[i].request.path).0, q[i + 1..]))
    ensures q[i].Queued? && q[i].request.Transcribe? ==>
              Worker(engine, h, q[i..]) ==
              Then(Reply(TranscriptionComplete(Transcription(engine, h.state, q[i].request.audio))), Worker(engine, h, q[i + 1..]))
    ensures q[i].Queued? && q[i].request.TranscribePartial? ==>
              Worker(engine, h, q[i..]) == Drain(engine, h, q[i].request.audio, q[i + 1..])
    ensures q[i] == Queued(Shutdown) ==> Worker(engine, h, q[i..]) == Silent()
  {
    assert q[i..][0] == q[i];
    assert q[i..][1..] == q[i + 1..];
  }

  /** One step of the draining loop at slot `i` (`i == |q|`: the channel is closed). */
  lemma DrainAt(engine: Engine, h: Handles, latest: seq<Sample>, q: seq<Slot>, i: nat)
    requires i <= |q|
    ensures i == |q| || q[i].Empty? ==>
              Drain(engine, h, latest, q[i..]) ==
              Then(PartialOutput(Transcription(engine, h.state, latest)), Worker(engine, h, q[i..]))
    ensures i < |q| && q[i].Queued? && q[i].request.TranscribePartial? ==>
              Drain(engine, h, latest, q[i..]) == Drain(engine, h, q[i].request.audio, q[i + 1..])
    ensures i < |q| && q[i].Queued? && q[i].request.Transcribe? ==>
              Drain(engine, h, latest, q[i..]) ==
              Then(Reply(TranscriptionComplete(Transcription(engine, h.state, q[i].request.audio))), Worker(engine, h, q[i + 1..]))
    ensures i < |q| && q[i].Queued? && q[i].request.LoadModel? ==>
              Drain(engine, h, latest, q[i..]) ==
              Then(Reply(ModelLoaded(Load(engine, h, q[i].request.path).1)),
                   Drain(engine, Load(engine, h, q[i].request.path).0, latest, q[i + 1..]))
    ensures i < |q| && q[i] == Queued(Shutdown) ==> Drain(engine, h, latest, q[i..]) == Silent()
  {
    if i < |q| {
      assert q[i..][0] == q[i];
      assert q[i..][1..] == q[i + 1..];
    }
  }

  /** What is left to do while draining, `done` being the trace so far:
      nothing after a Shutdown; after a final request, its transcription and
      then the main loop; otherwise the rest of the drain from `i`. */
  ghost predicate Pending(engine: Engine, h: Handles, channel: seq<Slot>, i: nat, latest: seq<Sample>,
                          gotFinal: Option<seq<Sample>>, stop: bool, done: WorkerTrace, total: WorkerTrace)
    requires i <= |channel|
  {
    if stop then gotFinal.None? && done == total
    else if gotFinal.Some? then
      Then(done, Then(Reply(TranscriptionComplete(Transcription(engine, h.state, gotFinal.value))),
                      Worker(engine, h, channel[i..]))) == total
    else
      Then(done, Drain(engine, h, latest, channel[i..])) == total
  }

  /** One request taken by the `try_recv` loop: a newer partial replaces
      the audio to transcribe, a load is answered at once, a final request
      (`gotFinal`) or a Shutdown (`stop`) ends the loop. */
  method DrainOne(service: TranscriptionService, channel: seq<Slot>, i: nat, latest: seq<Sample>,
                  responses: seq<TranscriptionResponse>, partials: seq<string>, ghost total: WorkerTrace)
    returns (next: nat, responses': seq<TranscriptionResponse>, latest': seq<Sample>,
             gotFinal: Option<seq<Sample>>, stop: bool)
    requires i < |channel| && channel[i].Queued?
    requires Then(Trace(responses, partials), Drain(service.engine, service.Current(), latest, channel[i..])) == total
    modifies service
    ensures next == i + 1
    ensures Pending(service.engine, service.Current(), channel, next, latest', gotFinal, stop,
                    Trace(responses', partials), total)
  {
    ghost var engine := service.engine;
    ghost var drained := Trace(responses, partials);
    ghost var h := service.Current();
    DrainAt(engine, h, latest, channel, i);
    next, responses', latest', gotFinal, stop := i + 1, responses, latest, None, false;
    match channel[i].request {
      case TranscribePartial(newer) =>
        latest' := newer;
      case Transcribe(finalAudio) =>
        gotFinal := Some(finalAudio);
      case LoadModel(path) =>
        ghost var loaded := Load(engine, h, path);
        ghost var rest := Drain(engine, loaded.0, latest, channel[i + 1..]);
        assert Then(drained, Then(Reply(ModelLoaded(loaded.1)), rest)) == total;
        var r := service.LoadModel(path);
        assert service.Current() == loaded.0 && r == loaded.1;
        ThenAssoc(drained, Reply(ModelLoaded(r)), rest);
        ThenReply(drained, ModelLoaded(r));
        responses' := responses + [ModelLoaded(r)];
      case Shutdown =>
        ThenSilent(drained);
        stop := true;
    }
  }

  /** The `try_recv` loop of the TranscribePartial arm: keeps the newest
      partial audio, answers loads, and stops at an empty or closed queue,
      at a final request (`gotFinal`) or at Shutdown (`stop`). */
  method DrainQueue(service: TranscriptionService, channel: seq<Slot>, start: nat, audio: seq<Sample>,
                    responses: seq<TranscriptionResponse>, partials: seq<string>, ghost total: WorkerTrace)
    returns (responses': seq<TranscriptionResponse>, i: nat, latest: seq<Sample>,
             gotFinal: Option<seq<Sample>>, stop: bool)
    requires start <= |channel|
    requires Then(Trace(responses, partials), Drain(service.engine, service.Current(), audio, channel[start..])) == total
    modifies service
    ensures start <= i <= |channel|
    ensures stop || gotFinal.Some? || i == |channel| || channel[i].Empty?
    ensures Pending(service.engine, service.Current(), channel, i, latest, gotFinal, stop, Trace(responses', partials), total)
  {
    responses', i, latest, gotFinal, stop := responses, start, audio, None, false;
    while i < |channel| && channel[i].Queued? && !stop && gotFinal.None?
      invariant start <= i <= |channel|
      invariant Pending(service.engine, service.Current(), channel, i, latest, gotFinal, stop, Trace(responses', partials), total)
      decreases |channel| - i
    {
      i, responses', latest, gotFinal, stop := DrainOne(service, channel, i, latest, responses', partials, total);
    }
  }

  /** The TranscribePartial arm of the worker loop: drain the queue, then
      transcribe the final request if one was found, or else the newest
      partial, forwarding its text only on success. `stop` reports a
      Shutdown, which ends the thread. */
  method ServePartial(service: TranscriptionService, channel: seq<Slot>, start: nat, audio: seq<Sample>,
                      responses: seq<TranscriptionResponse>, partials: seq<string>, ghost total: WorkerTrace)
    returns (responses': seq<TranscriptionResponse>, partials': seq<string>, i: nat, stop: bool)
    requires start <= |channel|
    requires Then(Trace(responses, partials), Drain(service.engine, service.Current(), audio, channel[start..])) == total
    modifies service
    ensures start <= i <= |channel|
    ensures stop ==> Trace(responses', partials') == total
    ensures !stop ==> Then(Trace(responses', partials'), Worker(service.engine, service.Current(), channel[i..])) == total
  {
    var latest, gotFinal;
    responses', i, latest, gotFinal, stop := DrainQueue(service, channel, start, audio, responses, partials, total);
    partials' := partials;
    if stop {
      return;
    }
    ghost var engine := service.engine;
    ghost var h := service.Current();
    ghost var before := Trace(responses', partials');
    ghost var rest := Worker(engine, h, channel[i..]);
    if gotFinal.Some? {
      ghost var reply := Reply(TranscriptionComplete(Transcription(engine, h.state, gotFinal.value)));
      assert Then(before, Then(reply, rest)) == total;
      var r := service.Transcribe(gotFinal.value);
      ThenAssoc(before, reply, rest);
      ThenReply(before, TranscriptionComplete(r));
      responses' := responses' + [TranscriptionComplete(r)];
    } else {
      ghost var output := PartialOutput(Transcription(engine, h.state, latest));
      assert Then(before, Drain(engine, h, latest, channel[i..])) == total;
      DrainAt(engine, h, latest, channel, i);
      assert Then(before, Then(output, rest)) == total;
      var r := service.Transcribe(latest);
      ThenAssoc(before, output, rest);
      ThenPartial(before, r);
      if r.Ok? {
        partials' := partials' + [Trim(r.value)];
      }
    }
  }

  /** spawn_transcription_thread's loop over the request channel. */
  method RunTranscriptionWorker(engine: Engine, channel: seq<Slot>)
    returns (responses: seq<TranscriptionResponse>, partials: seq<string>)
    ensures Trace(responses, partials) == Worker(engine, Handles(None, None), channel)
  {
    var service := new TranscriptionService(engine);
    ghost var total := Worker(engine, Handles(None, None), channel);
    responses, partials := [], [];
    var i := 0;
    assert channel[0..] == channel;
    ThenAssoc(Silent(), Silent(), total);
    while i < |channel|
      invariant 0 <= i <= |channel| && service.engine == engine
      invariant Then(Trace(responses, partials), Worker(engine, service.Current(), channel[i..])) == total
      decreases |channel| - i
    {
      ghost var done := Trace(responses, partials);
      ghost var h := service.Current();
      WorkerAt(engine, h, channel, i);
      var slot := channel[i];
      i := i + 1;
      if slot.Empty? {
        continue;
      }
      match slot.request {
        case LoadModel(path) =>
          ghost var loaded := Load(engine, h, path);
          ghost var rest := Worker(engine, loaded.0, channel[i..]);
          var r := service.LoadModel(path);
          assert service.Current() == loaded.0 && r == loaded.1;
          ThenAssoc(done, Reply(ModelLoaded(r)), rest);
          ThenReply(done, ModelLoaded(r));
          responses := responses + [ModelLoaded(r)];
        case Transcribe(audio) =>
          var r := service.Transcribe(audio);
          ghost var rest := Worker(engine, h, channel[i..]);
          assert Worker(engine, h, channel[i - 1..]) == Then(Reply(TranscriptionComplete(r)), rest);
          ThenAssoc(done, Reply(TranscriptionComplete(r)), rest);
          ThenReply(done, TranscriptionComplete(r));
          responses := responses + [TranscriptionComplete(r)];
        case TranscribePartial(audio) =>
          assert Then(done, Drain(engine, h, audio, channel[i..])) == total;
          var stop;
          responses, partials, i, stop := ServePartial(service, channel, i, audio, responses, partials, total);
          if stop {
            return;
          }
        case Shutdown =>
          ThenSilent(done);
          return;
      }
    }
    assert channel[i..] == [];
    ThenSilent(Trace(responses, partials));
  }
}
