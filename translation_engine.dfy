/** The translation worker (src-tauri/src/translation/engine.rs): a service
    whose backend is still a passthrough (a loaded model returns the
    trimmed input), and the thread that serves requests from a channel,
    answering final requests one for one, applying language changes
    silently and coalescing queued partial requests. The channel is the
    sequence of slots the thread reads. */
module TranslationEngine {
  import opened Wrappers
  import opened Text
  import opened Channels

  datatype TranslationJob = TranslationJob(text: string, sourceLang: string, targetLang: string)

  /** The service's three fields. */
  datatype Settings = Settings(sourceLang: Option<string>, targetLang: string, modelLoaded: bool)

  /** `TranslationService::translate` with the service's `model_loaded` flag. */
  function Translation(modelLoaded: bool, job: TranslationJob): (r: Result<string>)
  {
    if !modelLoaded then Err("Translation model not loaded")
    else
      var text := Trim(job.text);
      if text == [] then Ok("")
      else if job.sourceLang == job.targetLang then Ok(text)
      else Ok(text)
  }

  /** Before a load every translation fails; after one it is the trimmed
      input, empty exactly for whitespace-only text. */
  lemma TranslationMeaning(modelLoaded: bool, job: TranslationJob)
    ensures !modelLoaded ==> Translation(modelLoaded, job) == Err("Translation model not loaded")
    ensures modelLoaded ==> Translation(modelLoaded, job).Ok?
    ensures modelLoaded ==> Translation(modelLoaded, job).value == Trim(job.text)
    ensures modelLoaded ==> IsTrimmed(Translation(modelLoaded, job).value)
    ensures modelLoaded ==> (Translation(modelLoaded, job).value == "" <==> IsBlank(job.text))
  {
    TrimIsSlice(job.text);
    TrimEmptyIffBlank(job.text);
  }

  /** The languages of a job never change its translation. */
  lemma TranslationIgnoresLanguages(modelLoaded: bool, job: TranslationJob, source: string, target: string)
    ensures Translation(modelLoaded, job) == Translation(modelLoaded, TranslationJob(job.text, source, target))
  {
  }

  /** Translating a translation again gives it back unchanged. */
  lemma TranslationIdempotent(job: TranslationJob)
    ensures Translation(true, TranslationJob(Translation(true, job).value, job.sourceLang, job.targetLang)) ==
            Translation(true, job)
  {
    TranslationMeaning(true, job);
    TrimIdempotent(job.text);
  }

  class TranslationService {
    var sourceLang: Option<string>
    var targetLang: string
    var modelLoaded: bool

    function Current(): Settings
      reads this
    {
      Settings(sourceLang, targetLang, modelLoaded)
    }

    /** `TranslationService::new`: English to English, no model. */
    constructor()
      ensures Current() == Settings(Some("en"), "en", false)
    {
      sourceLang := Some("en");
      targetLang := "en";
      modelLoaded := false;
    }

    /** load_model: the path is not looked at and the load always succeeds. */
    method LoadModel(path: Option<string>) returns (r: Result<()>)
      modifies this
      ensures r == Ok(())
      ensures Current() == old(Current()).(modelLoaded := true)
    {
      modelLoaded := true;
      r := Ok(());
    }

    /** The SetLanguages request: overwrites both languages. */
    method SetLanguages(source: Option<string>, target: string)
      modifies this
      ensures Current() == old(Current()).(sourceLang := source, targetLang := target)
    {
      sourceLang := source;
      targetLang := target;
    }

    method Translate(job: TranslationJob) returns (r: Result<string>)
      ensures r == Translation(modelLoaded, job)
    {
      if !modelLoaded {
        return Err("Translation model not loaded");
      }
      var text := Trim(job.text);
      if text == [] {
        return Ok("");
      }
      if job.sourceLang == job.targetLang {
        return Ok(text);
      }
      r := Ok(text);
    }
  }

  // ------------------------------------------------------------ the worker

  datatype TranslationRequest =
    | LoadModel(path: Option<string>)
    | SetLanguages(source: Option<string>, target: string)
    | Translate(job: TranslationJob)
    | TranslatePartial(job: TranslationJob)
    | Shutdown

  datatype TranslationResponse =
    | ModelLoaded(loaded: Result<()>)
    | TranslationComplete(text: Result<string>)

  /** What one read of the request channel finds: a request, or a queue that
      is empty for now (`recv` waits past it, `try_recv` stops at it). The
      end of the sequence is the channel closing. */
  datatype Slot = Queued(request: TranslationRequest) | Empty

  type WorkerTrace = Trace<TranslationResponse>

  function Loaded(s: Settings): Settings { s.(modelLoaded := true) }

  function WithLanguages(s: Settings, source: Option<string>, target: string): Settings
  {
    s.(sourceLang := source, targetLang := target)
  }

  /** The main loop from the given settings over the remaining slots. */
  function Worker(s: Settings, q: seq<Slot>): WorkerTrace
    decreases |q|, 0
  {
    if q == [] then Silent()
    else match q[0]
      case Empty => Worker(s, q[1..])
      case Queued(LoadModel(_)) => Then(Reply(ModelLoaded(Ok(()))), Worker(Loaded(s), q[1..]))
      case Queued(SetLanguages(source, target)) => Worker(WithLanguages(s, source, target), q[1..])
      case Queued(Translate(job)) =>
        Then(Reply(TranslationComplete(Translation(s.modelLoaded, job))), Worker(s, q[1..]))
      case Queued(TranslatePartial(job)) => Drain(s, job, q[1..])
      case Queued(Shutdown) => Silent()
  }

  /** Draining after a partial request, `latest` being the newest partial job. */
  function Drain(s: Settings, latest: TranslationJob, q: seq<Slot>): WorkerTrace
    decreases |q|, 1
  {
    if q == [] || q[0].Empty? then
      Then(PartialOutput(Translation(s.modelLoaded, latest)), Worker(s, q))
    else match q[0].request
      case TranslatePartial(newer) => Drain(s, newer, q[1..])
      case Translate(job) =>
        Then(Reply(TranslationComplete(Translation(s.modelLoaded, job))), Worker(s, q[1..]))
      case LoadModel(_) => Then(Reply(ModelLoaded(Ok(()))), Drain(Loaded(s), latest, q[1..]))
      case SetLanguages(source, target) => Drain(WithLanguages(s, source, target), latest, q[1..])
      case Shutdown => Silent()
  }

  // ------------------------------------------------ properties of the worker

  datatype Kind = LoadKind | TranslateKind

  function KindOf(r: TranslationResponse): Kind
  {
    if r.ModelLoaded? then LoadKind else TranslateKind
  }

  function Kinds(rs: seq<TranslationResponse>): (ks: seq<Kind>)
    ensures |ks| == |rs|
  {
    if rs == [] then [] else [KindOf(rs[0])] + Kinds(rs[1..])
  }

  lemma {:induction false} KindsAppend(a: seq<TranslationResponse>, b: seq<TranslationResponse>)
    ensures Kinds(a + b) == Kinds(a) + Kinds(b)
  {
    if a == [] {
      assert a + b == b;
    } else {
      assert (a + b)[1..] == a[1..] + b;
      KindsAppend(a[1..], b);
    }
  }

  /** The requests owed a response: each LoadModel and Translate before the
      first Shutdown, in channel order (SetLanguages is never answered). */
  function Owed(q: seq<Slot>): seq<Kind>
  {
    if q == [] then []
    else match q[0]
      case Empty => Owed(q[1..])
      case Queued(LoadModel(_)) => [LoadKind] + Owed(q[1..])
      case Queued(SetLanguages(_, _)) => Owed(q[1..])
      case Queued(Translate(_)) => [TranslateKind] + Owed(q[1..])
      case Queued(TranslatePartial(_)) => Owed(q[1..])
      case Queued(Shutdown) => []
  }

  /** Every LoadModel gets exactly one ModelLoaded and every Translate
      exactly one TranslationComplete, in the order they were queued,
      whether met by the main loop or while draining; SetLanguages and
      partial requests get none, and nothing is answered after a Shutdown. */
  lemma {:induction false} WorkerAnswersEachOnce(s: Settings, q: seq<Slot>)
    ensures Kinds(Worker(s, q).responses) == Owed(q)
    decreases |q|, 0
  {
    if q != [] {
      match q[0]
      case Empty =>
        WorkerAnswersEachOnce(s, q[1..]);
      case Queued(LoadModel(_)) =>
        WorkerAnswersEachOnce(Loaded(s), q[1..]);
        KindsAppend([ModelLoaded(Ok(()))], Worker(Loaded(s), q[1..]).responses);
      case Queued(SetLanguages(source, target)) =>
        WorkerAnswersEachOnce(WithLanguages(s, source, target), q[1..]);
      case Queued(Translate(job)) =>
        WorkerAnswersEachOnce(s, q[1..]);
        KindsAppend([TranslationComplete(Translation(s.modelLoaded, job))], Worker(s, q[1..]).responses);
      case Queued(TranslatePartial(job)) =>
        DrainAnswersEachOnce(s, job, q[1..]);
      case Queued(Shutdown) =>
    }
  }

  lemma {:induction false} DrainAnswersEachOnce(s: Settings, latest: TranslationJob, q: seq<Slot>)
    ensures Kinds(Drain(s, latest, q).responses) == Owed(q)
    decreases |q|, 1
  {
    if q == [] || q[0].Empty? {
      WorkerAnswersEachOnce(s, q);
      assert Drain(s, latest, q).responses == Worker(s, q).responses;
    } else {
      match q[0].request
      case TranslatePartial(newer) =>
        DrainAnswersEachOnce(s, newer, q[1..]);
      case Translate(job) =>
        WorkerAnswersEachOnce(s, q[1..]);
        KindsAppend([TranslationComplete(Translation(s.modelLoaded, job))], Worker(s, q[1..]).responses);
      case LoadModel(_) =>
        DrainAnswersEachOnce(Loaded(s), latest, q[1..]);
        KindsAppend([ModelLoaded(Ok(()))], Drain(Loaded(s), latest, q[1..]).responses);
      case SetLanguages(source, target) =>
        DrainAnswersEachOnce(WithLanguages(s, source, target), latest, q[1..]);
      case Shutdown =>
    }
  }

  /** Whatever is queued after a Shutdown is never looked at, in the main
      loop or while draining. */
  lemma {:induction false} WorkerStopsAtShutdown(s: Settings, q: seq<Slot>, rest: seq<Slot>)
    ensures Worker(s, q + [Queued(Shutdown)] + rest) == Worker(s, q + [Queued(Shutdown)])
    decreases |q|, 0
  {
    var stop := [Queued(Shutdown)];
    if q != [] {
      assert (q + stop + rest)[1..] == q[1..] + stop + rest;
      assert (q + stop)[1..] == q[1..] + stop;
      match q[0]
      case Empty =>
        WorkerStopsAtShutdown(s, q[1..], rest);
      case Queued(LoadModel(_)) =>
        WorkerStopsAtShutdown(Loaded(s), q[1..], rest);
      case Queued(SetLanguages(source, target)) =>
        WorkerStopsAtShutdown(WithLanguages(s, source, target), q[1..], rest);
      case Queued(Translate(_)) =>
        WorkerStopsAtShutdown(s, q[1..], rest);
      case Queued(TranslatePartial(job)) =>
        DrainStopsAtShutdown(s, job, q[1..], rest);
      case Queued(Shutdown) =>
    }
  }

  lemma {:induction false} DrainStopsAtShutdown(s: Settings, latest: TranslationJob, q: seq<Slot>, rest: seq<Slot>)
    ensures Drain(s, latest, q + [Queued(Shutdown)] + rest) == Drain(s, latest, q + [Queued(Shutdown)])
    decreases |q|, 1
  {
    var stop := [Queued(Shutdown)];
    if q == [] {
      assert q + stop + rest == stop + rest;
      assert q + stop == stop;
    } else {
      assert (q + stop + rest)[1..] == q[1..] + stop + rest;
      assert (q + stop)[1..] == q[1..] + stop;
      if q[0].Empty? {
        WorkerStopsAtShutdown(s, q, rest);
      } else {
        match q[0].request
        case TranslatePartial(newer) =>
          DrainStopsAtShutdown(s, newer, q[1..], rest);
        case Translate(_) =>
          WorkerStopsAtShutdown(s, q[1..], rest);
        case LoadModel(_) =>
          DrainStopsAtShutdown(Loaded(s), latest, q[1..], rest);
        case SetLanguages(source, target) =>
          DrainStopsAtShutdown(WithLanguages(s, source, target), latest, q[1..], rest);
        case Shutdown =>
      }
    }
  }

  /** A Shutdown met while draining drops the pending partial: nothing more
      is sent. */
  lemma ShutdownDropsPartial(s: Settings, latest: TranslationJob, rest: seq<Slot>)
    ensures Drain(s, latest, [Queued(Shutdown)] + rest) == Silent()
  {
    assert ([Queued(Shutdown)] + rest)[0] == Queued(Shutdown);
  }

  /** The languages the service holds are never read: two services that
      agree on whether a model is loaded send exactly the same things. */
  lemma {:induction false} WorkerIgnoresLanguages(s: Settings, s': Settings, q: seq<Slot>)
    requires s.modelLoaded == s'.modelLoaded
    ensures Worker(s, q) == Worker(s', q)
    decreases |q|, 0
  {
    if q != [] {
      match q[0]
      case Empty =>
        WorkerIgnoresLanguages(s, s', q[1..]);
      case Queued(LoadModel(_)) =>
        WorkerIgnoresLanguages(Loaded(s), Loaded(s'), q[1..]);
      case Queued(SetLanguages(source, target)) =>
        WorkerIgnoresLanguages(WithLanguages(s, source, target), WithLanguages(s', source, target), q[1..]);
      case Queued(Translate(_)) =>
        WorkerIgnoresLanguages(s, s', q[1..]);
      case Queued(TranslatePartial(job)) =>
        DrainIgnoresLanguages(s, s', job, q[1..]);
      case Queued(Shutdown) =>
    }
  }

  lemma {:induction false} DrainIgnoresLanguages(s: Settings, s': Settings, latest: TranslationJob, q: seq<Slot>)
    requires s.modelLoaded == s'.modelLoaded
    ensures Drain(s, latest, q) == Drain(s', latest, q)
    decreases |q|, 1
  {
    if q == [] || q[0].Empty? {
      WorkerIgnoresLanguages(s, s', q);
    } else {
      match q[0].request
      case TranslatePartial(newer) =>
        DrainIgnoresLanguages(s, s', newer, q[1..]);
      case Translate(_) =>
        WorkerIgnoresLanguages(s, s', q[1..]);
      case LoadModel(_) =>
        DrainIgnoresLanguages(Loaded(s), Loaded(s'), latest, q[1..]);
      case SetLanguages(source, target) =>
        DrainIgnoresLanguages(WithLanguages(s, source, target), WithLanguages(s', source, target), latest, q[1..]);
      case Shutdown =>
    }
  }

  /** So a SetLanguages request changes nothing that is sent, in the main
      loop or while draining. */
  lemma SetLanguagesIsSilent(s: Settings, source: Option<string>, target: string, latest: TranslationJob, rest: seq<Slot>)
    ensures Worker(s, [Queued(SetLanguages(source, target))] + rest) == Worker(s, rest)
    ensures Drain(s, latest, [Queued(SetLanguages(source, target))] + rest) == Drain(s, latest, rest)
  {
    var q := [Queued(SetLanguages(source, target))] + rest;
    assert q[0] == Queued(SetLanguages(source, target)) && q[1..] == rest;
    WorkerIgnoresLanguages(WithLanguages(s, source, target), s, rest);
    DrainIgnoresLanguages(WithLanguages(s, source, target), s, latest, rest);
  }

  /** Every translation answered is a success. */
  ghost predicate Succeeded(rs: seq<TranslationResponse>)
  {
    rs == [] || ((rs[0].TranslationComplete? ==> rs[0].text.Ok?) && Succeeded(rs[1..]))
  }

  ghost predicate AllSucceed(t: WorkerTrace)
  {
    Succeeded(t.responses)
  }

  lemma {:induction false} SucceededAppend(a: seq<TranslationResponse>, b: seq<TranslationResponse>)
    requires Succeeded(a) && Succeeded(b)
    ensures Succeeded(a + b)
  {
    if a != [] {
      assert (a + b)[1..] == a[1..] + b;
      SucceededAppend(a[1..], b);
    } else {
      assert a + b == b;
    }
  }

  /** A reply that is not a failed translation. */
  lemma ReplySucceeds(r: TranslationResponse)
    requires r.TranslationComplete? ==> r.text.Ok?
    ensures AllSucceed(Reply(r))
  {
    assert [r][1..] == [];
  }

  lemma ThenSucceeds(a: WorkerTrace, b: WorkerTrace)
    requires AllSucceed(a) && AllSucceed(b)
    ensures AllSucceed(Then(a, b))
  {
    SucceededAppend(a.responses, b.responses);
  }

  /** Nothing unloads the model: once loaded, every translation answered
      succeeds. */
  lemma {:induction false} LoadedWorkerSucceeds(s: Settings, q: seq<Slot>)
    requires s.modelLoaded
    ensures AllSucceed(Worker(s, q))
    decreases |q|, 1
  {
    if q == [] {
      assert Worker(s, q) == Silent();
    } else if q[0].Empty? {
      LoadedWorkerSucceeds(s, q[1..]);
    } else {
      LoadedRequestSucceeds(s, q[0].request, q);
    }
  }

  /** The step of `LoadedWorkerSucceeds` for a queue headed by `req`. */
  lemma {:induction false} LoadedRequestSucceeds(s: Settings, req: TranslationRequest, q: seq<Slot>)
    requires s.modelLoaded && q != [] && q[0] == Queued(req)
    ensures AllSucceed(Worker(s, q))
    decreases |q|, 0
  {
    match req
    case LoadModel(_) =>
      var rest := Worker(Loaded(s), q[1..]);
      LoadedWorkerSucceeds(Loaded(s), q[1..]);
      ReplySucceeds(ModelLoaded(Ok(())));
      ThenSucceeds(Reply(ModelLoaded(Ok(()))), rest);
    case SetLanguages(source, target) =>
      LoadedWorkerSucceeds(WithLanguages(s, source, target), q[1..]);
    case Translate(job) =>
      var r := TranslationComplete(Translation(s.modelLoaded, job));
      var rest := Worker(s, q[1..]);
      LoadedWorkerSucceeds(s, q[1..]);
      ReplySucceeds(r);
      ThenSucceeds(Reply(r), rest);
    case TranslatePartial(job) =>
      LoadedDrainSucceeds(s, job, q[1..]);
    case Shutdown =>
      assert Worker(s, q) == Silent();
  }

  lemma {:induction false} LoadedDrainSucceeds(s: Settings, latest: TranslationJob, q: seq<Slot>)
    requires s.modelLoaded
    ensures AllSucceed(Drain(s, latest, q))
    decreases |q|, 2
  {
    if q == [] || q[0].Empty? {
      var out := PartialOutput<TranslationResponse>(Translation(s.modelLoaded, latest));
      assert Drain(s, latest, q) == Then(out, Worker(s, q));
      assert AllSucceed(out);
      LoadedWorkerSucceeds(s, q);
      ThenSucceeds(out, Worker(s, q));
    } else {
      match q[0].request
      case TranslatePartial(newer) =>
        LoadedDrainSucceeds(s, newer, q[1..]);
      case Translate(job) =>
        var r := TranslationComplete(Translation(s.modelLoaded, job));
        var rest := Worker(s, q[1..]);
        assert Drain(s, latest, q) == Then(Reply(r), rest);
        LoadedWorkerSucceeds(s, q[1..]);
        ReplySucceeds(r);
        ThenSucceeds(Reply(r), rest);
      case LoadModel(_) =>
        var rest := Drain(Loaded(s), latest, q[1..]);
        assert Drain(s, latest, q) == Then(Reply(ModelLoaded(Ok(()))), rest);
        LoadedDrainSucceeds(Loaded(s), latest, q[1..]);
        ReplySucceeds(ModelLoaded(Ok(())));
        ThenSucceeds(Reply(ModelLoaded(Ok(()))), rest);
      case SetLanguages(source, target) =>
        LoadedDrainSucceeds(WithLanguages(s, source, target), latest, q[1..]);
      case Shutdown =>
        assert Drain(s, latest, q) == Silent();
    }
  }

  /** Only partial requests are queued. */
  ghost predicate AllPartial(ps: seq<Slot>)
  {
    forall k :: 0 <= k < |ps| ==> ps[k].Queued? && ps[k].request.TranslatePartial?
  }

  /** The newest of the queued partial jobs, or `latest` when there is none. */
  function Newest(latest: TranslationJob, ps: seq<Slot>): TranslationJob
    requires AllPartial(ps)
  {
    if ps == [] then latest else ps[|ps| - 1].request.job
  }

  /** Stale partials are skipped: draining a run of partials only keeps the newest. */
  lemma {:induction false} DrainKeepsNewest(s: Settings, latest: TranslationJob, ps: seq<Slot>, rest: seq<Slot>)
    requires AllPartial(ps)
    ensures Drain(s, latest, ps + rest) == Drain(s, Newest(latest, ps), rest)
    decreases |ps|
  {
    if ps == [] {
      assert ps + rest == rest;
    } else {
      assert (ps + rest)[1..] == ps[1..] + rest;
      assert (ps + rest)[0] == ps[0];
      assert AllPartial(ps[1..]);
      assert Newest(ps[0].request.job, ps[1..]) == Newest(latest, ps);
      DrainKeepsNewest(s, ps[0].request.job, ps[1..], rest);
    }
  }

  /** Once the queue runs dry, exactly the newest partial is translated, and
      its text is forwarded only if translation succeeded. */
  lemma NewestPartialTranslated(s: Settings, latest: TranslationJob, ps: seq<Slot>, rest: seq<Slot>)
    requires AllPartial(ps)
    ensures Drain(s, latest, ps + [Empty] + rest) ==
              Then(PartialOutput(Translation(s.modelLoaded, Newest(latest, ps))), Worker(s, rest))
  {
    assert ps + [Empty] + rest == ps + ([Empty] + rest);
    DrainKeepsNewest(s, latest, ps, [Empty] + rest);
    assert ([Empty] + rest)[1..] == rest;
  }

  /** A final request found while draining pre-empts the pending partial:
      only the final result is sent, and no partial text. */
  lemma FinalPreemptsPartial(s: Settings, latest: TranslationJob, ps: seq<Slot>, job: TranslationJob, rest: seq<Slot>)
    requires AllPartial(ps)
    ensures Drain(s, latest, ps + [Queued(Translate(job))] + rest) ==
              Then(Reply(TranslationComplete(Translation(s.modelLoaded, job))), Worker(s, rest))
  {
    assert ps + [Queued(Translate(job))] + rest == ps + ([Queued(Translate(job))] + rest);
    DrainKeepsNewest(s, latest, ps, [Queued(Translate(job))] + rest);
    assert ([Queued(Translate(job))] + rest)[1..] == rest;
  }

  /** Every partial text the worker forwards is trimmed. */
  lemma {:induction false} WorkerPartialsTrimmed(s: Settings, q: seq<Slot>)
    ensures AllTrimmed(Worker(s, q))
    decreases |q|, 0
  {
    if q != [] {
      match q[0]
      case Empty =>
        WorkerPartialsTrimmed(s, q[1..]);
      case Queued(LoadModel(_)) =>
        WorkerPartialsTrimmed(Loaded(s), q[1..]);
        ThenTrimmed(Reply(ModelLoaded(Ok(()))), Worker(Loaded(s), q[1..]));
      case Queued(SetLanguages(source, target)) =>
        WorkerPartialsTrimmed(WithLanguages(s, source, target), q[1..]);
      case Queued(Translate(job)) =>
        WorkerPartialsTrimmed(s, q[1..]);
        ThenTrimmed(Reply(TranslationComplete(Translation(s.modelLoaded, job))), Worker(s, q[1..]));
      case Queued(TranslatePartial(job)) =>
        DrainPartialsTrimmed(s, job, q[1..]);
      case Queued(Shutdown) =>
    }
  }

  lemma {:induction false} DrainPartialsTrimmed(s: Settings, latest: TranslationJob, q: seq<Slot>)
    ensures AllTrimmed(Drain(s, latest, q))
    decreases |q|, 1
  {
    if q == [] || q[0].Empty? {
      WorkerPartialsTrimmed(s, q);
      ThenTrimmed(PartialOutput(Translation(s.modelLoaded, latest)), Worker(s, q));
    } else {
      match q[0].request
      case TranslatePartial(newer) =>
        DrainPartialsTrimmed(s, newer, q[1..]);
      case Translate(job) =>
        WorkerPartialsTrimmed(s, q[1..]);
        ThenTrimmed(Reply(TranslationComplete(Translation(s.modelLoaded, job))), Worker(s, q[1..]));
      case LoadModel(_) =>
        DrainPartialsTrimmed(Loaded(s), latest, q[1..]);
        ThenTrimmed(Reply(ModelLoaded(Ok(()))), Drain(Loaded(s), latest, q[1..]));
      case SetLanguages(source, target) =>
        DrainPartialsTrimmed(WithLanguages(s, source, target), latest, q[1..]);
      case Shutdown =>
    }
  }

  // ------------------------------------------------------ the worker thread

  /** One step of the main loop at slot `i`. */
  lemma WorkerAt(s: Settings, q: seq<Slot>, i: nat)
    requires i < |q|
    ensures q[i].Empty? ==> Worker(s, q[i..]) == Worker(s, q[i + 1..])
    ensures q[i].Queued? && q[i].request.LoadModel? ==>
              Worker(s, q[i..]) == Then(Reply(ModelLoaded(Ok(()))), Worker(Loaded(s), q[i + 1..]))
    ensures q[i].Queued? && q[i].request.SetLanguages? ==>
              Worker(s, q[i..]) == Worker(WithLanguages(s, q[i].request.source, q[i].request.target), q[i + 1..])
    ensures q[i].Queued? && q[i].request.Translate? ==>
              Worker(s, q[i..]) ==
              Then(Reply(TranslationComplete(Translation(s.modelLoaded, q[i].request.job))), Worker(s, q[i + 1..]))
    ensures q[i].Queued? && q[i].request.TranslatePartial? ==>
              Worker(s, q[i..]) == Drain(s, q[i].request.job, q[i + 1..])
    ensures q[i] == Queued(Shutdown) ==> Worker(s, q[i..]) == Silent()
  {
    assert q[i..][0] == q[i];
    assert q[i..][1..] == q[i + 1..];
  }

  /** One step of the draining loop at slot `i` (`i == |q|`: the channel is closed). */
  lemma DrainAt(s: Settings, latest: TranslationJob, q: seq<Slot>, i: nat)
    requires i <= |q|
    ensures i == |q| || q[i].Empty? ==>
              Drain(s, latest, q[i..]) == Then(PartialOutput(Translation(s.modelLoaded, latest)), Worker(s, q[i..]))
    ensures i < |q| && q[i].Queued? && q[i].request.TranslatePartial? ==>
              Drain(s, latest, q[i..]) == Drain(s, q[i].request.job, q[i + 1..])
    ensures i < |q| && q[i].Queued? && q[i].request.Translate? ==>
              Drain(s, latest, q[i..]) ==
              Then(Reply(TranslationComplete(Translation(s.modelLoaded, q[i].request.job))), Worker(s, q[i + 1..]))
    ensures i < |q| && q[i].Queued? && q[i].request.LoadModel? ==>
              Drain(s, latest, q[i..]) == Then(Reply(ModelLoaded(Ok(()))), Drain(Loaded(s), latest, q[i + 1..]))
    ensures i < |q| && q[i].Queued? && q[i].request.SetLanguages? ==>
              Drain(s, latest, q[i..]) ==
              Drain(WithLanguages(s, q[i].request.source, q[i].request.target), latest, q[i + 1..])
    ensures i < |q| && q[i] == Queued(Shutdown) ==> Drain(s, latest, q[i..]) == Silent()
  {
    if i < |q| {
      assert q[i..][0] == q[i];
      assert q[i..][1..] == q[i + 1..];
    }
  }

  /** What is left to do while draining, `done` being the trace so far:
      nothing after a Shutdown; after a final request, its translation and
      then the main loop; otherwise the rest of the drain from `i`. */
  ghost predicate Pending(s: Settings, channel: seq<Slot>, i: nat, latest: TranslationJob,
                          gotFinal: Option<TranslationJob>, stop: bool, done: WorkerTrace, total: WorkerTrace)
    requires i <= |channel|
  {
    if stop then gotFinal.None? && done == total
    else if gotFinal.Some? then
      Then(done, Then(Reply(TranslationComplete(Translation(s.modelLoaded, gotFinal.value))),
                      Worker(s, channel[i..]))) == total
    else
      Then(done, Drain(s, latest, channel[i..])) == total
  }

  /** One request taken by the `try_recv` loop: a newer partial replaces the
      pending job, a load is answered at once, a language change is applied,
      a final request (`gotFinal`) or a Shutdown (`stop`) ends the loop. */
  method DrainOne(service: TranslationService, channel: seq<Slot>, i: nat, latest: TranslationJob,
                  responses: seq<TranslationResponse>, partials: seq<string>, ghost total: WorkerTrace)
    returns (next: nat, responses': seq<TranslationResponse>, latest': TranslationJob,
             gotFinal: Option<TranslationJob>, stop: bool)
    requires i < |channel| && channel[i].Queued?
    requires Then(Trace(responses, partials), Drain(service.Current(), latest, channel[i..])) == total
    modifies service
    ensures next == i + 1
    ensures Pending(service.Current(), channel, next, latest', gotFinal, stop, Trace(responses', partials), total)
  {
    ghost var drained := Trace(responses, partials);
    ghost var s := service.Current();
    DrainAt(s, latest, channel, i);
    next, responses', latest', gotFinal, stop := i + 1, responses, latest, None, false;
    match channel[i].request {
      case TranslatePartial(newer) =>
        latest' := newer;
      case Translate(finalJob) =>
        gotFinal := Some(finalJob);
      case LoadModel(path) =>
        ghost var rest := Drain(Loaded(s), latest, channel[i + 1..]);
        var r := service.LoadModel(path);
        ThenAssoc(drained, Reply(ModelLoaded(r)), rest);
        ThenReply(drained, ModelLoaded(r));
        responses' := responses + [ModelLoaded(r)];
      case SetLanguages(source, target) =>
        service.SetLanguages(source, target);
      case Shutdown =>
        ThenSilent(drained);
        stop := true;
    }
  }

  /** The `try_recv` loop of the TranslatePartial arm: keeps the newest
      partial job, answers loads, applies language changes, and stops at an
      empty or closed queue, at a final request (`gotFinal`) or at Shutdown
      (`stop`). */
  method DrainQueue(service: TranslationService, channel: seq<Slot>, start: nat, job: TranslationJob,
                    responses: seq<TranslationResponse>, partials: seq<string>, ghost total: WorkerTrace)
    returns (responses': seq<TranslationResponse>, i: nat, latest: TranslationJob,
             gotFinal: Option<TranslationJob>, stop: bool)
    requires start <= |channel|
    requires Then(Trace(responses, partials), Drain(service.Current(), job, channel[start..])) == total
    modifies service
    ensures start <= i <= |channel|
    ensures stop || gotFinal.Some? || i == |channel| || channel[i].Empty?
    ensures Pending(service.Current(), channel, i, latest, gotFinal, stop, Trace(responses', partials), total)
  {
    responses', i, latest, gotFinal, stop := responses, start, job, None, false;
    while i < |channel| && channel[i].Queued? && !stop && gotFinal.None?
      invariant start <= i <= |channel|
      invariant Pending(service.Current(), channel, i, latest, gotFinal, stop, Trace(responses', partials), total)
      decreases |channel| - i
    {
      i, responses', latest, gotFinal, stop := DrainOne(service, channel, i, latest, responses', partials, total);
    }
  }

  /** The TranslatePartial arm of the worker loop: drain the queue, then
      translate the final job if one was found, or else the newest partial,
      forwarding its trimmed text only on success. `stop` reports a
      Shutdown, which ends the thread. */
  method ServePartial(service: TranslationService, channel: seq<Slot>, start: nat, job: TranslationJob,
                      responses: seq<TranslationResponse>, partials: seq<string>, ghost total: WorkerTrace)
    returns (responses': seq<TranslationResponse>, partials': seq<string>, i: nat, stop: bool)
    requires start <= |channel|
    requires Then(Trace(responses, partials), Drain(service.Current(), job, channel[start..])) == total
    modifies service
    ensures start <= i <= |channel|
    ensures stop ==> Trace(responses', partials') == total
    ensures !stop ==> Then(Trace(responses', partials'), Worker(service.Current(), channel[i..])) == total
  {
    var latest, gotFinal;
    responses', i, latest, gotFinal, stop := DrainQueue(service, channel, start, job, responses, partials, total);
    partials' := partials;
    if stop {
      return;
    }
    ghost var s := service.Current();
    ghost var before := Trace(responses', partials');
    ghost var rest := Worker(s, channel[i..]);
    if gotFinal.Some? {
      ghost var reply := Reply(TranslationComplete(Translation(s.modelLoaded, gotFinal.value)));
      assert Then(before, Then(reply, rest)) == total;
      var r := service.Translate(gotFinal.value);
      ThenAssoc(before, reply, rest);
      ThenReply(before, TranslationComplete(r));
      responses' := responses' + [TranslationComplete(r)];
      assert Then(Trace(responses', partials'), rest) == total;
    } else {
      ghost var output := PartialOutput(Translation(s.modelLoaded, latest));
      assert Then(before, Drain(s, latest, channel[i..])) == total;
      DrainAt(s, latest, channel, i);
      assert Then(before, Then(output, rest)) == total;
      var r := service.Translate(latest);
      ThenAssoc(before, output, rest);
      ThenPartial(before, r);
      if r.Ok? {
        partials' := partials' + [Trim(r.value)];
      }
      assert Then(Trace(responses', partials'), rest) == total;
    }
  }

  /** spawn_translation_thread's loop over the request channel. */
  method RunTranslationWorker(channel: seq<Slot>) returns (responses: seq<TranslationResponse>, partials: seq<string>)
    ensures Trace(responses, partials) == Worker(Settings(Some("en"), "en", false), channel)
  {
    var service := new TranslationService();
    ghost var total := Worker(service.Current(), channel);
    responses, partials := [], [];
    var i := 0;
    assert channel[0..] == channel;
    ThenAssoc(Silent(), Silent(), total);
    while i < |channel|
      invariant 0 <= i <= |channel|
      invariant Then(Trace(responses, partials), Worker(service.Current(), channel[i..])) == total
      decreases |channel| - i
    {
      ghost var done := Trace(responses, partials);
      ghost var s := service.Current();
      WorkerAt(s, channel, i);
      var slot := channel[i];
      i := i + 1;
      if slot.Empty? {
        continue;
      }
      match slot.request {
        case LoadModel(path) =>
          ghost var rest := Worker(Loaded(s), channel[i..]);
          var r := service.LoadModel(path);
          ThenAssoc(done, Reply(ModelLoaded(r)), rest);
          ThenReply(done, ModelLoaded(r));
          responses := responses + [ModelLoaded(r)];
        case SetLanguages(source, target) =>
          service.SetLanguages(source, target);
        case Translate(job) =>
          var r := service.Translate(job);
          ghost var rest := Worker(s, channel[i..]);
          assert Worker(s, channel[i - 1..]) == Then(Reply(TranslationComplete(r)), rest);
          ThenAssoc(done, Reply(TranslationComplete(r)), rest);
          ThenReply(done, TranslationComplete(r));
          responses := responses + [TranslationComplete(r)];
        case TranslatePartial(job) =>
          assert Then(done, Drain(s, job, channel[i..])) == total;
          var stop;
          responses, partials, i, stop := ServePartial(service, channel, i, job, responses, partials, total);
          if stop {
            return;
          }
        case Shutdown =>
          ThenSilent(done);
          return;
      }
    }
    assert channel[i..] == [];
    ThenSilent(Trace(responses, partials));
  }
}
