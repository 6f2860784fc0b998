/** The dictation orchestrator (src-tauri/src/lib.rs): the hotkey, cancel,
    the handling of a transcription result, the four preview commands and
    language and model selection, each a transition of the shared
    `AppState` plus what it sends to the two workers, adds to the history
    and hands to the paste routine.

    What the operating system, the audio device, the workers and the
    configuration file answer is passed in: the accessibility check, the
    capture's start and the audio it stops with, the worker replies (`None`
    when `recv_timeout` gives up), the paste and config-save outcomes, the
    vocabulary list and the clock. Event emission and the overlay window
    are not modelled. */
module Orchestrator {
  import opened Wrappers
  import opened Text
  import opened Files
  import opened State
  import Vocabulary
  import History
  import Whisper
  import TranslationEngine
  import TranscriptionModels

  const AccessibilityMessage := "Accessibility access needed — check System Settings > Privacy > Accessibility"
  const MicrophoneMessage := "Microphone access needed — check System Settings > Privacy > Microphone"
  const TranscriptionTimedOut := "Transcription timed out — try again"
  const ModelLoadTimedOut := "Model loading timed out — try again"

  /** One call of `paste_text`: the text and the smart-paste flag. */
  datatype PasteCall = PasteCall(text: string, smartPaste: bool)

  /** Everything the orchestrator's handlers write: the shared state, whether
      an audio capture is held in `ActiveCapture`, the requests sent to the
      transcription and translation threads, the languages handed to the
      transcription thread's `SetLanguage` request, the history list, the
      paste calls, and the texts given to `history::update_most_recent_text`.
      The last two requests are not defined in the transcription worker or
      the history module, so they are only recorded. */
  datatype World = World(
    app: AppState,
    capturing: bool,
    toWhisper: seq<Whisper.TranscriptionRequest>,
    languageHints: seq<Option<string>>,
    toTranslator: seq<TranslationEngine.TranslationRequest>,
    history: seq<History.HistoryEntry>,
    pasted: seq<PasteCall>,
    rewrites: seq<string>)

  /** The persisted settings `run` builds the shared state from. */
  datatype Config = Config(
    selectedModel: string,
    smartPaste: bool,
    vocabEnabled: bool,
    language: string,
    translationEnabled: bool,
    translationTargetLang: string,
    translationModel: string)

  function WithState(w: World, d: DictationState): World
  {
    w.(app := w.app.(dictationState := d))
  }

  /** The shared state and managed state `run` starts with. */
  function Startup(c: Config): World
  {
    World(AppState(Idle, None, c.selectedModel, c.smartPaste, c.language, c.vocabEnabled,
                   c.translationEnabled, c.translationTargetLang, c.translationModel,
                   None, None, None, None),
          false, [], [], [], [], [], [])
  }

  // ------------------------------------------------------------ invariant

  /** A preview on screen shows exactly the pending texts it will resolve. */
  predicate PreviewsMatch(s: AppState)
  {
    (s.dictationState.CorrectionPreview? ==>
       s.pendingCorrectedText == Some(s.dictationState.text) &&
       s.pendingOriginalText == Some(s.dictationState.originalText)) &&
    (s.dictationState.TranslationPreview? ==>
       s.pendingSourceText == Some(s.dictationState.sourceText) &&
       s.pendingTranslatedText == Some(s.dictationState.translatedText))
  }

  /** What every handler keeps: the pending texts come in pairs, previews
      match them, and a Recording state holds an active capture. */
  predicate Consistent(w: World)
  {
    PendingPaired(w.app) && PreviewsMatch(w.app) &&
    (w.app.dictationState.Recording? ==> w.capturing)
  }

  // ------------------------------------------------------------ languages

  /** `source_language_for_translation`: both of its branches give back the
      setting itself, "auto" included. */
  function SourceLanguageForTranslation(language: string): (r: string)
    ensures r == language
  {
    if language == "auto" then "auto" else language
  }

  /** The language handed to the transcription thread: none for "auto". */
  function WhisperLanguage(language: string): Option<string>
  {
    if language == "auto" then None else Some(language)
  }

  /** `sync_translation_languages`: the request it sends for a state. */
  function TranslatorLanguages(s: AppState): TranslationEngine.TranslationRequest
  {
    TranslationEngine.SetLanguages(WhisperLanguage(s.language), s.translationTargetLang)
  }

  // ------------------------------------------------------------ the hotkey

  /** The states in which the hotkey is ignored. */
  predicate Busy(d: DictationState)
  {
    d.Processing? || d.Translating? || d.Downloading? || d.CorrectionPreview? || d.TranslationPreview?
  }

  /** The outcome of `toggle_recording`: the new world, and the recording's
      duration when a transcription was requested (the result handler's
      thread then waits for the reply). */
  datatype Toggled = Toggled(world: World, awaiting: Option<nat>)

  /** `toggle_recording`. `accessible` is the accessibility check, `capture`
      the outcome of creating and starting the capture, `audio` what
      `stop_recording` returns. */
  function Hotkey(w: World, accessible: bool, capture: Outcome, audio: seq<Whisper.Sample>): Toggled
  {
    match w.app.dictationState
    case Idle =>
      if !accessible then Toggled(WithState(w, Error(AccessibilityMessage)), None)
      else if capture.Fail? then Toggled(WithState(w, Error(MicrophoneMessage)), None)
      else
        var recording := Recording(0, None, None, SourceLanguageForTranslation(w.app.language),
                                   w.app.translationTargetLang);
        Toggled(WithState(w, recording).(capturing := true), None)
    case Recording(durationMs, _, _, _, _) =>
      var recorded := if w.capturing then audio else [];
      var stopped := w.(capturing := false);
      if recorded == [] then Toggled(WithState(stopped, Idle), None)
      else Toggled(WithState(stopped, Processing).(toWhisper := w.toWhisper + [Whisper.Transcribe(recorded)]),
                   Some(durationMs))
    case Error(_) => Toggled(WithState(w, Idle), None)
    case _ => Toggled(w, None)
  }

  /** `cancel_recording`. */
  function Cancel(w: World): World
  {
    match w.app.dictationState
    case Recording(_, _, _, _, _) => WithState(w.(capturing := false), Idle)
    case Error(_) => WithState(w, Idle)
    case _ => w
  }

  /** The duration tracker's update after `elapsedMs` of recording. */
  function Tick(w: World, elapsedMs: nat): World
  {
    match w.app.dictationState
    case Recording(_, partialText, partialTranslation, sourceLang, targetLang) =>
      WithState(w, Recording(elapsedMs, partialText, partialTranslation, sourceLang, targetLang))
    case _ => w
  }

  // ------------------------------------------------------------ transcription results

  /** Hands `text` to `paste_text`, then Idle, or Error when pasting fails. */
  function PasteThen(w: World, text: string, paste: Outcome): World
  {
    var w' := w.(pasted := w.pasted + [PasteCall(text, w.app.smartPaste)]);
    match paste
    case Pass => WithState(w', Idle)
    case Fail(e) => WithState(w', Error("Failed to paste: " + e))
  }

  /** The vocabulary's corrections of a transcript, when enabled and when
      they change something. */
  function Corrections(vocabEnabled: bool, trimmed: string, vocab: seq<Vocabulary.VocabEntry>)
    : Option<Vocabulary.CorrectionResult>
  {
    if !vocabEnabled then None
    else
      var r := Vocabulary.Corrected(trimmed, vocab);
      if r.corrections == [] then None else Some(r)
  }

  /** The text of a transcript after the vocabulary, if it changed it. */
  function SourceText(trimmed: string, correction: Option<Vocabulary.CorrectionResult>): string
  {
    match correction
    case Some(r) => r.text
    case None => trimmed
  }

  /** The translation branch: Translating, one request, then the preview,
      or pasting the untranslated text when the reply fails or never comes. */
  function Translated(w: World, source: string, reply: Option<TranslationEngine.TranslationResponse>,
                      paste: Outcome): World
  {
    var sourceLang := SourceLanguageForTranslation(w.app.language);
    var targetLang := w.app.translationTargetLang;
    var job := TranslationEngine.TranslationJob(source, sourceLang, targetLang);
    var w' := WithState(w, Translating).(toTranslator := w.toTranslator + [TranslationEngine.Translate(job)]);
    match reply
    case Some(TranslationComplete(Ok(t))) =>
      var translated := if Trim(t) == [] then source else Trim(t);
      w'.(app := w'.app.(pendingSourceText := Some(source), pendingTranslatedText := Some(translated),
                         dictationState := TranslationPreview(source, translated, sourceLang, targetLang)))
    case _ => PasteThen(w', source, paste)
  }

  /** A non-blank transcript: into the history, then translation, a
      correction preview, or pasting straight away. */
  function Dictated(w: World, trimmed: string, durationMs: nat, vocab: seq<Vocabulary.VocabEntry>, nowMs: nat,
                    reply: Option<TranslationEngine.TranslationResponse>, paste: Outcome): World
  {
    var correction := Corrections(w.app.vocabEnabled, trimmed, vocab);
    var source := SourceText(trimmed, correction);
    var w' := w.(history := History.Added(w.history, History.HistoryEntry(nowMs, source, nowMs, durationMs)));
    if w.app.translationEnabled then Translated(w', source, reply, paste)
    else match correction
      case Some(r) =>
        w'.(app := w'.app.(pendingOriginalText := Some(trimmed), pendingCorrectedText := Some(r.text),
                           dictationState := CorrectionPreview(r.text, trimmed, r.corrections)))
      case None => PasteThen(w', source, paste)
  }

  /** The thread `toggle_recording` spawns to wait for the transcription:
      `reply` is the transcription thread's answer, `translation` the
      translation thread's. */
  function Transcribed(w: World, durationMs: nat, reply: Option<Whisper.TranscriptionResponse>,
                       vocab: seq<Vocabulary.VocabEntry>, nowMs: nat,
                       translation: Option<TranslationEngine.TranslationResponse>, paste: Outcome): World
  {
    match reply
    case None => WithState(w, Error(TranscriptionTimedOut))
    case Some(ModelLoaded(_)) => w
    case Some(TranscriptionComplete(Err(e))) => WithState(w, Error("Transcription failed: " + e))
    case Some(TranscriptionComplete(Ok(text))) =>
      if Trim(text) == [] then WithState(w, Idle)
      else Dictated(w, Trim(text), durationMs, vocab, nowMs, translation, paste)
  }

  // ------------------------------------------------------------ preview commands

  /** A command's outcome: the new world and what it returns. */
  datatype Answered = Answered(world: World, result: Result<()>)

  /** `accept_corrections`: paste the corrected text. */
  function CorrectionsAccepted(w: World, paste: Outcome): Answered
  {
    match w.app.pendingCorrectedText
    case None => Answered(w, Err("No pending corrections to accept"))
    case Some(text) =>
      var cleared := w.(app := w.app.(pendingCorrectedText := None, pendingOriginalText := None));
      Answered(PasteThen(cleared, text, paste), Ok(()))
  }

  /** `undo_corrections`: paste the transcript as heard. */
  function CorrectionsUndone(w: World, paste: Outcome): Answered
  {
    match w.app.pendingOriginalText
    case None => Answered(w, Err("No pending corrections to undo"))
    case Some(text) =>
      var cleared := w.(app := w.app.(pendingOriginalText := None, pendingCorrectedText := None),
                        rewrites := w.rewrites + [text]);
      Answered(PasteThen(cleared, text, paste), Ok(()))
  }

  /** `accept_translation`: paste the translation. */
  function TranslationAccepted(w: World, paste: Outcome): Answered
  {
    match w.app.pendingTranslatedText
    case None => Answered(w, Err("No pending translation to accept"))
    case Some(text) =>
      var cleared := w.(app := w.app.(pendingTranslatedText := None, pendingSourceText := None),
                        rewrites := w.rewrites + [text]);
      Answered(PasteThen(cleared, text, paste), Ok(()))
  }

  /** `reject_translation`: paste the untranslated text. */
  function TranslationRejected(w: World, paste: Outcome): Answered
  {
    match w.app.pendingSourceText
    case None => Answered(w, Err("No pending translation to reject"))
    case Some(text) =>
      var cleared := w.(app := w.app.(pendingSourceText := None, pendingTranslatedText := None));
      Answered(PasteThen(cleared, text, paste), Ok(()))
  }

  // ------------------------------------------------------------ models

  /** `load_model`: one LoadModel request, then the reply decides. */
  function Loaded(w: World, path: string, reply: Option<Whisper.TranscriptionResponse>): World
  {
    var w' := w.(toWhisper := w.toWhisper + [Whisper.LoadModel(path)]);
    match reply
    case Some(ModelLoaded(Ok(_))) => w'.(app := w'.app.(modelPath := Some(path), dictationState := Idle))
    case Some(ModelLoaded(Err(e))) => WithState(w', Error("Failed to load model: " + e))
    case None => WithState(w', Error(ModelLoadTimedOut))
    case Some(TranscriptionComplete(_)) => w'
  }

  /** The directories and files of the file system. */
  datatype Disk = Disk(dirs: set<string>, files: map<string, nat>)

  /** Where `setup_model` finds the selected model: on disk already, or
      what downloading it gives (the path or the download's error). */
  datatype Located = Located(installed: bool, path: Result<string>)

  /** `model_exists`, then `model_path` or `download_model` as written,
      over the files present. */
  function Locate(disk: Disk, dataDir: string, name: string, server: string -> Result<Response>): Located
  {
    match TranscriptionModels.FindModel(name)
    case Some(m) =>
      var path := Join(TranscriptionModels.ModelsDir(dataDir), m.filename);
      if PathExists(disk.dirs, disk.files, path) then Located(true, Ok(path))
      else Located(false, TranscriptionModels.Download(disk.files, dataDir, name, server).result)
    case None => Located(false, TranscriptionModels.Download(disk.files, dataDir, name, server).result)
  }

  /** The directories and files after `setup_model` has found or fetched
      the model `name`. */
  function SetUpDisk(disk: Disk, dataDir: string, name: string, server: string -> Result<Response>): Disk
  {
    if Locate(disk, dataDir, name, server).installed then disk
    else
      var made := if TranscriptionModels.FindModel(name).Some? then {TranscriptionModels.ModelsDir(dataDir)} else {};
      Disk(disk.dirs + made, TranscriptionModels.Download(disk.files, dataDir, name, server).files)
  }

  /** `setup_model`: Downloading while a missing model is fetched, then
      loading it, or Error when the download fails. */
  function SetUp(w: World, located: Located, reply: Option<Whisper.TranscriptionResponse>): World
  {
    var w' := if located.installed then w else WithState(w, Downloading(0.0));
    match located.path
    case Ok(path) => Loaded(w', path, reply)
    case Err(e) => WithState(w', Error("Model download failed: " + e))
  }

  /** `select_model`: only catalogued names; the selection is kept even when
      saving the configuration fails, but the model is then not set up. */
  function ModelSelected(w: World, name: string, save: Outcome, located: Located,
                       reply: Option<Whisper.TranscriptionResponse>): Answered
  {
    if TranscriptionModels.FindModel(name).None? then Answered(w, Err("Unknown model: " + name))
    else
      var w' := w.(app := w.app.(selectedModel := name));
      match save
      case Fail(e) => Answered(w', Err("Failed to save config: " + e))
      case Pass => Answered(SetUp(w', located, reply), Ok(()))
  }

  /** Whether `set_language` must switch between an English-only and a
      multilingual model. */
  function NeedsModelSwitch(current: string, language: string): bool
  {
    var isEnglish := TranscriptionModels.IsEnglishOnly(current);
    var needsMultilingual := language != "en";
    (needsMultilingual && isEnglish) || (!needsMultilingual && !isEnglish)
  }

  /** The model `set_language` settles on. */
  function NewModel(current: string, language: string): string
  {
    if !NeedsModelSwitch(current, language) then current
    else if language != "en" then
      match TranscriptionModels.MultilingualEquivalent(current)
      case Some(m) => m
      case None => "base"
    else
      match TranscriptionModels.EnglishEquivalent(current)
      case Some(m) => m
      case None => "base.en"
  }

  /** A Recording state with its source language replaced. */
  function Relabelled(d: DictationState, language: string): DictationState
  {
    match d
    case Recording(durationMs, partialText, partialTranslation, _, targetLang) =>
      Recording(durationMs, partialText, partialTranslation, SourceLanguageForTranslation(language), targetLang)
    case _ => d
  }

  /** `set_language`: `save` is saving the language, `saveModel`,
      `located` and `reply` are for the model switch, if one is needed. */
  function LanguageSet(w: World, language: string, save: Outcome, saveModel: Outcome, located: Located,
                       reply: Option<Whisper.TranscriptionResponse>): Answered
  {
    var app' := w.app.(language := language, dictationState := Relabelled(w.app.dictationState, language));
    var w' := w.(app := app');
    match save
    case Fail(e) => Answered(w', Err("Failed to save config: " + e))
    case Pass =>
      var sent := w'.(languageHints := w'.languageHints + [WhisperLanguage(language)],
                      toTranslator := w'.toTranslator + [TranslatorLanguages(app')]);
      if NeedsModelSwitch(w.app.selectedModel, language) then
        ModelSelected(sent, NewModel(w.app.selectedModel, language), saveModel, located, reply)
      else Answered(sent, Ok(()))
  }

  /** The launch steps of `run`'s setup hook: a missing accessibility
      permission puts up its Error, the language goes to the transcription
      thread and the languages to the translation thread, and then the
      selected model is set up as `setup_model` does, with no catalog check
      beforehand. The hook runs the setup on its own thread; here it comes
      after the other steps. */
  function Launched(w: World, accessible: bool, located: Located, reply: Option<Whisper.TranscriptionResponse>): World
  {
    var checked := if accessible then w else WithState(w, Error(AccessibilityMessage));
    var sent := checked.(languageHints := checked.languageHints + [WhisperLanguage(w.app.language)],
                         toTranslator := checked.toTranslator + [TranslatorLanguages(checked.app)]);
    SetUp(sent, located, reply)
  }

  // ------------------------------------------------------------ runs

  /** Everything that can happen to the orchestrator, with what the outside
      world answers. */
  datatype Event =
    | HotkeyPressed(accessible: bool, capture: Outcome, audio: seq<Whisper.Sample>)
    | CancelPressed
    | DurationTick(elapsedMs: nat)
    | TranscriptionDone(durationMs: nat, reply: Option<Whisper.TranscriptionResponse>,
                        vocab: seq<Vocabulary.VocabEntry>, nowMs: nat,
                        translation: Option<TranslationEngine.TranslationResponse>, paste: Outcome)
    | AcceptCorrectionsCommand(paste: Outcome)
    | UndoCorrectionsCommand(paste: Outcome)
    | AcceptTranslationCommand(paste: Outcome)
    | RejectTranslationCommand(paste: Outcome)
    | LanguageCommand(language: string, save: Outcome, saveModel: Outcome, located: Located,
                      reply: Option<Whisper.TranscriptionResponse>)
    | ModelCommand(name: string, save: Outcome, located: Located, reply: Option<Whisper.TranscriptionResponse>)
    | Launch(accessible: bool, located: Located, reply: Option<Whisper.TranscriptionResponse>)

  function Step(w: World, e: Event): World
  {
    match e
    case HotkeyPressed(accessible, capture, audio) => Hotkey(w, accessible, capture, audio).world
    case CancelPressed => Cancel(w)
    case DurationTick(elapsedMs) => Tick(w, elapsedMs)
    case TranscriptionDone(durationMs, reply, vocab, nowMs, translation, paste) =>
      Transcribed(w, durationMs, reply, vocab, nowMs, translation, paste)
    case AcceptCorrectionsCommand(paste) => CorrectionsAccepted(w, paste).world
    case UndoCorrectionsCommand(paste) => CorrectionsUndone(w, paste).world
    case AcceptTranslationCommand(paste) => TranslationAccepted(w, paste).world
    case RejectTranslationCommand(paste) => TranslationRejected(w, paste).world
    case LanguageCommand(language, save, saveModel, located, reply) =>
      LanguageSet(w, language, save, saveModel, located, reply).world
    case ModelCommand(name, save, located, reply) => ModelSelected(w, name, save, located, reply).world
    case Launch(accessible, located, reply) => Launched(w, accessible, located, reply)
  }

  function Run(w: World, events: seq<Event>): World
    decreases |events|
  {
    if events == [] then w else Run(Step(w, events[0]), events[1..])
  }

  // ------------------------------------------------------------ properties

  /** From Idle the hotkey checks accessibility first, then the capture;
      only when both succeed does it record, with no duration, no partial
      texts, and the settings' languages. Nothing is sent to a worker. */
  lemma HotkeyFromIdle(w: World, accessible: bool, capture: Outcome, audio: seq<Whisper.Sample>)
    requires w.app.dictationState == Idle
    ensures var t := Hotkey(w, accessible, capture, audio);
            t.awaiting == None && t.world.toWhisper == w.toWhisper && t.world.toTranslator == w.toTranslator &&
            (!accessible ==> t.world == WithState(w, Error(AccessibilityMessage))) &&
            (accessible && capture.Fail? ==> t.world == WithState(w, Error(MicrophoneMessage))) &&
            (accessible && capture.Pass? ==>
               t.world.capturing &&
               t.world.app == w.app.(dictationState := Recording(0, None, None, w.app.language, w.app.translationTargetLang)))
  {
  }

  /** Stopping a recording releases the capture; empty audio goes back to
      Idle with nothing sent, and otherwise exactly one Transcribe carrying
      the audio is sent and the state is Processing. */
  lemma HotkeyStopsRecording(w: World, accessible: bool, capture: Outcome, audio: seq<Whisper.Sample>)
    requires Consistent(w) && w.app.dictationState.Recording?
    ensures var t := Hotkey(w, accessible, capture, audio);
            !t.world.capturing &&
            (audio == [] ==> t.world == WithState(w.(capturing := false), Idle) && t.awaiting == None) &&
            (audio != [] ==>
               t.world == WithState(w.(capturing := false), Processing).(toWhisper := w.toWhisper + [Whisper.Transcribe(audio)]) &&
               t.awaiting == Some(w.app.dictationState.durationMs))
  {
  }

  /** The hotkey is ignored while busy or previewing, and dismisses an error. */
  lemma HotkeyIgnoredWhenBusy(w: World, accessible: bool, capture: Outcome, audio: seq<Whisper.Sample>)
    ensures Busy(w.app.dictationState) ==> Hotkey(w, accessible, capture, audio) == Toggled(w, None)
    ensures w.app.dictationState.Error? ==> Hotkey(w, accessible, capture, audio) == Toggled(WithState(w, Idle), None)
  {
  }

  /** Cancel stops a recording without sending anything, dismisses an
      error, and leaves every other state alone. */
  lemma CancelMeaning(w: World)
    ensures w.app.dictationState.Recording? ==>
              Cancel(w).app == w.app.(dictationState := Idle) && !Cancel(w).capturing &&
              Cancel(w).(capturing := w.capturing, app := w.app) == w
    ensures w.app.dictationState.Error? ==> Cancel(w) == WithState(w, Idle)
    ensures !w.app.dictationState.Recording? && !w.app.dictationState.Error? ==> Cancel(w) == w
  {
  }

  /** The duration tick replaces a recording's duration and nothing else. */
  lemma TickMeaning(w: World, elapsedMs: nat)
    ensures w.app.dictationState.Recording? ==>
              Tick(w, elapsedMs) == WithState(w, w.app.dictationState.(durationMs := elapsedMs))
    ensures !w.app.dictationState.Recording? ==> Tick(w, elapsedMs) == w
  {
  }

  /** A transcript that is blank once trimmed, a failed transcription and
      a timeout add no history entry and paste nothing. */
  lemma TranscriptionWithoutText(w: World, durationMs: nat, reply: Option<Whisper.TranscriptionResponse>,
                                 vocab: seq<Vocabulary.VocabEntry>, nowMs: nat,
                                 translation: Option<TranslationEngine.TranslationResponse>, paste: Outcome)
    ensures var r := Transcribed(w, durationMs, reply, vocab, nowMs, translation, paste);
            (reply == None ==> r == WithState(w, Error(TranscriptionTimedOut))) &&
            (reply.Some? && reply.value.TranscriptionComplete? && reply.value.text.Err? ==>
               r == WithState(w, Error("Transcription failed: " + reply.value.text.error))) &&
            (reply.Some? && reply.value.TranscriptionComplete? && reply.value.text.Ok? && IsBlank(reply.value.text.value) ==>
               r == WithState(w, Idle))
  {
    if reply.Some? && reply.value.TranscriptionComplete? && reply.value.text.Ok? && IsBlank(reply.value.text.value) {
      TrimEmptyIffBlank(reply.value.text.value);
    }
  }

  /** A non-blank transcript is recorded once, newest first, under the
      clock reading and with the recording's duration; its text is the
      corrected one when the vocabulary changed it. At most one paste is
      made, nothing goes to the transcription thread, and exactly one job
      goes to the translation thread when translation is on. */
  lemma TranscriptRecorded(w: World, durationMs: nat, text: string, vocab: seq<Vocabulary.VocabEntry>, nowMs: nat,
                           translation: Option<TranslationEngine.TranslationResponse>, paste: Outcome)
    requires Trim(text) != []
    ensures var r := Transcribed(w, durationMs, Some(Whisper.TranscriptionComplete(Ok(text))), vocab, nowMs, translation, paste);
            var source := SourceText(Trim(text), Corrections(w.app.vocabEnabled, Trim(text), vocab));
            r.history == History.Added(w.history, History.HistoryEntry(nowMs, source, nowMs, durationMs)) &&
            r.toWhisper == w.toWhisper &&
            r.toTranslator ==
              (if w.app.translationEnabled
               then w.toTranslator + [TranslationEngine.Translate(TranslationEngine.TranslationJob(source, w.app.language, w.app.translationTargetLang))]
               else w.toTranslator) &&
            (r.pasted == w.pasted || r.pasted == w.pasted + [PasteCall(source, w.app.smartPaste)])
  {
    DictatedEffects(w, Trim(text), durationMs, vocab, nowMs, translation, paste);
  }

  lemma DictatedEffects(w: World, trimmed: string, durationMs: nat, vocab: seq<Vocabulary.VocabEntry>, nowMs: nat,
                        translation: Option<TranslationEngine.TranslationResponse>, paste: Outcome)
    ensures var r := Dictated(w, trimmed, durationMs, vocab, nowMs, translation, paste);
            var source := SourceText(trimmed, Corrections(w.app.vocabEnabled, trimmed, vocab));
            r.history == History.Added(w.history, History.HistoryEntry(nowMs, source, nowMs, durationMs)) &&
            r.toWhisper == w.toWhisper &&
            r.toTranslator ==
              (if w.app.translationEnabled
               then w.toTranslator + [TranslationEngine.Translate(TranslationEngine.TranslationJob(source, w.app.language, w.app.translationTargetLang))]
               else w.toTranslator) &&
            (r.pasted == w.pasted || r.pasted == w.pasted + [PasteCall(source, w.app.smartPaste)])
  {
    var correction := Corrections(w.app.vocabEnabled, trimmed, vocab);
    var source := SourceText(trimmed, correction);
    var w' := w.(history := History.Added(w.history, History.HistoryEntry(nowMs, source, nowMs, durationMs)));
    var r := Dictated(w, trimmed, durationMs, vocab, nowMs, translation, paste);
    if w.app.translationEnabled {
      assert r == Translated(w', source, translation, paste);
    } else if correction.Some? {
      assert r.history == w'.history && r.pasted == w.pasted;
    } else {
      assert r == PasteThen(w', source, paste);
    }
  }

  /** With translation off, corrections are shown for review and not
      pasted: the preview and the pending pair hold the corrected text and
      the transcript as heard. */
  lemma CorrectionPreviewShown(w: World, durationMs: nat, text: string, vocab: seq<Vocabulary.VocabEntry>, nowMs: nat,
                               translation: Option<TranslationEngine.TranslationResponse>, paste: Outcome)
    requires Trim(text) != [] && w.app.vocabEnabled && !w.app.translationEnabled
    requires Vocabulary.Corrected(Trim(text), vocab).corrections != []
    ensures var r := Transcribed(w, durationMs, Some(Whisper.TranscriptionComplete(Ok(text))), vocab, nowMs, translation, paste);
            var fixed := Vocabulary.Corrected(Trim(text), vocab);
            r.app.dictationState == CorrectionPreview(fixed.text, Trim(text), fixed.corrections) &&
            r.app.pendingOriginalText == Some(Trim(text)) && r.app.pendingCorrectedText == Some(fixed.text) &&
            r.pasted == w.pasted
  {
  }

  /** With translation on and a translation back, the preview shows the
      text and its translation (the text itself when the translation is
      blank) and nothing is pasted; any other reply, or none, pastes the
      untranslated text. */
  lemma TranslationPreviewShown(w: World, durationMs: nat, text: string, vocab: seq<Vocabulary.VocabEntry>, nowMs: nat,
                                translation: Option<TranslationEngine.TranslationResponse>, paste: Outcome)
    requires Trim(text) != [] && w.app.translationEnabled
    ensures var r := Transcribed(w, durationMs, Some(Whisper.TranscriptionComplete(Ok(text))), vocab, nowMs, translation, paste);
            var source := SourceText(Trim(text), Corrections(w.app.vocabEnabled, Trim(text), vocab));
            (translation.Some? && translation.value.TranslationComplete? && translation.value.text.Ok? ==>
               var t := Trim(translation.value.text.value);
               var shown := if t == [] then source else t;
               r.app.dictationState == TranslationPreview(source, shown, w.app.language, w.app.translationTargetLang) &&
               r.app.pendingSourceText == Some(source) && r.app.pendingTranslatedText == Some(shown) &&
               r.app.pendingOriginalText == w.app.pendingOriginalText &&
               r.pasted == w.pasted) &&
            (!(translation.Some? && translation.value.TranslationComplete? && translation.value.text.Ok?) ==>
               r.pasted == w.pasted + [PasteCall(source, w.app.smartPaste)] &&
               r.app.pendingSourceText == w.app.pendingSourceText)
  {
    var source := SourceText(Trim(text), Corrections(w.app.vocabEnabled, Trim(text), vocab));
    var w' := w.(history := History.Added(w.history, History.HistoryEntry(nowMs, source, nowMs, durationMs)));
    assert Transcribed(w, durationMs, Some(Whisper.TranscriptionComplete(Ok(text))), vocab, nowMs, translation, paste) ==
           Translated(w', source, translation, paste);
    TranslatedMeaning(w', source, translation, paste);
  }

  lemma TranslatedMeaning(w: World, source: string, reply: Option<TranslationEngine.TranslationResponse>, paste: Outcome)
    ensures var r := Translated(w, source, reply, paste);
            (reply.Some? && reply.value.TranslationComplete? && reply.value.text.Ok? ==>
               var t := Trim(reply.value.text.value);
               var shown := if t == [] then source else t;
               r.app.dictationState == TranslationPreview(source, shown, w.app.language, w.app.translationTargetLang) &&
               r.app.pendingSourceText == Some(source) && r.app.pendingTranslatedText == Some(shown) &&
               r.app.pendingOriginalText == w.app.pendingOriginalText &&
               r.pasted == w.pasted) &&
            (!(reply.Some? && reply.value.TranslationComplete? && reply.value.text.Ok?) ==>
               r.pasted == w.pasted + [PasteCall(source, w.app.smartPaste)] &&
               r.app.pendingSourceText == w.app.pendingSourceText)
  {
  }

  /** Each preview command fails with its own message and changes nothing
      when its pending text is missing. */
  lemma CommandsWithoutPending(w: World, paste: Outcome)
    ensures w.app.pendingCorrectedText == None ==>
              CorrectionsAccepted(w, paste) == Answered(w, Err("No pending corrections to accept"))
    ensures w.app.pendingOriginalText == None ==>
              CorrectionsUndone(w, paste) == Answered(w, Err("No pending corrections to undo"))
    ensures w.app.pendingTranslatedText == None ==>
              TranslationAccepted(w, paste) == Answered(w, Err("No pending translation to accept"))
    ensures w.app.pendingSourceText == None ==>
              TranslationRejected(w, paste) == Answered(w, Err("No pending translation to reject"))
  {
  }

  /** With the corrected text pending, accepting pastes it, clears both
      texts of the pair and ends Idle, or Error when pasting fails. */
  lemma AcceptCorrectionsResolves(w: World, paste: Outcome)
    requires w.app.pendingCorrectedText.Some?
    ensures var a := CorrectionsAccepted(w, paste);
            a.result.Ok? && a.world.app.pendingCorrectedText == None && a.world.app.pendingOriginalText == None &&
            a.world.pasted == w.pasted + [PasteCall(w.app.pendingCorrectedText.value, w.app.smartPaste)] &&
            a.world.rewrites == w.rewrites && Resolved(a.world, paste)
  {
  }

  /** Undoing pastes the transcript as heard, clears the pair and hands
      that text to the history rewrite. */
  lemma UndoCorrectionsResolves(w: World, paste: Outcome)
    requires w.app.pendingOriginalText.Some?
    ensures var a := CorrectionsUndone(w, paste);
            a.result.Ok? && a.world.app.pendingCorrectedText == None && a.world.app.pendingOriginalText == None &&
            a.world.pasted == w.pasted + [PasteCall(w.app.pendingOriginalText.value, w.app.smartPaste)] &&
            a.world.rewrites == w.rewrites + [w.app.pendingOriginalText.value] && Resolved(a.world, paste)
  {
  }

  /** Accepting a translation pastes it, clears the pair and hands the
      translation to the history rewrite. */
  lemma AcceptTranslationResolves(w: World, paste: Outcome)
    requires w.app.pendingTranslatedText.Some?
    ensures var a := TranslationAccepted(w, paste);
            a.result.Ok? && a.world.app.pendingSourceText == None && a.world.app.pendingTranslatedText == None &&
            a.world.pasted == w.pasted + [PasteCall(w.app.pendingTranslatedText.value, w.app.smartPaste)] &&
            a.world.rewrites == w.rewrites + [w.app.pendingTranslatedText.value] && Resolved(a.world, paste)
  {
  }

  /** Rejecting a translation pastes the untranslated text and clears the
      pair; the history already holds that text. */
  lemma RejectTranslationResolves(w: World, paste: Outcome)
    requires w.app.pendingSourceText.Some?
    ensures var a := TranslationRejected(w, paste);
            a.result.Ok? && a.world.app.pendingSourceText == None && a.world.app.pendingTranslatedText == None &&
            a.world.pasted == w.pasted + [PasteCall(w.app.pendingSourceText.value, w.app.smartPaste)] &&
            a.world.rewrites == w.rewrites && Resolved(a.world, paste)
  {
  }

  /** The state a paste leaves: Idle, or the paste's error. */
  predicate Resolved(w: World, paste: Outcome)
  {
    w.app.dictationState == (if paste.Pass? then Idle else Error("Failed to paste: " + paste.error))
  }

  /** `load_model` sends exactly one LoadModel for the path; only a
      successful reply records the path, and only then is the state Idle. */
  lemma LoadMeaning(w: World, path: string, reply: Option<Whisper.TranscriptionResponse>)
    ensures Loaded(w, path, reply).toWhisper == w.toWhisper + [Whisper.LoadModel(path)]
    ensures reply.Some? && reply.value.ModelLoaded? && reply.value.loaded.Ok? ==>
              Loaded(w, path, reply).app == w.app.(modelPath := Some(path), dictationState := Idle)
    ensures !(reply.Some? && reply.value.ModelLoaded? && reply.value.loaded.Ok?) ==>
              Loaded(w, path, reply).app.modelPath == w.app.modelPath
    ensures reply.Some? && reply.value.ModelLoaded? && reply.value.loaded.Err? ==>
              Loaded(w, path, reply).app.dictationState == Error("Failed to load model: " + reply.value.loaded.error)
    ensures reply == None ==> Loaded(w, path, reply).app.dictationState == Error(ModelLoadTimedOut)
  {
  }

  /** The model is installed exactly when it is catalogued and its file is
      there, and then it is loaded from its catalogued path and the disk is
      left alone. */
  lemma LocateMeaning(disk: Disk, dataDir: string, name: string, server: string -> Result<Response>)
    ensures var l := Locate(disk, dataDir, name, server);
            (l.installed <==> name in TranscriptionModels.Names &&
                              PathExists(disk.dirs, disk.files, Join(TranscriptionModels.ModelsDir(dataDir), "ggml-" + name + ".bin"))) &&
            (l.installed ==> l.path == Ok(TranscriptionModels.ModelPath(dataDir, name).value) &&
                             SetUpDisk(disk, dataDir, name, server) == disk)
  {
    TranscriptionModels.FindModelCatalogued(name);
  }

  /** On launch the transcription thread gets the configured language and
      the translation thread the configured pair; a model that cannot be
      fetched leaves the download's Error with no request, and a found one
      is loaded from its path. */
  lemma LaunchMeaning(w: World, accessible: bool, located: Located, reply: Option<Whisper.TranscriptionResponse>)
    ensures var l := Launched(w, accessible, located, reply);
            l.languageHints == w.languageHints + [WhisperLanguage(w.app.language)] &&
            l.toTranslator ==
              w.toTranslator + [TranslationEngine.SetLanguages(WhisperLanguage(w.app.language), w.app.translationTargetLang)] &&
            SameSettings(l.app, w.app) && l.capturing == w.capturing &&
            (located.path.Err? ==>
               l.toWhisper == w.toWhisper && l.app.dictationState == Error("Model download failed: " + located.path.error)) &&
            (located.path.Ok? ==> l.toWhisper == w.toWhisper + [Whisper.LoadModel(located.path.value)]) &&
            (located.path.Ok? && reply == None ==> l.app.dictationState == Error(ModelLoadTimedOut))
  {
    var checked := if accessible then w else WithState(w, Error(AccessibilityMessage));
    var sent := checked.(languageHints := checked.languageHints + [WhisperLanguage(w.app.language)],
                         toTranslator := checked.toTranslator + [TranslatorLanguages(checked.app)]);
    SetUpMeaning(sent, located, reply);
    SetUpFrame(sent, located, reply);
  }

  /** A setup whose download breaks part-way reports the failure, yet the
      next setup of the same model finds the partial file, counts the model
      as installed and loads it from its path without fetching it again. */
  lemma BrokenSetUpLoadsPartialFile(w: World, disk: Disk, dataDir: string, name: string,
                                    server: string -> Result<Response>, reply: Option<Whisper.TranscriptionResponse>)
    requires TranscriptionModels.FindModel(name).Some?
    requires !PathExists(disk.dirs, disk.files, TranscriptionModels.ModelPath(dataDir, name).value)
    requires server(TranscriptionModels.ModelUrl(TranscriptionModels.FindModel(name).value)).Ok?
    requires !StreamOk(server(TranscriptionModels.ModelUrl(TranscriptionModels.FindModel(name).value)).value.chunks)
    ensures Locate(disk, dataDir, name, server).path.Err?
    ensures SetUp(w, Locate(disk, dataDir, name, server), reply).app.dictationState.Error?
    ensures var path := TranscriptionModels.ModelPath(dataDir, name).value;
            var next := Locate(SetUpDisk(disk, dataDir, name, server), dataDir, name, server);
            next == Located(true, Ok(path)) &&
            SetUp(w, next, reply) == Loaded(w, path, reply)
  {
    TranscriptionModels.FindModelCatalogued(name);
    TranscriptionModels.InterruptedDownloadLooksInstalled(disk.files, dataDir, name, server);
  }

  /** A model that cannot be fetched ends in Error with nothing sent to the
      worker; one that is found or fetched is loaded from its path. */
  lemma SetUpMeaning(w: World, located: Located, reply: Option<Whisper.TranscriptionResponse>)
    ensures located.path.Err? ==>
              SetUp(w, located, reply) == WithState(w, Error("Model download failed: " + located.path.error))
    ensures located.path.Ok? ==>
              SetUp(w, located, reply).toWhisper == w.toWhisper + [Whisper.LoadModel(located.path.value)]
  {
  }

  /** Setting up a model changes only the dictation state, the loaded
      model's path and the transcription requests: the settings, the
      pending texts and everything else stay. */
  lemma SetUpFrame(w: World, located: Located, reply: Option<Whisper.TranscriptionResponse>)
    ensures var r := SetUp(w, located, reply);
            SameSettings(r.app, w.app) && r.capturing == w.capturing && r.toTranslator == w.toTranslator &&
            r.history == w.history && r.pasted == w.pasted && r.rewrites == w.rewrites
  {
    var w' := if located.installed then w else WithState(w, Downloading(0.0));
    if located.path.Ok? {
      LoadedFrame(w', located.path.value, reply);
    }
  }

  lemma LoadedFrame(w: World, path: string, reply: Option<Whisper.TranscriptionResponse>)
    ensures var r := Loaded(w, path, reply);
            SameSettings(r.app, w.app) && r.capturing == w.capturing && r.toTranslator == w.toTranslator &&
            r.history == w.history && r.pasted == w.pasted && r.rewrites == w.rewrites
  {
    var w' := w.(toWhisper := w.toWhisper + [Whisper.LoadModel(path)]);
    match reply
    case Some(ModelLoaded(Ok(_))) =>
      assert Loaded(w, path, reply) == w'.(app := w'.app.(modelPath := Some(path), dictationState := Idle));
    case Some(ModelLoaded(Err(e))) =>
      assert Loaded(w, path, reply) == WithState(w', Error("Failed to load model: " + e));
    case None =>
      assert Loaded(w, path, reply) == WithState(w', Error(ModelLoadTimedOut));
    case Some(TranscriptionComplete(_)) =>
      assert Loaded(w, path, reply) == w';
  }

  /** Two states agree on everything but the dictation state and the
      loaded model's path. */
  predicate SameSettings(a: AppState, b: AppState)
  {
    a.selectedModel == b.selectedModel && a.smartPaste == b.smartPaste && a.language == b.language &&
    a.vocabEnabled == b.vocabEnabled && a.translationEnabled == b.translationEnabled &&
    a.translationTargetLang == b.translationTargetLang && a.translationModel == b.translationModel &&
    a.pendingOriginalText == b.pendingOriginalText && a.pendingCorrectedText == b.pendingCorrectedText &&
    a.pendingSourceText == b.pendingSourceText && a.pendingTranslatedText == b.pendingTranslatedText
  }

  /** Only catalogued models are selected; a catalogued one is selected
      even when saving the configuration fails. */
  lemma SelectMeaning(w: World, name: string, save: Outcome, located: Located, reply: Option<Whisper.TranscriptionResponse>)
    ensures var a := ModelSelected(w, name, save, located, reply);
            (a.result == Err("Unknown model: " + name) <==> name !in TranscriptionModels.Names) &&
            (name !in TranscriptionModels.Names ==> a.world == w) &&
            (name in TranscriptionModels.Names ==>
               a.world.app.selectedModel == name && a.world.app.language == w.app.language &&
               (a.result.Ok? <==> save.Pass?))
  {
    TranscriptionModels.FindModelCatalogued(name);
    if name in TranscriptionModels.Names {
      var w' := w.(app := w.app.(selectedModel := name));
      SetUpFrame(w', located, reply);
      if save.Fail? {
        var a := ModelSelected(w, name, save, located, reply);
        assert a.result.error[0] == 'F' != ("Unknown model: " + name)[0];
      }
    }
  }

  /** `set_language` switches model exactly when the model's language
      coverage does not fit: English-only for "en", multilingual otherwise. */
  lemma ModelSwitchRule(current: string, language: string)
    ensures NeedsModelSwitch(current, language) <==> (TranscriptionModels.IsEnglishOnly(current) != (language == "en"))
  {
  }

  /** The model `set_language` settles on fits the language and is in the
      catalog, so asking for the same language again switches nothing. */
  lemma NewModelFits(current: string, language: string)
    ensures !NeedsModelSwitch(current, language) ==> NewModel(current, language) == current
    ensures NeedsModelSwitch(current, language) ==>
              TranscriptionModels.FindModel(NewModel(current, language)).Some? &&
              TranscriptionModels.IsEnglishOnly(NewModel(current, language)) == (language == "en")
    ensures !NeedsModelSwitch(NewModel(current, language), language)
  {
    TranscriptionModels.MultilingualEquivalentDomain(current);
    TranscriptionModels.EnglishEquivalentDomain(current);
    TranscriptionModels.SetMemberCatalogued("base.en");
    TranscriptionModels.SetMemberCatalogued("base");
  }

  /** `set_language` records the language, and relabels a recording's
      source language keeping its other fields unless a model switch
      moves the state on. */
  lemma LanguageSetRelabels(w: World, language: string, save: Outcome, saveModel: Outcome, located: Located,
                            reply: Option<Whisper.TranscriptionResponse>)
    ensures var a := LanguageSet(w, language, save, saveModel, located, reply);
            a.world.app.language == language &&
            (save.Fail? ==> a.result == Err("Failed to save config: " + save.error) && a.world.toTranslator == w.toTranslator)
    ensures var a := LanguageSet(w, language, save, saveModel, located, reply);
            var d := w.app.dictationState;
            d.Recording? && (save.Fail? || !NeedsModelSwitch(w.app.selectedModel, language)) ==>
              a.world.app.dictationState == Recording(d.durationMs, d.partialText, d.partialTranslation, language, d.targetLang)
  {
    var app' := w.app.(language := language, dictationState := Relabelled(w.app.dictationState, language));
    if save.Pass? && NeedsModelSwitch(w.app.selectedModel, language) {
      var sent := w.(app := app', languageHints := w.languageHints + [WhisperLanguage(language)],
                     toTranslator := w.toTranslator + [TranslatorLanguages(app')]);
      SelectMeaning(sent, NewModel(w.app.selectedModel, language), saveModel, located, reply);
    }
  }

  /** When `set_language` must switch model and both saves succeed, the
      model it selects fits the language and the switch never fails as an
      unknown model. */
  lemma LanguageSetSwitches(w: World, language: string, save: Outcome, saveModel: Outcome, located: Located,
                            reply: Option<Whisper.TranscriptionResponse>)
    requires save.Pass? && saveModel.Pass? && NeedsModelSwitch(w.app.selectedModel, language)
    ensures var a := LanguageSet(w, language, save, saveModel, located, reply);
            a.result.Ok? &&
            a.world.app.selectedModel == NewModel(w.app.selectedModel, language) &&
            TranscriptionModels.IsEnglishOnly(a.world.app.selectedModel) == (language == "en")
  {
    var target := NewModel(w.app.selectedModel, language);
    NewModelFits(w.app.selectedModel, language);
    TranscriptionModels.FindModelCatalogued(target);
    var app' := w.app.(language := language, dictationState := Relabelled(w.app.dictationState, language));
    var sent := w.(app := app', languageHints := w.languageHints + [WhisperLanguage(language)],
                   toTranslator := w.toTranslator + [TranslatorLanguages(app')]);
    SelectMeaning(sent, target, saveModel, located, reply);
  }

  // ------------------------------------------------------------ the invariant over runs

  lemma StartupConsistent(c: Config)
    ensures Consistent(Startup(c))
    ensures PendingPaired(Startup(c).app) && Startup(c).app.dictationState == Idle
  {
  }

  /** Every handler keeps the pending pairs, the previews and the capture
      consistent. */
  lemma StepKeepsConsistent(w: World, e: Event)
    requires Consistent(w)
    ensures Consistent(Step(w, e))
  {
    match e
    case TranscriptionDone(durationMs, reply, vocab, nowMs, translation, paste) =>
      TranscribedConsistent(w, durationMs, reply, vocab, nowMs, translation, paste);
    case LanguageCommand(language, save, saveModel, located, reply) =>
      LanguageSetConsistent(w, language, save, saveModel, located, reply);
    case ModelCommand(name, save, located, reply) =>
      ModelSelectedConsistent(w, name, save, located, reply);
    case Launch(accessible, located, reply) =>
      LaunchedConsistent(w, accessible, located, reply);
    case HotkeyPressed(accessible, capture, audio) =>
      HotkeyConsistent(w, accessible, capture, audio);
    case CancelPressed =>
      PlainStateConsistent(w.(capturing := false), Idle);
    case DurationTick(_) =>
    case AcceptCorrectionsCommand(paste) => CommandsConsistent(w, paste);
    case UndoCorrectionsCommand(paste) => CommandsConsistent(w, paste);
    case AcceptTranslationCommand(paste) => CommandsConsistent(w, paste);
    case RejectTranslationCommand(paste) => CommandsConsistent(w, paste);
  }

  lemma HotkeyConsistent(w: World, accessible: bool, capture: Outcome, audio: seq<Whisper.Sample>)
    requires Consistent(w)
    ensures Consistent(Hotkey(w, accessible, capture, audio).world)
  {
    PlainStateConsistent(w, Error(AccessibilityMessage));
    PlainStateConsistent(w, Error(MicrophoneMessage));
    PlainStateConsistent(w, Idle);
    PlainStateConsistent(w.(capturing := false), Idle);
    PlainStateConsistent(w.(capturing := false, toWhisper := w.toWhisper + [Whisper.Transcribe(audio)]), Processing);
  }

  lemma TranscribedConsistent(w: World, durationMs: nat, reply: Option<Whisper.TranscriptionResponse>,
                              vocab: seq<Vocabulary.VocabEntry>, nowMs: nat,
                              translation: Option<TranslationEngine.TranslationResponse>, paste: Outcome)
    requires Consistent(w)
    ensures Consistent(Transcribed(w, durationMs, reply, vocab, nowMs, translation, paste))
  {
    match reply
    case None => PlainStateConsistent(w, Error(TranscriptionTimedOut));
    case Some(ModelLoaded(_)) =>
    case Some(TranscriptionComplete(Err(e))) => PlainStateConsistent(w, Error("Transcription failed: " + e));
    case Some(TranscriptionComplete(Ok(text))) =>
      if Trim(text) == [] {
        PlainStateConsistent(w, Idle);
      } else {
        DictatedConsistent(w, Trim(text), durationMs, vocab, nowMs, translation, paste);
      }
  }

  lemma DictatedConsistent(w: World, trimmed: string, durationMs: nat, vocab: seq<Vocabulary.VocabEntry>, nowMs: nat,
                           translation: Option<TranslationEngine.TranslationResponse>, paste: Outcome)
    requires Consistent(w)
    ensures Consistent(Dictated(w, trimmed, durationMs, vocab, nowMs, translation, paste))
  {
    var correction := Corrections(w.app.vocabEnabled, trimmed, vocab);
    var source := SourceText(trimmed, correction);
    var w' := w.(history := History.Added(w.history, History.HistoryEntry(nowMs, source, nowMs, durationMs)));
    assert Consistent(w');
    TranslatedConsistent(w', source, translation, paste);
    PasteThenConsistent(w', source, paste);
  }

  lemma TranslatedConsistent(w: World, source: string, reply: Option<TranslationEngine.TranslationResponse>,
                             paste: Outcome)
    requires Consistent(w)
    ensures Consistent(Translated(w, source, reply, paste))
  {
    var job := TranslationEngine.TranslationJob(source, SourceLanguageForTranslation(w.app.language), w.app.translationTargetLang);
    var w' := WithState(w, Translating).(toTranslator := w.toTranslator + [TranslationEngine.Translate(job)]);
    PlainStateConsistent(w, Translating);
    assert Consistent(w');
    PasteThenConsistent(w', source, paste);
  }

  lemma PasteThenConsistent(w: World, text: string, paste: Outcome)
    requires PendingPaired(w.app)
    ensures Consistent(PasteThen(w, text, paste))
  {
    var w' := w.(pasted := w.pasted + [PasteCall(text, w.app.smartPaste)]);
    PlainStateConsistent(w', Idle);
    if paste.Fail? {
      PlainStateConsistent(w', Error("Failed to paste: " + paste.error));
    }
  }

  lemma CommandsConsistent(w: World, paste: Outcome)
    requires Consistent(w)
    ensures Consistent(CorrectionsAccepted(w, paste).world) && Consistent(CorrectionsUndone(w, paste).world)
    ensures Consistent(TranslationAccepted(w, paste).world) && Consistent(TranslationRejected(w, paste).world)
  {
    var noCorrections := w.app.(pendingCorrectedText := None, pendingOriginalText := None);
    var noTranslation := w.app.(pendingSourceText := None, pendingTranslatedText := None);
    if w.app.pendingCorrectedText.Some? {
      PasteThenConsistent(w.(app := noCorrections), w.app.pendingCorrectedText.value, paste);
      PasteThenConsistent(w.(app := noCorrections, rewrites := w.rewrites + [w.app.pendingOriginalText.value]),
                          w.app.pendingOriginalText.value, paste);
    }
    if w.app.pendingSourceText.Some? {
      PasteThenConsistent(w.(app := noTranslation, rewrites := w.rewrites + [w.app.pendingTranslatedText.value]),
                          w.app.pendingTranslatedText.value, paste);
      PasteThenConsistent(w.(app := noTranslation), w.app.pendingSourceText.value, paste);
    }
  }

  lemma ModelSelectedConsistent(w: World, name: string, save: Outcome, located: Located,
                                reply: Option<Whisper.TranscriptionResponse>)
    requires Consistent(w)
    ensures Consistent(ModelSelected(w, name, save, located, reply).world)
  {
    var w' := w.(app := w.app.(selectedModel := name));
    assert Consistent(w');
    SetUpConsistent(w', located, reply);
  }

  lemma SetUpConsistent(w: World, located: Located, reply: Option<Whisper.TranscriptionResponse>)
    requires Consistent(w)
    ensures Consistent(SetUp(w, located, reply))
  {
    var w' := if located.installed then w else WithState(w, Downloading(0.0));
    PlainStateConsistent(w, Downloading(0.0));
    if located.path.Ok? {
      LoadedConsistent(w', located.path.value, reply);
    } else {
      PlainStateConsistent(w', Error("Model download failed: " + located.path.error));
    }
  }

  lemma LoadedConsistent(w: World, path: string, reply: Option<Whisper.TranscriptionResponse>)
    requires Consistent(w)
    ensures Consistent(Loaded(w, path, reply))
  {
    var w' := w.(toWhisper := w.toWhisper + [Whisper.LoadModel(path)]);
    assert Consistent(w');
    PlainStateConsistent(w'.(app := w'.app.(modelPath := Some(path))), Idle);
    if reply.Some? && reply.value.ModelLoaded? && reply.value.loaded.Err? {
      PlainStateConsistent(w', Error("Failed to load model: " + reply.value.loaded.error));
    }
    PlainStateConsistent(w', Error(ModelLoadTimedOut));
  }

  /** Moving to a state that is neither a recording nor a preview keeps
      the orchestrator consistent. */
  lemma LaunchedConsistent(w: World, accessible: bool, located: Located, reply: Option<Whisper.TranscriptionResponse>)
    requires Consistent(w)
    ensures Consistent(Launched(w, accessible, located, reply))
  {
    var checked := if accessible then w else WithState(w, Error(AccessibilityMessage));
    PlainStateConsistent(w, Error(AccessibilityMessage));
    SetUpConsistent(checked.(languageHints := checked.languageHints + [WhisperLanguage(w.app.language)],
                             toTranslator := checked.toTranslator + [TranslatorLanguages(checked.app)]),
                    located, reply);
  }

  lemma PlainStateConsistent(w: World, d: DictationState)
    requires PendingPaired(w.app)
    requires !d.Recording? && !d.CorrectionPreview? && !d.TranslationPreview?
    ensures Consistent(WithState(w, d))
  {
  }

  lemma LanguageSetConsistent(w: World, language: string, save: Outcome, saveModel: Outcome, located: Located,
                              reply: Option<Whisper.TranscriptionResponse>)
    requires Consistent(w)
    ensures Consistent(LanguageSet(w, language, save, saveModel, located, reply).world)
  {
    var app' := w.app.(language := language, dictationState := Relabelled(w.app.dictationState, language));
    if save.Pass? && NeedsModelSwitch(w.app.selectedModel, language) {
      var sent := w.(app := app', languageHints := w.languageHints + [WhisperLanguage(language)],
                     toTranslator := w.toTranslator + [TranslatorLanguages(app')]);
      ModelSelectedConsistent(sent, NewModel(w.app.selectedModel, language), saveModel, located, reply);
    }
  }

  /** Any sequence of events keeps the orchestrator consistent. */
  lemma {:induction false} RunKeepsConsistent(w: World, events: seq<Event>)
    requires Consistent(w)
    ensures Consistent(Run(w, events))
    decreases |events|
  {
    if events != [] {
      StepKeepsConsistent(w, events[0]);
      RunKeepsConsistent(Step(w, events[0]), events[1..]);
    }
  }

  /** In every state reachable from startup the pending texts are paired,
      so a preview command finds both texts of its pair or neither, and a
      recording always has a capture to stop. */
  lemma ReachableConsistent(c: Config, events: seq<Event>)
    ensures Consistent(Run(Startup(c), events))
  {
    RunKeepsConsistent(Startup(c), events);
  }

  // ------------------------------------------------------------ the handlers

  /** The application's managed state: the `Mutex<AppState>`, the
      `ActiveCapture` slot, the two request channels, and what the history
      and paste modules are handed. */
  class App {
    var state: AppState
    var capturing: bool
    var toWhisper: seq<Whisper.TranscriptionRequest>
    var languageHints: seq<Option<string>>
    var toTranslator: seq<TranslationEngine.TranslationRequest>
    var history: seq<History.HistoryEntry>
    var pasted: seq<PasteCall>
    var rewrites: seq<string>

    function Snapshot(): World
      reads this
    {
      World(state, capturing, toWhisper, languageHints, toTranslator, history, pasted, rewrites)
    }

    /** `run`: the shared state built from the saved configuration. */
    constructor(c: Config)
      ensures Snapshot() == Startup(c)
    {
      state := AppState(Idle, None, c.selectedModel, c.smartPaste, c.language, c.vocabEnabled,
                        c.translationEnabled, c.translationTargetLang, c.translationModel,
                        None, None, None, None);
      capturing := false;
      toWhisper := [];
      languageHints := [];
      toTranslator := [];
      history := [];
      pasted := [];
      rewrites := [];
    }

    /** `toggle_recording`; returns the recording's duration when it handed
        audio to the transcription thread. */
    method ToggleRecording(accessible: bool, capture: Outcome, audio: seq<Whisper.Sample>)
      returns (awaiting: Option<nat>)
      modifies this
      ensures Snapshot() == Hotkey(old(Snapshot()), accessible, capture, audio).world
      ensures awaiting == Hotkey(old(Snapshot()), accessible, capture, audio).awaiting
    {
      awaiting := None;
      match state.dictationState
      case Idle =>
        if !accessible {
          state := state.(dictationState := Error(AccessibilityMessage));
          return;
        }
        if capture.Fail? {
          state := state.(dictationState := Error(MicrophoneMessage));
          return;
        }
        capturing := true;
        var sourceLang := SourceLanguageForTranslation(state.language);
        state := state.(dictationState := Recording(0, None, None, sourceLang, state.translationTargetLang));
      case Recording(durationMs, _, _, _, _) =>
        var recorded := [];
        if capturing {
          recorded := audio;
          capturing := false;
        }
        if recorded == [] {
          state := state.(dictationState := Idle);
          return;
        }
        state := state.(dictationState := Processing);
        toWhisper := toWhisper + [Whisper.Transcribe(recorded)];
        awaiting := Some(durationMs);
      case Error(_) =>
        state := state.(dictationState := Idle);
      case _ =>
    }

    /** `cancel_recording`. */
    method CancelRecording()
      modifies this
      ensures Snapshot() == Cancel(old(Snapshot()))
    {
      match state.dictationState
      case Recording(_, _, _, _, _) =>
        capturing := false;
        state := state.(dictationState := Idle);
      case Error(_) =>
        state := state.(dictationState := Idle);
      case _ =>
    }

    /** The duration tracker's update. */
    method TickDuration(elapsedMs: nat)
      modifies this
      ensures Snapshot() == Tick(old(Snapshot()), elapsedMs)
    {
      if state.dictationState.Recording? {
        state := state.(dictationState := state.dictationState.(durationMs := elapsedMs));
      }
    }

    /** `paste_text` on the main thread, then Idle or the paste error. */
    method PasteText(text: string, paste: Outcome)
      modifies this
      ensures Snapshot() == PasteThen(old(Snapshot()), text, paste)
    {
      pasted := pasted + [PasteCall(text, state.smartPaste)];
      match paste
      case Pass =>
        state := state.(dictationState := Idle);
      case Fail(e) =>
        state := state.(dictationState := Error("Failed to paste: " + e));
    }

    /** The result handler `toggle_recording` spawns. */
    method HandleTranscription(durationMs: nat, reply: Option<Whisper.TranscriptionResponse>,
                               vocab: seq<Vocabulary.VocabEntry>, nowMs: nat,
                               translation: Option<TranslationEngine.TranslationResponse>, paste: Outcome)
      modifies this
      ensures Snapshot() == Transcribed(old(Snapshot()), durationMs, reply, vocab, nowMs, translation, paste)
    {
      match reply
      case None =>
        state := state.(dictationState := Error(TranscriptionTimedOut));
      case Some(ModelLoaded(_)) =>
      case Some(TranscriptionComplete(Err(e))) =>
        state := state.(dictationState := Error("Transcription failed: " + e));
      case Some(TranscriptionComplete(Ok(text))) =>
        var trimmed := Trim(text);
        if trimmed == [] {
          state := state.(dictationState := Idle);
          return;
        }
        Dictate(trimmed, durationMs, vocab, nowMs, translation, paste);
    }

    /** The result handler's branch for a non-blank transcript. */
    method Dictate(trimmed: string, durationMs: nat, vocab: seq<Vocabulary.VocabEntry>, nowMs: nat,
                   translation: Option<TranslationEngine.TranslationResponse>, paste: Outcome)
      modifies this
      ensures Snapshot() == Dictated(old(Snapshot()), trimmed, durationMs, vocab, nowMs, translation, paste)
    {
      var correction: Option<Vocabulary.CorrectionResult> := None;
      if state.vocabEnabled {
        var result := Vocabulary.ApplyCorrections(trimmed, vocab);
        if result.corrections != [] {
          correction := Some(result);
        }
      }
      assert correction == Corrections(state.vocabEnabled, trimmed, vocab);
      var source := if correction.Some? then correction.value.text else trimmed;
      ghost var before := Snapshot();
      history := History.Added(history, History.HistoryEntry(nowMs, source, nowMs, durationMs));
      ghost var recorded := Snapshot();
      assert recorded == before.(history := recorded.history);
      if state.translationEnabled {
        assert Dictated(before, trimmed, durationMs, vocab, nowMs, translation, paste) == Translated(recorded, source, translation, paste);
        Translate(source, translation, paste);
      } else if correction.Some? {
        var r := correction.value;
        state := state.(pendingOriginalText := Some(trimmed), pendingCorrectedText := Some(r.text),
                        dictationState := CorrectionPreview(r.text, trimmed, r.corrections));
        assert Dictated(before, trimmed, durationMs, vocab, nowMs, translation, paste) == recorded.(app := state);
      } else {
        assert Dictated(before, trimmed, durationMs, vocab, nowMs, translation, paste) == PasteThen(recorded, source, paste);
        PasteText(source, paste);
      }
    }

    /** The translation branch of the result handler. */
    method Translate(source: string, reply: Option<TranslationEngine.TranslationResponse>, paste: Outcome)
      modifies this
      ensures Snapshot() == Translated(old(Snapshot()), source, reply, paste)
    {
      ghost var before := Snapshot();
      var sourceLang := SourceLanguageForTranslation(state.language);
      var targetLang := state.translationTargetLang;
      state := state.(dictationState := Translating);
      toTranslator := toTranslator + [TranslationEngine.Translate(TranslationEngine.TranslationJob(source, sourceLang, targetLang))];
      ghost var sent := Snapshot();
      assert sent == WithState(before, Translating).(toTranslator := sent.toTranslator);
      match reply
      case Some(TranslationComplete(Ok(t))) =>
        var translated := Trim(t);
        if translated == [] {
          translated := source;
        }
        state := state.(pendingSourceText := Some(source), pendingTranslatedText := Some(translated),
                        dictationState := TranslationPreview(source, translated, sourceLang, targetLang));
        assert Translated(before, source, reply, paste) == sent.(app := state);
      case _ =>
        assert Translated(before, source, reply, paste) == PasteThen(sent, source, paste);
        PasteText(source, paste);
    }

    /** `accept_corrections`. */
    method AcceptCorrections(paste: Outcome) returns (r: Result<()>)
      modifies this
      ensures Snapshot() == CorrectionsAccepted(old(Snapshot()), paste).world
      ensures r == CorrectionsAccepted(old(Snapshot()), paste).result
    {
      var text := state.pendingCorrectedText;
      if text.None? {
        return Err("No pending corrections to accept");
      }
      state := state.(pendingCorrectedText := None, pendingOriginalText := None);
      PasteText(text.value, paste);
      r := Ok(());
    }

    /** `undo_corrections`. */
    method UndoCorrections(paste: Outcome) returns (r: Result<()>)
      modifies this
      ensures Snapshot() == CorrectionsUndone(old(Snapshot()), paste).world
      ensures r == CorrectionsUndone(old(Snapshot()), paste).result
    {
      var text := state.pendingOriginalText;
      if text.None? {
        return Err("No pending corrections to undo");
      }
      state := state.(pendingOriginalText := None, pendingCorrectedText := None);
      rewrites := rewrites + [text.value];
      PasteText(text.value, paste);
      r := Ok(());
    }

    /** `accept_translation`. */
    method AcceptTranslation(paste: Outcome) returns (r: Result<()>)
      modifies this
      ensures Snapshot() == TranslationAccepted(old(Snapshot()), paste).world
      ensures r == TranslationAccepted(old(Snapshot()), paste).result
    {
      var text := state.pendingTranslatedText;
      if text.None? {
        return Err("No pending translation to accept");
      }
      state := state.(pendingTranslatedText := None, pendingSourceText := None);
      rewrites := rewrites + [text.value];
      PasteText(text.value, paste);
      r := Ok(());
    }

    /** `reject_translation`. */
    method RejectTranslation(paste: Outcome) returns (r: Result<()>)
      modifies this
      ensures Snapshot() == TranslationRejected(old(Snapshot()), paste).world
      ensures r == TranslationRejected(old(Snapshot()), paste).result
    {
      var text := state.pendingSourceText;
      if text.None? {
        return Err("No pending translation to reject");
      }
      state := state.(pendingSourceText := None, pendingTranslatedText := None);
      PasteText(text.value, paste);
      r := Ok(());
    }

    /** `load_model`. */
    method LoadModel(path: string, reply: Option<Whisper.TranscriptionResponse>)
      modifies this
      ensures Snapshot() == Loaded(old(Snapshot()), path, reply)
    {
      toWhisper := toWhisper + [Whisper.LoadModel(path)];
      match reply
      case Some(ModelLoaded(Ok(_))) =>
        state := state.(modelPath := Some(path), dictationState := Idle);
      case Some(ModelLoaded(Err(e))) =>
        state := state.(dictationState := Error("Failed to load model: " + e));
      case None =>
        state := state.(dictationState := Error(ModelLoadTimedOut));
      case Some(TranscriptionComplete(_)) =>
    }

    /** `setup_model`, fetching a missing model into `fs`. */
    method SetupModel(fs: FileSystem, dataDir: string, server: string -> Result<Response>,
                      reply: Option<Whisper.TranscriptionResponse>)
      modifies this, fs
      ensures Snapshot() == SetUp(old(Snapshot()), Locate(old(Disk(fs.dirs, fs.files)), dataDir, old(state.selectedModel), server), reply)
      ensures Disk(fs.dirs, fs.files) == SetUpDisk(old(Disk(fs.dirs, fs.files)), dataDir, old(state.selectedModel), server)
    {
      ghost var before := Snapshot();
      ghost var located := Locate(Disk(fs.dirs, fs.files), dataDir, state.selectedModel, server);
      var selected := state.selectedModel;
      if !TranscriptionModels.ModelExists(fs, dataDir, selected) {
        state := state.(dictationState := Downloading(0.0));
        ghost var downloading := Snapshot();
        assert downloading == WithState(before, Downloading(0.0));
        var r, progress := TranscriptionModels.DownloadModel(fs, dataDir, selected, server);
        assert located == Located(false, r);
        match r
        case Ok(path) =>
          assert SetUp(before, located, reply) == Loaded(downloading, path, reply);
          LoadModel(path, reply);
        case Err(e) =>
          state := state.(dictationState := Error("Model download failed: " + e));
          assert SetUp(before, located, reply) == WithState(downloading, Error("Model download failed: " + e));
      } else {
        var path := TranscriptionModels.ModelPath(dataDir, selected).value;
        assert located == Located(true, Ok(path));
        assert SetUp(before, located, reply) == Loaded(before, path, reply);
        LoadModel(path, reply);
      }
    }

    /** The launch steps of `run`'s setup hook, the model set up into `fs`. */
    method Launch(accessible: bool, fs: FileSystem, dataDir: string, server: string -> Result<Response>,
                  reply: Option<Whisper.TranscriptionResponse>)
      modifies this, fs
      ensures Snapshot() == Launched(old(Snapshot()), accessible,
                                     Locate(old(Disk(fs.dirs, fs.files)), dataDir, old(state.selectedModel), server), reply)
      ensures Disk(fs.dirs, fs.files) == SetUpDisk(old(Disk(fs.dirs, fs.files)), dataDir, old(state.selectedModel), server)
    {
      if !accessible {
        state := state.(dictationState := Error(AccessibilityMessage));
      }
      languageHints := languageHints + [WhisperLanguage(state.language)];
      toTranslator := toTranslator + [TranslatorLanguages(state)];
      SetupModel(fs, dataDir, server, reply);
    }

    /** `select_model`. */
    method SelectModel(name: string, save: Outcome, fs: FileSystem, dataDir: string,
                       server: string -> Result<Response>, reply: Option<Whisper.TranscriptionResponse>)
      returns (r: Result<()>)
      modifies this, fs
      ensures var a := ModelSelected(old(Snapshot()), name, save, Locate(old(Disk(fs.dirs, fs.files)), dataDir, name, server), reply);
              Snapshot() == a.world && r == a.result
      ensures Disk(fs.dirs, fs.files) ==
                if TranscriptionModels.FindModel(name).Some? && save.Pass?
                then SetUpDisk(old(Disk(fs.dirs, fs.files)), dataDir, name, server)
                else old(Disk(fs.dirs, fs.files))
    {
      if TranscriptionModels.FindModel(name).None? {
        return Err("Unknown model: " + name);
      }
      state := state.(selectedModel := name);
      if save.Fail? {
        return Err("Failed to save config: " + save.error);
      }
      SetupModel(fs, dataDir, server, reply);
      r := Ok(());
    }

    /** `set_language`. */
    method SetLanguage(language: string, save: Outcome, saveModel: Outcome, fs: FileSystem, dataDir: string,
                       server: string -> Result<Response>, reply: Option<Whisper.TranscriptionResponse>)
      returns (r: Result<()>)
      modifies this, fs
      ensures var target := NewModel(old(state.selectedModel), language);
              var a := LanguageSet(old(Snapshot()), language, save, saveModel,
                                   Locate(old(Disk(fs.dirs, fs.files)), dataDir, target, server), reply);
              Snapshot() == a.world && r == a.result
      ensures Disk(fs.dirs, fs.files) ==
                if save.Pass? && saveModel.Pass? && NeedsModelSwitch(old(state.selectedModel), language)
                then SetUpDisk(old(Disk(fs.dirs, fs.files)), dataDir, NewModel(old(state.selectedModel), language), server)
                else old(Disk(fs.dirs, fs.files))
    {
      var current := state.selectedModel;
      var needsSwitch := NeedsModelSwitch(current, language);
      var target := NewModel(current, language);
      state := state.(language := language, dictationState := Relabelled(state.dictationState, language));
      if save.Fail? {
        return Err("Failed to save config: " + save.error);
      }
      languageHints := languageHints + [WhisperLanguage(language)];
      toTranslator := toTranslator + [TranslatorLanguages(state)];
      if needsSwitch {
        NewModelFits(current, language);
        r := SelectModel(target, saveModel, fs, dataDir, server, reply);
      } else {
        r := Ok(());
      }
    }
  }
}
