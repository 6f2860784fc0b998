/** The shared application state (src-tauri/src/state.rs): the dictation
    state machine's states and the settings and pending texts kept beside
    them behind the mutex. */
module State {
  import opened Wrappers
  import opened Vocabulary

  /** `DictationState`: Idle, Processing and Translating carry nothing; the
      other states carry exactly their listed fields. `progress` is an f32
      fraction, modelled as a real. */
  datatype DictationState =
    | Idle
    | Recording(durationMs: nat, partialText: Option<string>, partialTranslation: Option<string>,
                sourceLang: string, targetLang: string)
    | Processing
    | Translating
    | Downloading(progress: real)
    | Error(message: string)
    | CorrectionPreview(text: string, originalText: string, corrections: seq<CorrectionApplied>)
    | TranslationPreview(sourceText: string, translatedText: string, sourceLang: string, targetLang: string)

  datatype AppState = AppState(
    dictationState: DictationState,
    modelPath: Option<string>,
    selectedModel: string,
    smartPaste: bool,
    language: string,
    vocabEnabled: bool,
    translationEnabled: bool,
    translationTargetLang: string,
    translationModel: string,
    pendingOriginalText: Option<string>,
    pendingCorrectedText: Option<string>,
    pendingSourceText: Option<string>,
    pendingTranslatedText: Option<string>)

  /** The pending texts come in pairs: the text before and after correction,
      and the text before and after translation, are set and cleared together. */
  predicate PendingPaired(s: AppState)
  {
    s.pendingOriginalText.Some? == s.pendingCorrectedText.Some? &&
    s.pendingSourceText.Some? == s.pendingTranslatedText.Some?
  }

  /** `AppState::default`. */
  function DefaultAppState(): (s: AppState)
    ensures s.dictationState == Idle && s.modelPath == None
    ensures s.selectedModel == "base.en" && s.language == "en"
    ensures s.translationTargetLang == "en" && s.translationModel == "nllb-200-distilled-600M-int8"
    ensures s.smartPaste && s.vocabEnabled && !s.translationEnabled
    ensures s.pendingOriginalText == None && s.pendingCorrectedText == None
    ensures s.pendingSourceText == None && s.pendingTranslatedText == None
    ensures PendingPaired(s)
  {
    AppState(Idle, None, "base.en", true, "en", true, false, "en", "nllb-200-distilled-600M-int8",
             None, None, None, None)
  }
}
