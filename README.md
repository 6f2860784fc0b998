# Wren dictation core in Dafny

This project models the core of Wren, a macOS dictation app built on Tauri.
A global hotkey starts an audio capture. A second press stops it and sends
the audio to a transcription worker thread, which wraps whisper.cpp. The
transcript is then handled in one of three ways:

- it is corrected by the user's vocabulary;
- it is recorded in the history;
- it is translated, or shown in a preview, or pasted into the focused
  application through the clipboard and a simulated Cmd+V.

The project also covers these parts of the app:

- the two model catalogs, with their downloads;
- the translation worker thread;
- the shared `AppState` that all handlers update.

One module per source file, all under this directory:

| file | module | models |
|---|---|---|
| `wrappers.dfy` | `Wrappers` | `Option`, `Result` (errors are strings), `Outcome` (success or failure of an outside call) |
| `text.dfy` | `Text` | `str::trim` over Rust's white-space set, ASCII letter case, path joining |
| `seqs.dfy` | `Seqs` | `Vec::retain`, the stable `sort_by_key` |
| `files.dfy` | `Files` | the file system the downloads write to: a class with directories and file sizes |
| `channels.dfy` | `Channels` | what a worker thread sends: replies in order plus a list of partial results |
| `state.dfy` | `State` | `DictationState`, `AppState` and its default (`src-tauri/src/state.rs`) |
| `whisper.dfy` | `Whisper` | `src-tauri/src/transcription/whisper.rs` |
| `translation_engine.dfy` | `TranslationEngine` | `src-tauri/src/translation/engine.rs` |
| `transcription_models.dfy` | `TranscriptionModels` | `src-tauri/src/transcription/model_manager.rs` |
| `translation_models.dfy` | `TranslationModels` | `src-tauri/src/translation/model_manager.rs` |
| `vocabulary.dfy` | `Vocabulary` | `src-tauri/src/vocabulary.rs` |
| `history.dfy` | `History` | `src-tauri/src/history.rs` |
| `paste.dfy` | `Paste` | `src-tauri/src/input/paste.rs` |
| `orchestrator.dfy` | `Orchestrator` | the handlers and commands of `src-tauri/src/lib.rs` |

**How it is modelled**

- **Functions and classes.** Each operation is a function that states what
  it does. Wherever the source updates state in place, a class method is
  proved against that function:
  - `TranscriptionService`, `TranslationService`, `VocabularyStore`,
    `TranscriptionHistory` and `Desktop` (the clipboard and the keyboard);
  - `FileSystem`;
  - `App`, which holds the `Mutex<AppState>`, whether a capture is
    active, the requests sent to the two worker threads, and the history,
    paste and rewrite logs.
- **Worker threads.** The request channel of a worker thread is a snapshot:
  a sequence of slots. A slot is `Queued(request)`, or `Empty` where
  `try_recv` finds nothing and `recv` waits.
  - `Worker` and `Drain` are the specification of what the thread sends
    back.
  - `RunTranscriptionWorker` and `RunTranslationWorker` are the loops,
    including the draining of stale partial requests, proved equal to it.
- **Outside answers are parameters.** These include:
  - whisper.cpp (the `Engine` record);
  - the HTTP server (a function from URL to response);
  - the accessibility check and the audio capture;
  - the replies of the worker threads (`None` when `recv_timeout` gives up);
  - the outcomes of clipboard, keyboard and config-file calls;
  - the clock.
- **Invariant.** The orchestrator keeps one invariant, `Consistent`:
  - the pending texts come in pairs;
  - a preview on screen shows exactly the pending texts its commands
    resolve;
  - the Recording state holds a capture.

  It is proved for every run of events from startup. The events include
  the launch steps of `run`'s setup hook (`Launch`).

## Model

| member | source | states |
|---|---|---|
| State.DefaultAppState | src-tauri/src/state.rs:62-80 | The default state is Idle with no model path and no pending texts. The defaults are model "base.en", language "en", target "en" and the NLLB model; smart paste and the vocabulary are on and translation is off. |
| Text.TrimStart | src-tauri/src/transcription/whisper.rs:62 | The result is a suffix of the input that does not start with white space, and what was removed is all white space. |
| Text.TrimEnd | src-tauri/src/transcription/whisper.rs:62 | The result is a prefix of the input that does not end with white space, and what was removed is all white space. |
| Text.TrimIsSlice | src-tauri/src/transcription/whisper.rs:62 | A trimmed text is a slice of the input with only white space cut on either side, and it is itself trimmed. |
| Text.TrimEmptyIffBlank | src-tauri/src/lib.rs:636-647 | A text trims to the empty string exactly when it is all white space, the blank-transcript test. |
| Text.TrimIdempotent | src-tauri/src/translation/engine.rs:35 | Trimming twice is trimming once. |
| Text.TrimOfTrimmed | src-tauri/src/lib.rs:728 | A trimmed text is left unchanged by trimming. |
| Text.ToUpper | src-tauri/src/vocabulary.rs:88-93 | Letters map to upper-case letters, other characters are kept, and being a letter is preserved. |
| Text.ToLower | src-tauri/src/vocabulary.rs:110 | Letters map to lower-case letters, other characters are kept, and being a letter is preserved (the `(?i)` folding). |
| Text.LowerOfUpper | src-tauri/src/vocabulary.rs:110 | Upper-casing does not change how a character compares under case folding. |
| Text.ToUpperStr | src-tauri/src/vocabulary.rs:89 | The result has the same length, and each character is the upper-case of the input's. |
| Text.ToLowerStr | src-tauri/src/vocabulary.rs:110 | The result has the same length, and each character is the lower-case of the input's. |
| Text.JoinInjective | src-tauri/src/transcription/model_manager.rs:97-99 | Joining names to one directory gives the same path only for the same name. |
| Seqs.Retain | src-tauri/src/history.rs:57 | The kept elements come from the input and pass the test, and every input element that passes the test is kept. |
| Seqs.RetainAppend | src-tauri/src/history.rs:57 | Retaining works piece by piece over concatenation, so order is kept. |
| Seqs.RetainAll | src-tauri/src/vocabulary.rs:68-72 | When every element passes the test, retaining changes nothing. |
| Seqs.SortByKey | src-tauri/src/vocabulary.rs:137 | The result is a permutation of the input, sorted by the key. |
| Seqs.InsertByKeySorted | src-tauri/src/vocabulary.rs:137 | Inserting by key into a sorted list keeps it sorted. |
| Seqs.InsertByKeyKeepsOrder | src-tauri/src/vocabulary.rs:137 | Insertion puts the new element ahead of every element with its key and moves no other element. |
| Seqs.SortByKeyStable | src-tauri/src/vocabulary.rs:137 | The sort is stable: for every key, the elements with that key come out in their input order. |
| Files.LastDot | src-tauri/src/translation/model_manager.rs:88-90 | The result is the last '.' of the name, or None exactly when there is no dot. |
| Files.WithExtensionEnding | src-tauri/src/translation/model_manager.rs:88-90 | `with_extension("part")` gives a non-empty path ending in the extension's last character. |
| Files.FileSystem.CreateDirAll | src-tauri/src/transcription/model_manager.rs:108 | It adds the directory and leaves the files alone. |
| Files.FileSystem.Create | src-tauri/src/transcription/model_manager.rs:118 | It creates or truncates the file to size 0 and leaves the rest alone. |
| Files.FileSystem.Append | src-tauri/src/transcription/model_manager.rs:124 | The file grows by the chunk's length and nothing else changes. |
| Files.FileSystem.Rename | src-tauri/src/translation/model_manager.rs:101 | The file moves to its new name with its size and the old name is gone. |
| Channels.PartialOutput | src-tauri/src/transcription/whisper.rs:127-130 | A partial result is sent only when transcription succeeded, trimmed, and never as a reply. |
| Whisper.Transcription | src-tauri/src/transcription/whisper.rs:35-63 | Without a state the result is "Model not loaded". Otherwise it succeeds exactly when whisper's `full` does, and the text is the segments joined and trimmed. |
| Whisper.Load | src-tauri/src/transcription/whisper.rs:19-33 | It succeeds exactly when both the context and the state are created. On failure the state is dropped and the old context is kept. |
| Whisper.FailedLoadUnloads | src-tauri/src/transcription/whisper.rs:21 | After a failed load every transcription answers "Model not loaded", even if a model was loaded before. |
| Whisper.TranscriptionService.LoadModel | src-tauri/src/transcription/whisper.rs:19-33 | The service's handles and the result are those of `Load`. |
| Whisper.TranscriptionService.Transcribe | src-tauri/src/transcription/whisper.rs:35-63 | The result is `Transcription` for the current state. |
| Whisper.WorkerAnswersEachOnce | src-tauri/src/transcription/whisper.rs:90-136 | The thread sends exactly one reply, of the matching kind and in order, for each LoadModel and Transcribe request up to Shutdown. A partial request gets no reply. |
| Whisper.DrainAnswersEachOnce | src-tauri/src/transcription/whisper.rs:104-121 | The same holds while stale partial requests are being drained. |
| Whisper.WorkerStopsAtShutdown | src-tauri/src/transcription/whisper.rs:133-135 | Nothing after a Shutdown request is served. |
| Whisper.DrainStopsAtShutdown | src-tauri/src/transcription/whisper.rs:117-119 | A Shutdown met while draining ends the thread and drops the pending partial. |
| Whisper.DrainKeepsNewest | src-tauri/src/transcription/whisper.rs:106-108 | A run of queued partial requests leaves only the newest audio to transcribe. |
| Whisper.NewestPartialTranscribed | src-tauri/src/transcription/whisper.rs:126-131 | When the queue runs dry, only the newest partial audio is transcribed and sent as a partial. Serving then resumes. |
| Whisper.FinalPreemptsPartial | src-tauri/src/transcription/whisper.rs:109-125 | A final Transcribe request found while draining is answered at once, and the pending partial is dropped. |
| Whisper.WorkerPartialsTrimmed | src-tauri/src/transcription/whisper.rs:127-130 | Every partial text the thread sends is trimmed. |
| Whisper.DrainPartialsTrimmed | src-tauri/src/transcription/whisper.rs:127-130 | The same holds from inside a drain. |
| Whisper.DrainOne | src-tauri/src/transcription/whisper.rs:104-120 | One `try_recv` step keeps the rest of the run equal to the specification. |
| Whisper.DrainQueue | src-tauri/src/transcription/whisper.rs:104-121 | The drain loop stops at Shutdown, at a final request, or at an empty queue. It keeps the trace equal to the specification. |
| Whisper.ServePartial | src-tauri/src/transcription/whisper.rs:100-132 | Serving a partial request, with its drain and what follows, matches the specification up to where serving resumes or stops. |
| Whisper.RunTranscriptionWorker | src-tauri/src/transcription/whisper.rs:87-138 | The replies and partials the thread sends are exactly `Worker` from unloaded handles. |
| TranslationEngine.TranslationMeaning | src-tauri/src/translation/engine.rs:30-47 | Without a model the result is "Translation model not loaded". Otherwise the result is the trimmed text, empty exactly when the text is blank. |
| TranslationEngine.TranslationIgnoresLanguages | src-tauri/src/translation/engine.rs:40-46 | The languages of a job do not change the result; both branches pass the text through. |
| TranslationEngine.TranslationIdempotent | src-tauri/src/translation/engine.rs:35-46 | Translating a translation gives it back unchanged. |
| TranslationEngine.TranslationService.constructor | src-tauri/src/translation/engine.rs:17-23 | The service starts with source "en", target "en" and no model. |
| TranslationEngine.TranslationService.LoadModel | src-tauri/src/translation/engine.rs:25-28 | Loading always succeeds, marks the model loaded and changes nothing else. |
| TranslationEngine.TranslationService.SetLanguages | src-tauri/src/translation/engine.rs:84-87 | Only the two languages change. |
| TranslationEngine.TranslationService.Translate | src-tauri/src/translation/engine.rs:30-47 | The result is `Translation` for the current model flag. |
| TranslationEngine.WorkerAnswersEachOnce | src-tauri/src/translation/engine.rs:78-136 | The thread sends exactly one reply, of the matching kind and in order, for each LoadModel and Translate request up to Shutdown. SetLanguages and partial requests get no reply. |
| TranslationEngine.DrainAnswersEachOnce | src-tauri/src/translation/engine.rs:95-117 | The same holds while stale partial requests are being drained. |
| TranslationEngine.WorkerStopsAtShutdown | src-tauri/src/translation/engine.rs:129-131 | Nothing after a Shutdown request is served. |
| TranslationEngine.DrainStopsAtShutdown | src-tauri/src/translation/engine.rs:113-115 | A Shutdown met while draining ends the thread. |
| TranslationEngine.ShutdownDropsPartial | src-tauri/src/translation/engine.rs:113-115 | The pending partial is not translated when a Shutdown is drained. |
| TranslationEngine.WorkerIgnoresLanguages | src-tauri/src/translation/engine.rs:84-87 | What the thread sends depends only on whether the model is loaded, not on the languages set. |
| TranslationEngine.DrainIgnoresLanguages | src-tauri/src/translation/engine.rs:109-112 | The same holds inside a drain. |
| TranslationEngine.SetLanguagesIsSilent | src-tauri/src/translation/engine.rs:84-112 | A SetLanguages request sends nothing, whether served or drained. |
| TranslationEngine.LoadedWorkerSucceeds | src-tauri/src/translation/engine.rs:80-91 | Once a model is loaded, every reply the thread sends is a success. |
| TranslationEngine.LoadedRequestSucceeds | src-tauri/src/translation/engine.rs:80-128 | The same holds from any request at the head of the queue. |
| TranslationEngine.LoadedDrainSucceeds | src-tauri/src/translation/engine.rs:92-128 | The same holds inside a drain. |
| TranslationEngine.DrainKeepsNewest | src-tauri/src/translation/engine.rs:98-100 | A run of queued partial jobs leaves only the newest to translate. |
| TranslationEngine.NewestPartialTranslated | src-tauri/src/translation/engine.rs:122-127 | When the queue runs dry only the newest partial job is translated and sent as a partial. |
| TranslationEngine.FinalPreemptsPartial | src-tauri/src/translation/engine.rs:101-121 | A final Translate request found while draining is answered at once, and the partial is dropped. |
| TranslationEngine.WorkerPartialsTrimmed | src-tauri/src/translation/engine.rs:122-127 | Every partial the thread sends is trimmed. |
| TranslationEngine.DrainPartialsTrimmed | src-tauri/src/translation/engine.rs:122-127 | The same holds inside a drain. |
| TranslationEngine.DrainOne | src-tauri/src/translation/engine.rs:96-116 | One `try_recv` step keeps the trace equal to the specification. |
| TranslationEngine.DrainQueue | src-tauri/src/translation/engine.rs:95-117 | The drain loop stops at Shutdown, at a final request, or at an empty queue, and matches the specification. |
| TranslationEngine.ServePartial | src-tauri/src/translation/engine.rs:92-128 | Serving a partial job matches the specification up to where serving resumes or stops. |
| TranslationEngine.RunTranslationWorker | src-tauri/src/translation/engine.rs:66-137 | The replies and partials the thread sends are exactly `Worker` from a new service. |
| TranscriptionModels.FindIn | src-tauri/src/transcription/model_manager.rs:86-88 | A found model is in the list with that name, and nothing is found exactly when no entry has the name. |
| TranscriptionModels.NamesDistinct | src-tauri/src/transcription/model_manager.rs:13-77 | The nine catalogued names are distinct. |
| TranscriptionModels.FilenamesFollowNames | src-tauri/src/transcription/model_manager.rs:13-77 | Every file name is "ggml-" + name + ".bin". |
| TranscriptionModels.CatalogListed | src-tauri/src/transcription/model_manager.rs:13-77 | The catalog lists exactly the names tiny.en, tiny, base.en, base, small.en, small, medium.en, medium and base.en-q8_0. |
| TranscriptionModels.CatalogFlags | src-tauri/src/transcription/model_manager.rs:13-77 | A model is flagged English-only exactly when its name has seven or more characters, which in this catalog are the ".en" names. |
| TranscriptionModels.CatalogSplit | src-tauri/src/transcription/model_manager.rs:13-77 | A name is catalogued exactly when it is English-only or multilingual, never both. |
| TranscriptionModels.FindModelCatalogued | src-tauri/src/transcription/model_manager.rs:86-88 | `find_model` finds exactly the catalogued names, with the matching file name and English-only flag. |
| TranscriptionModels.FindModelFound | src-tauri/src/transcription/model_manager.rs:86-88 | A found model is the catalog entry with that name. |
| TranscriptionModels.ModelPathCatalogued | src-tauri/src/transcription/model_manager.rs:97-99 | The path is None exactly for unknown names, and otherwise is the models directory joined with the file name. |
| TranscriptionModels.ModelExistsMeaning | src-tauri/src/transcription/model_manager.rs:90-95 | A model exists exactly when it is catalogued and its file exists. |
| TranscriptionModels.IsEnglishOnlyMeaning | src-tauri/src/transcription/model_manager.rs:155-159 | English-only exactly for the English-only names, and false for unknown names. |
| TranscriptionModels.EquivalentsBetweenSets | src-tauri/src/transcription/model_manager.rs:133-152 | `multilingual_equivalent` is defined exactly on English-only names and lands in multilingual ones, and `english_equivalent` the other way round. |
| TranscriptionModels.MultilingualEquivalentDomain | src-tauri/src/transcription/model_manager.rs:133-141 | It is defined exactly for English-only models, and its result is a catalogued multilingual model. |
| TranscriptionModels.EnglishEquivalentDomain | src-tauri/src/transcription/model_manager.rs:144-152 | It is defined exactly for catalogued multilingual models, and its result is a catalogued English-only model. |
| TranscriptionModels.SetMemberCatalogued | src-tauri/src/transcription/model_manager.rs:155-159 | Catalogued and not English-only means multilingual, and English-only implies catalogued. |
| TranscriptionModels.EquivalentsRoundTrip | src-tauri/src/transcription/model_manager.rs:133-152 | English to multilingual and back returns the name, except for base.en-q8_0 (which comes back as base.en). Multilingual to English and back always returns the name. |
| TranscriptionModels.StreamCompletes | src-tauri/src/transcription/model_manager.rs:122-127 | The stream loop ends without error exactly when every chunk arrives, and the file then holds all their bytes. |
| TranscriptionModels.StreamReportsGrow | src-tauri/src/transcription/model_manager.rs:125-126 | Every report carries the content length as total and a downloaded count between the start and the final size. The counts never decrease, and the last one is the final size. |
| TranscriptionModels.StreamRunningSum | src-tauri/src/transcription/model_manager.rs:122-127 | There is one report per chunk received before the first error. The k-th report's count is the sum of the first k + 1 chunk lengths. The file ends at the sum of the chunks received, and the error is the first failing chunk's. |
| TranscriptionModels.DownloadReportsProgress | src-tauri/src/transcription/model_manager.rs:101-130 | An unknown model or a failed request reports nothing. Otherwise the callback gets one call per chunk received before the first error. Each call carries the running byte count and the content length, or 0 when none is announced. The model's file is left with exactly those bytes. |
| TranscriptionModels.DownloadMeaning | src-tauri/src/transcription/model_manager.rs:101-130 | An unknown name fails with "Unknown model: " and touches nothing. A success returns the model path, whose file holds every byte of the response. |
| TranscriptionModels.InterruptedDownloadLooksInstalled | src-tauri/src/transcription/model_manager.rs:118-127 | A stream failing mid-way returns an error yet leaves the destination file in place (the finding below). |
| TranscriptionModels.InterruptedBaseEnDownload | src-tauri/src/transcription/model_manager.rs:118-127 | Concrete case: a connection reset after 1000 bytes of base.en returns the error, yet leaves `ggml-base.en.bin` holding those 1000 bytes. |
| TranscriptionModels.DownloadModel | src-tauri/src/transcription/model_manager.rs:101-130 | The method, writing straight to the destination as the source does, gives the result, files and progress of `Download`, and creates the models directory. |
| TranscriptionModels.FetchModel | src-tauri/src/transcription/model_manager.rs:110-129 | The fetch after the directory is made matches `FetchInto`. |
| TranscriptionModels.StreamInto | src-tauri/src/transcription/model_manager.rs:122-127 | The write loop's size, reports and error are those of `Stream`, and only the destination file changes. |
| TranscriptionModels.PartFileDiffers | src-tauri/src/transcription/model_manager.rs:110 | The temporary ".part" name never equals the model's file name. |
| TranscriptionModels.AtomicDownloadComplete | src-tauri/src/transcription/model_manager.rs:101-130 | With the corrected download, a failure leaves the destination exactly as it was, and a success leaves it holding every byte of the response. |
| TranscriptionModels.DownloadModelAtomic | src-tauri/src/transcription/model_manager.rs:101-130 | The corrected method matches `DownloadAtomic`. |
| TranscriptionModels.FetchModelAtomic | src-tauri/src/transcription/model_manager.rs:110-129 | The corrected fetch matches `FetchAtomic`. |
| TranslationModels.ModelPathInjective | src-tauri/src/translation/model_manager.rs:30-32 | Different model names get different directories. |
| TranslationModels.FindIn | src-tauri/src/translation/model_manager.rs:46-50 | A found model is in the list with that name, and nothing is found exactly when no entry has the name. |
| TranslationModels.FindModelMeaning | src-tauri/src/translation/model_manager.rs:46-50 | Exactly the default NLLB model is found. |
| TranslationModels.ModelExistsMeaning | src-tauri/src/translation/model_manager.rs:34-44 | The model exists exactly when it is the catalogued one and every one of its files is present in its directory. |
| TranslationModels.ResolveUrlInjective | src-tauri/src/translation/model_manager.rs:52-54 | Different files of a repository get different URLs. |
| TranslationModels.SatAdd | src-tauri/src/translation/model_manager.rs:86-97 | `saturating_add` on u64: the exact sum when it fits, and never beyond u64::MAX. |
| TranslationModels.StreamPartCompletes | src-tauri/src/translation/model_manager.rs:94-99 | Streaming into the part file ends without error exactly when every chunk arrives, and the file then holds them all. |
| TranslationModels.StreamPartTotals | src-tauri/src/translation/model_manager.rs:94-99 | The downloaded total only grows, saturating at u64::MAX, and every report lies between the old and the new total. |
| TranslationModels.NllbPartsApart | src-tauri/src/translation/model_manager.rs:88-90 | No model file's ".part" path is another model file's path. |
| TranslationModels.RequestsOnlyMissing | src-tauri/src/translation/model_manager.rs:79-81 | Only files not yet present are requested from the server. |
| TranslationModels.StepTotals | src-tauri/src/translation/model_manager.rs:77-102 | One file's fetch keeps both totals within u64, growing, with monotone progress. |
| TranslationModels.FetchTotals | src-tauri/src/translation/model_manager.rs:77-102 | The whole loop keeps both totals within u64, growing, with monotone progress. |
| TranslationModels.FetchInstalls | src-tauri/src/translation/model_manager.rs:77-102 | Files already present stay present, and a loop without error leaves every file present. |
| TranslationModels.StepNeverHalfWritten | src-tauri/src/translation/model_manager.rs:88-101 | After one file's fetch the model file is either untouched or complete. A cut-off stream leaves only the ".part" file. |
| TranslationModels.FetchNeverHalfWritten | src-tauri/src/translation/model_manager.rs:77-102 | Over the loop, every model file is untouched or complete. |
| TranslationModels.DownloadUnknown | src-tauri/src/translation/model_manager.rs:67-68 | A name other than the default fails with "Unknown translation model: " and nothing else happens, and only then. |
| TranslationModels.DownloadInstalls | src-tauri/src/translation/model_manager.rs:63-105 | A successful download returns the model directory, and `model_exists` then holds. |
| TranslationModels.DownloadSkipsPresent | src-tauri/src/translation/model_manager.rs:79-81 | A file already present is never requested. |
| TranslationModels.DownloadNeverHalfWritten | src-tauri/src/translation/model_manager.rs:63-105 | After any download, each model file is as before or complete, never partial. |
| TranslationModels.DownloadProgress | src-tauri/src/translation/model_manager.rs:86-97 | Progress reports never go down and stay within u64. |
| TranslationModels.DownloadModel | src-tauri/src/translation/model_manager.rs:63-105 | The method's result, files, progress and requests are those of `Download`, and it creates the model directory. |
| TranslationModels.FetchAll | src-tauri/src/translation/model_manager.rs:77-102 | The per-file loop matches `FetchFiles`. |
| TranslationModels.FetchOne | src-tauri/src/translation/model_manager.rs:78-101 | One iteration matches `FetchStep`. |
| TranslationModels.StreamPartInto | src-tauri/src/translation/model_manager.rs:94-99 | The chunk loop matches `StreamPart`, and only the part file changes. |
| Vocabulary.ApplyCaseKeepsLetters | src-tauri/src/vocabulary.rs:87-99 | The cased replacement has the replacement's length and letters, ignoring case. |
| Vocabulary.ApplyCaseFollowsMatch | src-tauri/src/vocabulary.rs:87-99 | An all-caps match gives an upper-case replacement. A capitalised match capitalises only the first letter. Otherwise the replacement is kept verbatim. |
| Vocabulary.ApplyCaseLowercase | src-tauri/src/vocabulary.rs:182-186 | "teh" is replaced by "the". |
| Vocabulary.ApplyCaseTitleCase | src-tauri/src/vocabulary.rs:189-193 | "Teh" is replaced by "The". |
| Vocabulary.ApplyCaseAllCaps | src-tauri/src/vocabulary.rs:196-200 | "TEH" is replaced by "THE". |
| Vocabulary.FindFrom | src-tauri/src/vocabulary.rs:119 | Every match found lies inside the text at or after the search start and spans the phrase's length. |
| Vocabulary.FindFromSound | src-tauri/src/vocabulary.rs:110-119 | Every match is a case-insensitive occurrence of the phrase with a word boundary on both sides. |
| Vocabulary.FindFromOrdered | src-tauri/src/vocabulary.rs:119 | Matches come in increasing order and do not overlap. |
| Vocabulary.FindFromComplete | src-tauri/src/vocabulary.rs:119 | Every occurrence is found or lies inside an earlier match, as `find_iter`'s leftmost, non-overlapping scan promises. |
| Vocabulary.CoveredAtMatch | src-tauri/src/vocabulary.rs:119 | After a match, the scan resumes past it, so an occurrence further on is still covered. |
| Vocabulary.EntryMatches | src-tauri/src/vocabulary.rs:118-123 | There is one match per occurrence, each inside the text and in order. |
| Vocabulary.EntryMatchesSound | src-tauri/src/vocabulary.rs:118-123 | Each collected match is an occurrence of the phrase, ending a phrase's length after its start. |
| Vocabulary.ReversedLogEntry | src-tauri/src/vocabulary.rs:126-131 | The k-th logged correction is the k-th match from the end, with the original text, replacement and position. |
| Vocabulary.ReversedApplicationIsRebuild | src-tauri/src/vocabulary.rs:126-133 | Replacing from the end to the start gives the text rebuilt left to right with every match replaced. Positions stay valid. |
| Vocabulary.Corrected | src-tauri/src/vocabulary.rs:101-143 | The corrections are sorted by position and are a permutation of those logged entry by entry. |
| Vocabulary.OnlyEnabledEntriesApply | src-tauri/src/vocabulary.rs:105-108 | The result is the same as applying only the enabled entries, in order. |
| Vocabulary.DisabledEntrySkipped | src-tauri/src/vocabulary.rs:219-229 | A disabled entry has no effect. |
| Vocabulary.NoEnabledEntryNoChange | src-tauri/src/vocabulary.rs:232-237 | With no enabled entry the text is unchanged and there are no corrections. |
| Vocabulary.NothingFound | src-tauri/src/vocabulary.rs:173-179 | Where the phrase has no bounded occurrence, nothing is found, so "theme" is left alone by "the". |
| Vocabulary.NoOccurrenceNoChange | src-tauri/src/vocabulary.rs:173-179 | An entry whose phrase does not occur changes nothing and logs nothing. |
| Vocabulary.CorrectionAt | src-tauri/src/vocabulary.rs:126-131 | Each correction logged for an entry records an occurrence: its text, its cased replacement and its position. |
| Vocabulary.OneEntryCorrections | src-tauri/src/vocabulary.rs:118-133 | An enabled entry logs exactly one correction per occurrence, each describing its match. |
| Vocabulary.OneEntryText | src-tauri/src/vocabulary.rs:118-133 | An enabled entry's rewrite is the text with each occurrence replaced by its cased replacement. |
| Vocabulary.CollectMatches | src-tauri/src/vocabulary.rs:118-123 | The loop collects exactly `EntryMatches`, each an occurrence of the phrase. |
| Vocabulary.ReplaceFromEnd | src-tauri/src/vocabulary.rs:126-133 | The reverse loop gives `ApplyReversed` and the left-to-right rebuilt text. |
| Vocabulary.CorrectWithEntry | src-tauri/src/vocabulary.rs:110-133 | One entry's pass matches `ApplyEntry`. |
| Vocabulary.ApplyCorrections | src-tauri/src/vocabulary.rs:101-143 | The method gives `Corrected`, with the corrections sorted by position. |
| Vocabulary.FirstWithId | src-tauri/src/vocabulary.rs:60 | The first entry with the id, or None exactly when no entry has it. |
| Vocabulary.VocabularyStore.AddEntry | src-tauri/src/vocabulary.rs:52-56 | The entry is appended. |
| Vocabulary.VocabularyStore.UpdateEntry | src-tauri/src/vocabulary.rs:58-66 | Only the first entry with the id is replaced, with the id kept. An unknown id changes nothing. |
| Vocabulary.VocabularyStore.DeleteEntry | src-tauri/src/vocabulary.rs:68-72 | No entry with the id remains, and every other entry does. |
| History.AddedNewestFirst | src-tauri/src/history.rs:46-53 | The new entry comes first, and the list grows by one up to fifty. The rest is the old list minus at most its oldest entry. |
| History.AddedCapped | src-tauri/src/history.rs:49-51 | The list never exceeds fifty entries, and below the cap nothing is dropped. |
| History.DeletedExactly | src-tauri/src/history.rs:55-59 | An entry remains exactly when it was there and has another id. |
| History.DeletedKeepsOrder | src-tauri/src/history.rs:57 | Deletion keeps the order of the remaining entries. |
| History.DeletedIdempotent | src-tauri/src/history.rs:55-59 | Deleting an absent id changes nothing, and deleting twice is deleting once. |
| History.AddThenDelete | src-tauri/src/history.rs:46-59 | Deleting the id of an entry just added restores the list, when the id was fresh and the list not full. |
| History.TranscriptionHistory.AddEntry | src-tauri/src/history.rs:46-53 | The list becomes `Added`. |
| History.TranscriptionHistory.DeleteEntry | src-tauri/src/history.rs:55-59 | The list becomes `Deleted`. |
| History.TranscriptionHistory.ClearHistory | src-tauri/src/history.rs:61-63 | The list becomes empty. |
| Paste.FocusMeaning | src-tauri/src/input/paste.rs:10-125 | On macOS a text field counts as focused exactly when every accessibility query succeeds and the role is one of the text roles. Elsewhere the answer is always yes. |
| Paste.TextRolesListed | src-tauri/src/input/paste.rs:113-118 | The text roles are exactly AXTextField, AXTextArea, AXComboBox, AXSearchField and AXWebArea. |
| Paste.CheckAccessibilityPermission | src-tauri/src/input/paste.rs:184-195 | On macOS the answer is the trust flag. Elsewhere it is true. |
| Paste.OpenFailureTouchesNothing | src-tauri/src/input/paste.rs:131-132 | When the clipboard cannot be opened, the error is returned and neither the clipboard nor the keyboard is touched. |
| Paste.ClipboardOnly | src-tauri/src/input/paste.rs:173-178 | With smart paste and no focused field, no key is sent. The text is left on the clipboard, or the error is returned with the clipboard unchanged. |
| Paste.SmartPasteOffIgnoresFocus | src-tauri/src/input/paste.rs:134 | With smart paste off, the focus is ignored and the paste always goes ahead. |
| Paste.KeysAfterClipboard | src-tauri/src/input/paste.rs:136-157 | Keys are sent only after the clipboard holds the text, as a prefix of press Meta, click 'v', release Meta. A successful call sends all three exactly when it auto-pastes. |
| Paste.AutoPasteRestores | src-tauri/src/input/paste.rs:162-172 | After an auto-paste the previous text is put back, or the clipboard is cleared when there was none. The text stays only when the restore fails or it was there before. |
| Paste.FailedClickLeavesMetaDown | src-tauri/src/input/paste.rs:149-154 | When the 'v' click fails, the error is returned with Meta left pressed and the text left on the clipboard. |
| Paste.Desktop.SetText | src-tauri/src/input/paste.rs:140-142 | On success the clipboard holds the text. On failure it is unchanged and the error is returned. |
| Paste.Desktop.Clear | src-tauri/src/input/paste.rs:169 | The clipboard is emptied. |
| Paste.Desktop.SendKey | src-tauri/src/input/paste.rs:149-157 | A key event is logged when it succeeds. Otherwise the error is returned. |
| Paste.PasteText | src-tauri/src/input/paste.rs:130-181 | The result, the clipboard and the keys sent are those of `PasteOutcome`. |
| Paste.AutoPaste | src-tauri/src/input/paste.rs:136-172 | The auto-paste branch matches `AutoPasteOutcome`. |
| Paste.RestoreClipboard | src-tauri/src/input/paste.rs:162-172 | The previous non-empty text is restored, or the clipboard cleared, unless reopening or restoring fails. |
| Orchestrator.SourceLanguageForTranslation | src-tauri/src/lib.rs:217-223 | The result is the language setting itself, "auto" included. |
| Orchestrator.HotkeyFromIdle | src-tauri/src/lib.rs:274-330 | From Idle, a missing accessibility permission and a failed capture each give their error, and nothing is sent. Otherwise recording starts with zero duration, the language and the target. |
| Orchestrator.HotkeyStopsRecording | src-tauri/src/lib.rs:569-622 | Stopping releases the capture. Empty audio goes back to Idle. Otherwise the state becomes Processing, one Transcribe request is sent, and the handler awaits the reply. |
| Orchestrator.HotkeyIgnoredWhenBusy | src-tauri/src/lib.rs:908-928 | While processing, translating, downloading or previewing, the hotkey changes nothing. From Error it returns to Idle. |
| Orchestrator.CancelMeaning | src-tauri/src/lib.rs:1627-1673 | Cancel drops a recording with no transcription and clears an error. Otherwise it changes nothing. |
| Orchestrator.TickMeaning | src-tauri/src/lib.rs:357-378 | While recording, only the duration changes. Otherwise nothing does. |
| Orchestrator.TranscriptionWithoutText | src-tauri/src/lib.rs:624-904 | A timeout and a failed transcription each set their error, and a blank transcript goes back to Idle, with nothing else changed. |
| Orchestrator.TranscriptRecorded | src-tauri/src/lib.rs:648-873 | A non-blank transcript is added to the history after vocabulary correction. It is sent for translation when enabled, and pasted at most once, as that same text. |
| Orchestrator.DictatedEffects | src-tauri/src/lib.rs:667-873 | The same, for the handling of a trimmed transcript. |
| Orchestrator.CorrectionPreviewShown | src-tauri/src/lib.rs:824-838 | With corrections and no translation, the correction preview shows the corrected and original texts, both pending, and nothing is pasted. |
| Orchestrator.TranslationPreviewShown | src-tauri/src/lib.rs:697-823 | With translation on, a successful reply shows the preview of the trimmed translation, or of the source when it is blank. Any other reply pastes the source. |
| Orchestrator.TranslatedMeaning | src-tauri/src/lib.rs:697-823 | The translation branch: the preview and pending texts on success, and pasting the untranslated text otherwise. |
| Orchestrator.CommandsWithoutPending | src-tauri/src/lib.rs:1338-1536 | Each preview command without its pending text returns its error and changes nothing. |
| Orchestrator.AcceptCorrectionsResolves | src-tauri/src/lib.rs:1338-1385 | The corrected text is pasted, and both correction texts are cleared. |
| Orchestrator.UndoCorrectionsResolves | src-tauri/src/lib.rs:1386-1438 | The original text is pasted and recorded as the history rewrite, and both texts are cleared. |
| Orchestrator.AcceptTranslationResolves | src-tauri/src/lib.rs:1440-1489 | The translation is pasted and recorded as the history rewrite, and both texts are cleared. |
| Orchestrator.RejectTranslationResolves | src-tauri/src/lib.rs:1491-1536 | The untranslated text is pasted, and both texts are cleared. |
| Orchestrator.LoadMeaning | src-tauri/src/lib.rs:1701-1756 | One LoadModel request is sent. Success records the path and goes Idle. A failure or a timeout sets its error and keeps the old path. |
| Orchestrator.LocateMeaning | src-tauri/src/lib.rs:933-995 | The model is found installed exactly when catalogued and its file exists, and then it is used as it is with no download. |
| Orchestrator.BrokenSetUpLoadsPartialFile | src-tauri/src/lib.rs:940-993 | A setup whose download breaks part-way ends in Error. The next setup of the same model then finds the partial file, counts it as installed and loads it from the model's path (the finding below). |
| Orchestrator.SetUpMeaning | src-tauri/src/lib.rs:933-995 | A failed download sets "Model download failed: " and sends nothing. A path found or fetched is loaded. |
| Orchestrator.SetUpFrame | src-tauri/src/lib.rs:933-995 | Setting up a model changes no setting, log or capture, nor the translation outbox. |
| Orchestrator.LoadedFrame | src-tauri/src/lib.rs:1701-1756 | Loading a model changes no setting, log or capture, nor the translation outbox. |
| Orchestrator.SelectMeaning | src-tauri/src/lib.rs:1145-1178 | Unknown names are refused and change nothing. Known names are selected even when saving fails, and the command succeeds exactly when saving does. |
| Orchestrator.ModelSwitchRule | src-tauri/src/lib.rs:1542-1625 | A switch is needed exactly when English-only does not match whether the language is "en". |
| Orchestrator.NewModelFits | src-tauri/src/lib.rs:1542-1625 | The chosen model is catalogued and suits the language, so no further switch is needed. |
| Orchestrator.LanguageSetRelabels | src-tauri/src/lib.rs:1542-1625 | The language is always set, and a recording is relabelled to it. A failed save returns its error and sends nothing to the translator. |
| Orchestrator.LanguageSetSwitches | src-tauri/src/lib.rs:1542-1625 | With both saves passing and a switch needed, the new model is selected and suits the language. |
| Orchestrator.StartupConsistent | src-tauri/src/lib.rs:1758-1790 | The startup state is Idle, with no pending texts, and satisfies the invariant. |
| Orchestrator.StepKeepsConsistent | src-tauri/src/lib.rs:266-1756 | Every handler and command keeps the invariant. |
| Orchestrator.HotkeyConsistent | src-tauri/src/lib.rs:266-930 | The hotkey keeps the invariant. |
| Orchestrator.TranscribedConsistent | src-tauri/src/lib.rs:624-904 | The result handler keeps the invariant. |
| Orchestrator.DictatedConsistent | src-tauri/src/lib.rs:667-873 | Handling a transcript keeps the invariant. |
| Orchestrator.TranslatedConsistent | src-tauri/src/lib.rs:697-823 | The translation branch keeps the invariant. |
| Orchestrator.PasteThenConsistent | src-tauri/src/lib.rs:839-873 | Pasting and going Idle or to Error keeps the invariant. |
| Orchestrator.CommandsConsistent | src-tauri/src/lib.rs:1338-1536 | The four preview commands keep the invariant. |
| Orchestrator.ModelSelectedConsistent | src-tauri/src/lib.rs:1145-1178 | Selecting a model keeps the invariant. |
| Orchestrator.SetUpConsistent | src-tauri/src/lib.rs:933-995 | Setting up a model keeps the invariant. |
| Orchestrator.LoadedConsistent | src-tauri/src/lib.rs:1701-1756 | Loading a model keeps the invariant. |
| Orchestrator.LanguageSetConsistent | src-tauri/src/lib.rs:1542-1625 | Setting the language keeps the invariant. |
| Orchestrator.RunKeepsConsistent | src-tauri/src/lib.rs:266-1756 | Any sequence of events keeps the invariant. |
| Orchestrator.ReachableConsistent | src-tauri/src/lib.rs:1758-1790 | Every state reachable from startup satisfies the invariant. |
| Orchestrator.LaunchMeaning | src-tauri/src/lib.rs:1878-1912 | On launch the transcription thread gets the configured language and the translation thread the configured pair, and no setting changes. A model that cannot be fetched leaves the download's Error and no request. A found model is loaded from its path. |
| Orchestrator.LaunchedConsistent | src-tauri/src/lib.rs:1878-1912 | The launch steps keep the invariant. |
| Orchestrator.App.constructor | src-tauri/src/lib.rs:1758-1790 | The managed state starts as `Startup`. |
| Orchestrator.App.ToggleRecording | src-tauri/src/lib.rs:266-930 | The new state and the awaited reply are those of `Hotkey`. |
| Orchestrator.App.CancelRecording | src-tauri/src/lib.rs:1627-1673 | The new state is `Cancel`. |
| Orchestrator.App.TickDuration | src-tauri/src/lib.rs:357-378 | The new state is `Tick`. |
| Orchestrator.App.PasteText | src-tauri/src/lib.rs:839-873 | The new state is `PasteThen`. |
| Orchestrator.App.HandleTranscription | src-tauri/src/lib.rs:624-904 | The new state is `Transcribed`. |
| Orchestrator.App.Dictate | src-tauri/src/lib.rs:648-873 | The new state is `Dictated`. |
| Orchestrator.App.Translate | src-tauri/src/lib.rs:697-823 | The new state is `Translated`. |
| Orchestrator.App.AcceptCorrections | src-tauri/src/lib.rs:1338-1385 | The new state and result are those of `CorrectionsAccepted`. |
| Orchestrator.App.UndoCorrections | src-tauri/src/lib.rs:1386-1438 | The new state and result are those of `CorrectionsUndone`. |
| Orchestrator.App.AcceptTranslation | src-tauri/src/lib.rs:1440-1489 | The new state and result are those of `TranslationAccepted`. |
| Orchestrator.App.RejectTranslation | src-tauri/src/lib.rs:1491-1536 | The new state and result are those of `TranslationRejected`. |
| Orchestrator.App.LoadModel | src-tauri/src/lib.rs:1701-1756 | The new state is `Loaded`. |
| Orchestrator.App.SetupModel | src-tauri/src/lib.rs:933-995 | The new state is `SetUp`, and the disk becomes `SetUpDisk`. |
| Orchestrator.App.SelectModel | src-tauri/src/lib.rs:1145-1178 | The new state, result and disk are those of `ModelSelected` over the located model. |
| Orchestrator.App.SetLanguage | src-tauri/src/lib.rs:1542-1625 | The new state and result are those of `LanguageSet`. When both saves pass and a model switch is needed, the disk is `SetUpDisk` of the fitting model; otherwise the disk is unchanged. |
| Orchestrator.App.Launch | src-tauri/src/lib.rs:1878-1912 | The new state is `Launched`, and the disk becomes `SetUpDisk` of the selected model. |

## Left out

- File and configuration persistence is not modelled: the JSON of the vocabulary, history and config files, and their load and save errors.
  - Vocabulary and history are their in-memory lists.
  - A config save is an `Outcome` parameter.
  - Startup settings are a `Config` record.
- Threads, `emit_state`, the overlay window and the `preview_keys` foreign calls are not modelled. Each handler runs as one atomic step on the shared state.
- The orchestrator's streaming threads are not modelled (src-tauri/src/lib.rs:330-538): the partial-transcription and audio-level threads, with their sleeps. `recv_timeout` is a reply that is `None`.
- Audio capture, resampling and levels are not modelled; the capture is an `Outcome` and the recorded audio a sequence.
- Whisper inference and reqwest are oracles passed in as parameters: `Engine` and a function from URL to response.
- `Files.FileSystem`: write and create errors are not modelled; only a stream can fail mid-way.
- The `Downloading` progress value is not modelled: it is a float, and the model keeps 0.0. The progress callbacks' (downloaded, total) pairs are modelled as integers.
- `run_on_main_thread` and `spawn_blocking` failures are not modelled.
- u64 widths are not modelled, except `saturating_add` in the translation download (`TranslationModels.SatAdd`).
  - History ids and timestamps are `nat`.
  - The transcription download's `downloaded += len` is not wrapped.
- `setup_translation_model` (src-tauri/src/lib.rs:997-1066) is not modelled. The translation worker's `LoadModel` and the catalog download are modelled on their own.
- Not modelled: the get/set setter commands (src-tauri/src/lib.rs:1190-1300), `set_hotkey` and shortcut registration, `get_models` and `save_overlay_position`.
- The vocabulary and history Tauri commands are not modelled separately: the operations they wrap are `VocabularyStore` and `TranscriptionHistory`.
- Two calls in src-tauri/src/lib.rs are defined by neither worker nor history module, so they are only recorded:
  - `TranscriptionRequest::SetLanguage`, recorded in `languageHints`;
  - `history::update_most_recent_text`, recorded in `rewrites`.
- Text case and the regex `\b` word boundary are ASCII only. Positions count characters, which equal bytes only for ASCII text.
- Vocabulary.FindFrom: escaped phrases always compile, so the `Regex::new` error branch (src-tauri/src/vocabulary.rs:111-114) is not modelled.
- `models_dir` and `dirs::data_dir` panics are not modelled; the data directory is a parameter.
- The orchestrator downloads with `download_model` as written, so the reported bug shows where it bites (`Orchestrator.BrokenSetUpLoadsPartialFile`). The corrected download is defined and proved beside it (see Findings) but is not wired into `setup_model`.
- `Orchestrator.Launched`: the setup hook runs `setup_model` on its own thread. The model runs it after the accessibility check and the language messages. A launch may happen after any event, which covers more runs than the program has. The hook's overlay positioning and its start of the translation model are not modelled.
- `load_model` sets Idle even while a preview is pending. The pending texts then stay, and the preview commands still act on them. This is as the code is written, and the invariant still holds.

## Findings

| source | as written | input that shows it | evidently intended | confidence | as-written member | corrected member |
|---|---|---|---|---|---|---|
| src-tauri/src/transcription/model_manager.rs:118-127 | `download_model` creates the model file at its final path and streams into it. A chunk error returns `Err` but leaves the partial file there, so `model_exists` reports the model as installed from then on. | Model base.en; the server answers with no content length and the chunks `[Ok(1000), Err("connection reset")]`. `ggml-base.en.bin` is left holding 1000 bytes, and the next `setup_model` loads it rather than downloading. | Write to a temporary ".part" file and rename it only after the last chunk, as the translation download does (src-tauri/src/translation/model_manager.rs:88-101). | not executed | TranscriptionModels.InterruptedBaseEnDownload | TranscriptionModels.AtomicDownloadComplete |
