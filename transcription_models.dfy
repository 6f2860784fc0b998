/** The speech model catalog (src-tauri/src/transcription/model_manager.rs):
    nine whisper.cpp models, where their files live, which English-only and
    multilingual models stand for each other, and the download that
    streams a model file into place. `dirs::data_dir()` is the parameter
    `dataDir`; the network is a `server` function from URL to response. */
module TranscriptionModels {
  import opened Wrappers
  import opened Text
  import opened Files

  datatype ModelInfo = ModelInfo(name: string, filename: string, sizeMb: nat, englishOnly: bool)

  const AvailableModels: seq<ModelInfo> := [
    ModelInfo("tiny.en", "ggml-tiny.en.bin", 78, true),
    ModelInfo("tiny", "ggml-tiny.bin", 78, false),
    ModelInfo("base.en", "ggml-base.en.bin", 148, true),
    ModelInfo("base", "ggml-base.bin", 148, false),
    ModelInfo("small.en", "ggml-small.en.bin", 488, true),
    ModelInfo("small", "ggml-small.bin", 488, false),
    ModelInfo("medium.en", "ggml-medium.en.bin", 1530, true),
    ModelInfo("medium", "ggml-medium.bin", 1530, false),
    ModelInfo("base.en-q8_0", "ggml-base.en-q8_0.bin", 82, true)
  ]

  /** The display descriptions of the entries, in catalog order. */
  const Descriptions: seq<string> := [
    "Tiny English-only model \U{2014} fastest, least accurate",
    "Tiny multilingual model \U{2014} fastest, least accurate",
    "Base English-only model \U{2014} good balance of speed and accuracy",
    "Base multilingual model \U{2014} good balance of speed and accuracy",
    "Small English-only model \U{2014} more accurate, slower",
    "Small multilingual model \U{2014} more accurate, slower",
    "Medium English-only model \U{2014} high accuracy, slow",
    "Medium multilingual model \U{2014} high accuracy, slow",
    "Base English-only quantized model \U{2014} fast with good accuracy"
  ]

  const HfBaseUrl := "https://huggingface.co/ggerganov/whisper.cpp/resolve/main"

  /** The catalog's names, in catalog order, and its English-only and
      multilingual names. */
  const Names: seq<string> :=
    ["tiny.en", "tiny", "base.en", "base", "small.en", "small", "medium.en", "medium", "base.en-q8_0"]
  const EnglishOnlyNames: set<string> := {"tiny.en", "base.en", "small.en", "medium.en", "base.en-q8_0"}
  const MultilingualNames: set<string> := {"tiny", "base", "small", "medium"}

  /** Two names with different lengths or first letters differ. */
  function Key(name: string): (int, char)
  {
    (|name|, if name == [] then ' ' else name[0])
  }

  predicate Distinct(names: seq<string>)
  {
    forall i, j :: 0 <= i < j < |names| ==> names[i] != names[j]
  }

  predicate KeysDistinct(names: seq<string>)
  {
    forall i, j :: 0 <= i < j < |names| ==> Key(names[i]) != Key(names[j])
  }

  lemma KeysDistinctDistinct(names: seq<string>)
    requires KeysDistinct(names)
    ensures Distinct(names)
  {
    forall i, j | 0 <= i < j < |names| ensures names[i] != names[j] {
      assert Key(names[i]) != Key(names[j]);
    }
  }

  /** Entry k of `ms` is named `names[k]`. */
  predicate Listed(ms: seq<ModelInfo>, names: seq<string>)
  {
    |ms| == |names| && forall k :: 0 <= k < |ms| ==> ms[k].name == names[k]
  }

  /** Every entry's file is "ggml-" + name + ".bin". */
  predicate FilesFollowNames(ms: seq<ModelInfo>)
  {
    FilesFollowNamesIn(ms, 0, |ms|)
  }

  predicate FileFollowsName(m: ModelInfo)
  {
    m.filename == "ggml-" + m.name + ".bin"
  }

  /** The entries at positions `lo` to `hi` follow the file naming rule. */
  predicate FilesFollowNamesIn(ms: seq<ModelInfo>, lo: nat, hi: nat)
  {
    forall k :: lo <= k < hi && k < |ms| ==> FileFollowsName(ms[k])
  }

  predicate FlagsByLength(ms: seq<ModelInfo>)
  {
    forall k :: 0 <= k < |ms| ==> (ms[k].englishOnly <==> |ms[k].name| >= 7)
  }

  function ModelsDir(dataDir: string): string
  {
    Join(Join(dataDir, "com.wren.app"), "models")
  }

  /** The first entry of `ms` with the given name. */
  function FindIn(ms: seq<ModelInfo>, name: string): (r: Option<ModelInfo>)
    ensures r.Some? ==> r.value in ms && r.value.name == name
    ensures r.None? <==> forall k :: 0 <= k < |ms| ==> ms[k].name != name
  {
    if ms == [] then None
    else if ms[0].name == name then Some(ms[0])
    else FindIn(ms[1..], name)
  }

  /** `find_model`. */
  function FindModel(name: string): Option<ModelInfo>
  {
    FindIn(AvailableModels, name)
  }

  /** The catalog names are pairwise distinct. */
  lemma NamesDistinct()
    ensures Distinct(Names)
  {
    var keys := [(7, 't'), (4, 't'), (7, 'b'), (4, 'b'), (8, 's'), (5, 's'), (9, 'm'), (6, 'm'), (12, 'b')];
    assert forall i :: 0 <= i < |Names| ==> Key(Names[i]) == keys[i];
    assert KeysDistinct(Names);
    KeysDistinctDistinct(Names);
  }

  /** Each model's file is named "ggml-" + its name + ".bin". */
  lemma FilenamesFollowNames()
    ensures FilesFollowNames(AvailableModels)
  {
    TinyFilesFollowNames();
    BaseFilesFollowNames();
    SmallFilesFollowNames();
    MediumFilesFollowNames();
    QuantizedFileFollowsName();
  }

  lemma TinyFilesFollowNames()
    ensures FilesFollowNamesIn(AvailableModels, 0, 2)
  {
    assert FileFollowsName(AvailableModels[0]);
    assert FileFollowsName(AvailableModels[1]);
  }

  lemma BaseFilesFollowNames()
    ensures FilesFollowNamesIn(AvailableModels, 2, 4)
  {
    assert FileFollowsName(AvailableModels[2]);
    assert FileFollowsName(AvailableModels[3]);
  }

  lemma QuantizedFileFollowsName()
    ensures FilesFollowNamesIn(AvailableModels, 8, 9)
  {
    assert FileFollowsName(AvailableModels[8]);
  }

  lemma SmallFilesFollowNames()
    ensures FilesFollowNamesIn(AvailableModels, 4, 6)
  {
    assert FileFollowsName(AvailableModels[4]);
    assert FileFollowsName(AvailableModels[5]);
  }

  lemma MediumFilesFollowNames()
    ensures FilesFollowNamesIn(AvailableModels, 6, 8)
  {
    assert FileFollowsName(AvailableModels[6]);
    assert FileFollowsName(AvailableModels[7]);
  }

  lemma CatalogListed()
    ensures Listed(AvailableModels, Names)
  {
  }

  /** An entry is English-only exactly when its name is long. */
  lemma CatalogFlags()
    ensures FlagsByLength(AvailableModels)
  {
  }

  /** The English-only names are long catalog names, the multilingual
      names short ones. */
  lemma NameSetsListed()
    ensures forall x :: x in EnglishOnlyNames ==> x in Names && |x| >= 7
    ensures forall x :: x in MultilingualNames ==> x in Names && |x| < 7
  {
  }

  /** Every catalog name is English-only or multilingual. */
  lemma NamesClassified()
    ensures forall k :: 0 <= k < |Names| ==> Names[k] in EnglishOnlyNames || Names[k] in MultilingualNames
  {
    assert Names[0] in EnglishOnlyNames && Names[1] in MultilingualNames;
    assert Names[2] in EnglishOnlyNames && Names[3] in MultilingualNames;
    assert Names[4] in EnglishOnlyNames && Names[5] in MultilingualNames;
    assert Names[6] in EnglishOnlyNames && Names[7] in MultilingualNames;
    assert Names[8] in EnglishOnlyNames;
  }

  /** The catalog is split into its English-only and multilingual names. */
  lemma CatalogSplit(name: string)
    ensures name in Names <==> name in EnglishOnlyNames || name in MultilingualNames
    ensures !(name in EnglishOnlyNames && name in MultilingualNames)
  {
    NameSetsListed();
    NamesClassified();
  }

  /** A name is found exactly when it is catalogued, and then with an entry
      of that name. */
  lemma FindModelFound(name: string)
    ensures FindModel(name).Some? <==> name in Names
    ensures FindModel(name).Some? ==> FindModel(name).value.name == name
    ensures FindModel(name).Some? ==> exists k :: 0 <= k < |AvailableModels| && AvailableModels[k] == FindModel(name).value
  {
    CatalogListed();
    if FindModel(name).None? {
      forall k | 0 <= k < |Names| ensures Names[k] != name {
        assert AvailableModels[k].name == Names[k];
      }
    }
  }

  /** The model found for a name has that name's file and flag. */
  lemma FindModelCatalogued(name: string)
    ensures FindModel(name).Some? <==> name in Names
    ensures FindModel(name).Some? ==>
              FindModel(name).value.name == name &&
              FindModel(name).value.filename == "ggml-" + name + ".bin" &&
              (FindModel(name).value.englishOnly <==> name in EnglishOnlyNames)
  {
    FindModelFound(name);
    if FindModel(name).Some? {
      var k :| 0 <= k < |AvailableModels| && AvailableModels[k] == FindModel(name).value;
      FilenamesFollowNames();
      CatalogFlags();
      CatalogSplit(name);
      NameSetsListed();
      assert AvailableModels[k].englishOnly <==> |name| >= 7;
    }
  }

  /** `model_path`. */
  function ModelPath(dataDir: string, name: string): Option<string>
  {
    match FindModel(name)
    case Some(m) => Some(Join(ModelsDir(dataDir), m.filename))
    case None => None
  }

  /** The path is None exactly for names outside the catalog, and is
      otherwise the models directory joined with the model's file. */
  lemma ModelPathCatalogued(dataDir: string, name: string)
    ensures ModelPath(dataDir, name).None? <==> name !in Names
    ensures ModelPath(dataDir, name).Some? ==>
              ModelPath(dataDir, name).value == Join(ModelsDir(dataDir), "ggml-" + name + ".bin")
  {
    FindModelCatalogued(name);
  }

  /** `model_exists`. */
  predicate ModelExists(fs: FileSystem, dataDir: string, name: string)
    reads fs
  {
    match FindModel(name)
    case Some(m) => fs.Exists(Join(ModelsDir(dataDir), m.filename))
    case None => false
  }

  /** A model exists exactly when it is catalogued and something is at its path. */
  lemma ModelExistsMeaning(fs: FileSystem, dataDir: string, name: string)
    ensures ModelExists(fs, dataDir, name) <==>
              name in Names && fs.Exists(Join(ModelsDir(dataDir), "ggml-" + name + ".bin"))
  {
    FindModelCatalogued(name);
  }

  /** `multilingual_equivalent`. */
  function MultilingualEquivalent(name: string): Option<string>
  {
    if name == "tiny.en" then Some("tiny")
    else if name == "base.en" || name == "base.en-q8_0" then Some("base")
    else if name == "small.en" then Some("small")
    else if name == "medium.en" then Some("medium")
    else None
  }

  /** `english_equivalent`. */
  function EnglishEquivalent(name: string): Option<string>
  {
    if name == "tiny" then Some("tiny.en")
    else if name == "base" then Some("base.en")
    else if name == "small" then Some("small.en")
    else if name == "medium" then Some("medium.en")
    else None
  }

  /** `is_english_only`. */
  predicate IsEnglishOnly(name: string)
  {
    match FindModel(name)
    case Some(m) => m.englishOnly
    case None => false
  }

  /** The flag of the catalog entry, and false for unknown names. */
  lemma IsEnglishOnlyMeaning(name: string)
    ensures IsEnglishOnly(name) <==> name in EnglishOnlyNames
    ensures name !in Names ==> !IsEnglishOnly(name)
  {
    FindModelCatalogued(name);
    if name in EnglishOnlyNames {
      assert name in Names;
    }
  }

  /** The equivalence tables in terms of the name sets. */
  lemma EquivalentsBetweenSets(name: string)
    ensures MultilingualEquivalent(name).Some? <==> name in EnglishOnlyNames
    ensures MultilingualEquivalent(name).Some? ==> MultilingualEquivalent(name).value in MultilingualNames
    ensures EnglishEquivalent(name).Some? <==> name in MultilingualNames
    ensures EnglishEquivalent(name).Some? ==> EnglishEquivalent(name).value in EnglishOnlyNames
  {
  }

  /** The multilingual equivalent is defined exactly on the English-only
      models, and names a catalogued multilingual model. */
  lemma MultilingualEquivalentDomain(name: string)
    ensures MultilingualEquivalent(name).Some? <==> IsEnglishOnly(name)
    ensures MultilingualEquivalent(name).Some? ==>
              FindModel(MultilingualEquivalent(name).value).Some? &&
              !IsEnglishOnly(MultilingualEquivalent(name).value)
  {
    EquivalentsBetweenSets(name);
    IsEnglishOnlyMeaning(name);
    if MultilingualEquivalent(name).Some? {
      SetMemberCatalogued(MultilingualEquivalent(name).value);
    }
  }

  /** The English equivalent is defined exactly on the multilingual
      models, and names a catalogued English-only model. */
  lemma EnglishEquivalentDomain(name: string)
    ensures EnglishEquivalent(name).Some? <==> FindModel(name).Some? && !IsEnglishOnly(name)
    ensures EnglishEquivalent(name).Some? ==>
              FindModel(EnglishEquivalent(name).value).Some? && IsEnglishOnly(EnglishEquivalent(name).value)
  {
    EquivalentsBetweenSets(name);
    SetMemberCatalogued(name);
    if EnglishEquivalent(name).Some? {
      SetMemberCatalogued(EnglishEquivalent(name).value);
    }
  }

  /** A name is catalogued and multilingual exactly when it is in the
      multilingual set. */
  lemma SetMemberCatalogued(name: string)
    ensures FindModel(name).Some? && !IsEnglishOnly(name) <==> name in MultilingualNames
    ensures IsEnglishOnly(name) <==> name in EnglishOnlyNames
    ensures IsEnglishOnly(name) ==> FindModel(name).Some?
  {
    FindModelFound(name);
    IsEnglishOnlyMeaning(name);
    CatalogSplit(name);
  }

  /** Going to the multilingual model and back returns the model itself,
      except for the quantized base model, which comes back as "base.en";
      the other way round is always the identity. */
  lemma EquivalentsRoundTrip(name: string)
    ensures MultilingualEquivalent(name).Some? ==>
              (EnglishEquivalent(MultilingualEquivalent(name).value) == Some(name) <==> name != "base.en-q8_0")
    ensures EnglishEquivalent(name).Some? ==>
              MultilingualEquivalent(EnglishEquivalent(name).value) == Some(name)
  {
    if name == "base.en-q8_0" {
      assert Key("base.en") != Key(name);
    }
  }

  // ---------------------------------------------------------- the download

  function ModelUrl(m: ModelInfo): string
  {
    HfBaseUrl + "/" + m.filename
  }

  /** What writing a body stream to an open file of `start` bytes leaves:
      the file's size, the progress reports, and the error that cut the
      stream short, if any. */
  datatype Streamed = Streamed(size: nat, reports: seq<Progress>, error: Option<string>)

  function Stream(chunks: seq<Result<nat>>, start: nat, total: nat): Streamed
  {
    if chunks == [] then Streamed(start, [], None)
    else if chunks[0].Err? then Streamed(start, [], Some(chunks[0].error))
    else
      var rest := Stream(chunks[1..], start + chunks[0].value, total);
      Streamed(rest.size, [Progress(start + chunks[0].value, total)] + rest.reports, rest.error)
  }

  /** The stream fails exactly when one of its chunks is an error, and
      otherwise the file grows by the stream's whole size. */
  lemma {:induction false} StreamCompletes(chunks: seq<Result<nat>>, start: nat, total: nat)
    ensures Stream(chunks, start, total).error.None? <==> StreamOk(chunks)
    ensures StreamOk(chunks) ==> Stream(chunks, start, total).size == start + StreamSize(chunks)
    ensures start <= Stream(chunks, start, total).size
  {
    if chunks != [] {
      if chunks[0].Ok? {
        StreamCompletes(chunks[1..], start + chunks[0].value, total);
        assert StreamOk(chunks) <==> StreamOk(chunks[1..]) by {
          if StreamOk(chunks[1..]) {
            forall k | 0 <= k < |chunks| ensures chunks[k].Ok? {
              if k > 0 { assert chunks[k] == chunks[1..][k - 1]; }
            }
          }
        }
      } else {
        assert !chunks[0].Ok?;
      }
    }
  }

  /** Every report carries the announced total and a running sum of chunk
      lengths between `start` and the final size; the sums never decrease
      and the last one is the final size. */
  predicate ReportsSound(s: Streamed, start: nat, total: nat)
  {
    (forall k :: 0 <= k < |s.reports| ==>
       s.reports[k].total == total && start <= s.reports[k].downloaded <= s.size) &&
    (forall k :: 0 < k < |s.reports| ==> s.reports[k - 1].downloaded <= s.reports[k].downloaded) &&
    (s.reports != [] ==> s.reports[|s.reports| - 1].downloaded == s.size)
  }

  /** The stream as `download_model`'s loop sees it: one report per chunk
      before the first error, the k-th carrying the running sum of the
      first k + 1 chunk lengths; the file ends at the sum of those chunks,
      and the error, if any, is the first failing chunk's. */
  predicate ReportsRunningSum(s: Streamed, chunks: seq<Result<nat>>, start: nat, total: nat)
  {
    var n := LeadingOk(chunks);
    |s.reports| == n &&
    (forall k :: 0 <= k < n ==> s.reports[k] == Progress(start + StreamSize(chunks[..k + 1]), total)) &&
    s.size == start + StreamSize(chunks[..n]) &&
    s.error == (if n < |chunks| then Some(chunks[n].error) else None)
  }

  lemma {:induction false} StreamReportsGrow(chunks: seq<Result<nat>>, start: nat, total: nat)
    ensures ReportsSound(Stream(chunks, start, total), start, total)
  {
    if chunks != [] && chunks[0].Ok? {
      var next := start + chunks[0].value;
      StreamReportsGrow(chunks[1..], next, total);
      StreamCompletes(chunks[1..], next, total);
      var rest := Stream(chunks[1..], next, total);
      var r := Stream(chunks, start, total);
      assert r.size == rest.size;
      assert r.reports == [Progress(next, total)] + rest.reports;
      forall k | 0 < k < |r.reports|
        ensures r.reports[k - 1].downloaded <= r.reports[k].downloaded
      {
        assert r.reports[k] == rest.reports[k - 1];
        if k > 1 { assert r.reports[k - 1] == rest.reports[k - 2]; }
      }
    }
  }

  /** The reports, the file's size and the error of a stream are exactly
      the running sums of its chunks up to the first error. */
  lemma {:induction false} StreamRunningSum(chunks: seq<Result<nat>>, start: nat, total: nat)
    ensures ReportsRunningSum(Stream(chunks, start, total), chunks, start, total)
  {
    if chunks != [] && chunks[0].Ok? {
      var next := start + chunks[0].value;
      StreamRunningSum(chunks[1..], next, total);
      var rest := Stream(chunks[1..], next, total);
      var r := Stream(chunks, start, total);
      var n := LeadingOk(chunks);
      assert n == 1 + LeadingOk(chunks[1..]);
      assert r.reports == [Progress(next, total)] + rest.reports;
      forall k | 0 <= k < n
        ensures r.reports[k] == Progress(start + StreamSize(chunks[..k + 1]), total)
      {
        StreamSizePrefix(chunks, k + 1);
        if k > 0 { assert r.reports[k] == rest.reports[k - 1]; }
      }
      StreamSizePrefix(chunks, n);
      assert n < |chunks| ==> chunks[n] == chunks[1..][n - 1];
    }
  }

  /** The outcome of a download: the result, the files afterwards and the
      progress reports. */
  datatype Fetched = Fetched(result: Result<string>, files: map<string, nat>, progress: seq<Progress>)

  /** `download_model` as written: the body is streamed straight into the
      model's own file, which a failed stream leaves half-written. */
  function Download(files: map<string, nat>, dataDir: string, name: string,
                    server: string -> Result<Response>): Fetched
  {
    match FindModel(name)
    case None => Fetched(Err("Unknown model: " + name), files, [])
    case Some(m) => FetchInto(files, ModelsDir(dataDir), m, server)
  }

  /** Fetching the catalogued model `m` into the directory `dir`. */
  function FetchInto(files: map<string, nat>, dir: string, m: ModelInfo,
                     server: string -> Result<Response>): Fetched
  {
    var dest := Join(dir, m.filename);
    match server(ModelUrl(m))
    case Err(e) => Fetched(Err(e), files, [])
    case Ok(response) =>
      var s := Stream(response.chunks, 0, LengthOrZero(response.contentLength));
      Fetched(if s.error.None? then Ok(dest) else Err(s.error.value), files[dest := s.size], s.reports)
  }

  /** An unknown name fails before anything is created, and a successful
      download leaves the whole body in the model's file, so that the
      model then exists. */
  lemma DownloadMeaning(files: map<string, nat>, dataDir: string, name: string,
                        server: string -> Result<Response>)
    ensures name !in Names ==>
              Download(files, dataDir, name, server) == Fetched(Err("Unknown model: " + name), files, [])
    ensures Download(files, dataDir, name, server).result.Ok? ==>
              name in Names &&
              Download(files, dataDir, name, server).result.value == ModelPath(dataDir, name).value &&
              ModelPath(dataDir, name).value in Download(files, dataDir, name, server).files &&
              var response := server(ModelUrl(FindModel(name).value)).value;
              Download(files, dataDir, name, server).files[ModelPath(dataDir, name).value] == StreamSize(response.chunks)
  {
    FindModelCatalogued(name);
    if name in Names {
      var m := FindModel(name).value;
      var response := server(ModelUrl(m));
      if response.Ok? {
        StreamCompletes(response.value.chunks, 0, LengthOrZero(response.value.contentLength));
      }
    }
  }

  /** The progress callback is called once per chunk received before the
      first error, with the bytes written so far and the announced content
      length (0 when the server announces none); the model's file is left
      holding exactly those bytes, whether the stream ended or broke. */
  lemma DownloadReportsProgress(files: map<string, nat>, dataDir: string, name: string,
                                server: string -> Result<Response>)
    ensures FindModel(name).None? || server(ModelUrl(FindModel(name).value)).Err? ==>
              Download(files, dataDir, name, server).progress == []
    ensures FindModel(name).Some? && server(ModelUrl(FindModel(name).value)).Ok? ==>
              var response := server(ModelUrl(FindModel(name).value)).value;
              var after := Download(files, dataDir, name, server);
              var n := LeadingOk(response.chunks);
              |after.progress| == n &&
              (forall k :: 0 <= k < n ==>
                 after.progress[k] == Progress(StreamSize(response.chunks[..k + 1]), LengthOrZero(response.contentLength))) &&
              after.files[ModelPath(dataDir, name).value] == StreamSize(response.chunks[..n])
  {
    if FindModel(name).Some? {
      var response := server(ModelUrl(FindModel(name).value));
      if response.Ok? {
        StreamRunningSum(response.value.chunks, 0, LengthOrZero(response.value.contentLength));
      }
    }
  }

  /** A stream that fails part-way makes the download fail, yet leaves
      the model's file at its path, where `model_exists` counts it as
      installed. */
  lemma InterruptedDownloadLooksInstalled(files: map<string, nat>, dataDir: string, name: string,
                                          server: string -> Result<Response>)
    requires name in Names
    requires FindModel(name).Some? && server(ModelUrl(FindModel(name).value)).Ok?
    requires !StreamOk(server(ModelUrl(FindModel(name).value)).value.chunks)
    ensures Download(files, dataDir, name, server).result.Err?
    ensures ModelPath(dataDir, name).Some? && ModelPath(dataDir, name).value in Download(files, dataDir, name, server).files
  {
    var response := server(ModelUrl(FindModel(name).value)).value;
    StreamCompletes(response.chunks, 0, LengthOrZero(response.contentLength));
  }

  /** A server whose connection resets after the first 1000 bytes. */
  function ResetAfter1000(url: string): Result<Response>
  {
    Ok(Response(None, [Ok(1000), Err("connection reset")]))
  }

  /** base.en is the third catalog entry. */
  lemma FindBaseEn()
    ensures FindModel("base.en") == Some(AvailableModels[2])
  {
    assert AvailableModels[0].name[0] != "base.en"[0];
    assert AvailableModels[1].name[0] != "base.en"[0];
    assert AvailableModels[1..][1..] == AvailableModels[2..];
  }

  /** The reset stream writes 1000 bytes, then fails. */
  lemma ResetStream(url: string)
    ensures Stream(ResetAfter1000(url).value.chunks, 0, 0) ==
              Streamed(1000, [Progress(1000, 0)], Some("connection reset"))
  {
    var chunks := ResetAfter1000(url).value.chunks;
    assert chunks[1..] == [Err("connection reset")];
  }

  /** One such input: the connection resets after 1000 of base.en's bytes.
      The download reports the error, yet `ggml-base.en.bin` is left with
      those 1000 bytes, so the next start finds the model installed. */
  lemma InterruptedBaseEnDownload(files: map<string, nat>, dataDir: string)
    ensures Download(files, dataDir, "base.en", ResetAfter1000).result == Err("connection reset")
    ensures Download(files, dataDir, "base.en", ResetAfter1000).files ==
              files[Join(ModelsDir(dataDir), "ggml-base.en.bin") := 1000]
  {
    FindBaseEn();
    ResetStream(ModelUrl(AvailableModels[2]));
  }

  /** `download_model`, streaming the body into the model's file. */
  method DownloadModel(fs: FileSystem, dataDir: string, name: string, server: string -> Result<Response>)
    returns (r: Result<string>, progress: seq<Progress>)
    modifies fs
    ensures fs.dirs == if FindModel(name).Some? then old(fs.dirs) + {ModelsDir(dataDir)} else old(fs.dirs)
    ensures Fetched(r, fs.files, progress) == Download(old(fs.files), dataDir, name, server)
  {
    var found := FindModel(name);
    if found.None? {
      return Err("Unknown model: " + name), [];
    }
    var dir := ModelsDir(dataDir);
    fs.CreateDirAll(dir);
    r, progress := FetchModel(fs, dir, found.value, server);
  }

  /** The part of `download_model` after the lookup and `create_dir_all`. */
  method FetchModel(fs: FileSystem, dir: string, m: ModelInfo, server: string -> Result<Response>)
    returns (r: Result<string>, progress: seq<Progress>)
    modifies fs
    ensures fs.dirs == old(fs.dirs)
    ensures Fetched(r, fs.files, progress) == FetchInto(old(fs.files), dir, m, server)
  {
    var dest := Join(dir, m.filename);
    var response := server(ModelUrl(m));
    if response.Err? {
      return Err(response.error), [];
    }
    fs.Create(dest);
    var size, error;
    size, progress, error := StreamInto(fs, dest, response.value.chunks, LengthOrZero(response.value.contentLength));
    r := if error.None? then Ok(dest) else Err(error.value);
  }

  /** The `while let Some(chunk)` loop: each chunk is appended to the file
      at `path` and reported with the running total; an error ends it. */
  method StreamInto(fs: FileSystem, path: string, chunks: seq<Result<nat>>, total: nat)
    returns (size: nat, progress: seq<Progress>, error: Option<string>)
    requires path in fs.files && fs.files[path] == 0
    modifies fs
    ensures Streamed(size, progress, error) == Stream(chunks, 0, total)
    ensures fs.dirs == old(fs.dirs) && fs.files == old(fs.files)[path := size]
  {
    var i := 0;
    size, progress := 0, [];
    assert chunks[0..] == chunks;
    while i < |chunks| && chunks[i].Ok?
      invariant i <= |chunks|
      invariant fs.dirs == old(fs.dirs) && fs.files == old(fs.files)[path := size]
      invariant Stream(chunks, 0, total) ==
                Streamed(Stream(chunks[i..], size, total).size,
                         progress + Stream(chunks[i..], size, total).reports,
                         Stream(chunks[i..], size, total).error)
      decreases |chunks| - i
    {
      assert chunks[i..][0] == chunks[i] && chunks[i..][1..] == chunks[i + 1..];
      fs.Append(path, chunks[i].value);
      size := size + chunks[i].value;
      progress := progress + [Progress(size, total)];
      i := i + 1;
    }
    if i < |chunks| {
      assert chunks[i..][0] == chunks[i];
      error := Some(chunks[i].error);
    } else {
      assert chunks[i..] == [];
      error := None;
    }
  }

  // ------------------------------------- the download, written atomically

  /** Where the body is streamed before it is complete: the model's file
      with its extension replaced by "part". */
  function PartFile(m: ModelInfo): string
  {
    WithExtension(m.filename, "part")
  }

  /** The download with the body streamed into the `.part` file and renamed
      onto the model's file only once the stream ends without error (the
      way the translation model manager writes its files). */
  function DownloadAtomic(files: map<string, nat>, dataDir: string, name: string,
                          server: string -> Result<Response>): Fetched
  {
    match FindModel(name)
    case None => Fetched(Err("Unknown model: " + name), files, [])
    case Some(m) => FetchAtomic(files, ModelsDir(dataDir), m, server)
  }

  /** Fetching the catalogued model `m` through its `.part` file in `dir`. */
  function FetchAtomic(files: map<string, nat>, dir: string, m: ModelInfo,
                       server: string -> Result<Response>): Fetched
  {
    var dest := Join(dir, m.filename);
    var part := Join(dir, PartFile(m));
    match server(ModelUrl(m))
    case Err(e) => Fetched(Err(e), files, [])
    case Ok(response) =>
      var s := Stream(response.chunks, 0, LengthOrZero(response.contentLength));
      if s.error.None? then Fetched(Ok(dest), (files - {part})[dest := s.size], s.reports)
      else Fetched(Err(s.error.value), files[part := s.size], s.reports)
  }

  /** No file named like a catalogued model is its own `.part` file. */
  lemma PartFileDiffers(m: ModelInfo)
    requires m.filename == "ggml-" + m.name + ".bin"
    ensures PartFile(m) != m.filename
  {
    var f := m.filename;
    var stem := "ggml-" + m.name;
    assert f == stem + ".bin";
    assert f[|stem|] == '.' && f[|stem| + 1] == 'b' && f[|stem| + 2] == 'i' && f[|stem| + 3] == 'n';
    assert LastDot(f) == Some(|stem|);
    var w := PartFile(m);
    assert w == f[..|stem|] + "." + "part";
    assert w[|w| - 1] == 't' && f[|f| - 1] == 'n';
  }

  /** Written atomically, a model file is never half-written: a failed
      download leaves the model's file as it was, and a successful one
      leaves the whole body there. */
  lemma AtomicDownloadComplete(files: map<string, nat>, dataDir: string, name: string,
                               server: string -> Result<Response>)
    requires FindModel(name).Some?
    ensures var dest := ModelPath(dataDir, name).value;
            var after := DownloadAtomic(files, dataDir, name, server);
            (after.result.Err? ==> (dest in after.files <==> dest in files) &&
                                   (dest in files ==> after.files[dest] == files[dest])) &&
            (after.result.Ok? ==> dest in after.files &&
                                  after.files[dest] == StreamSize(server(ModelUrl(FindModel(name).value)).value.chunks))
  {
    FindModelCatalogued(name);
    var m := FindModel(name).value;
    PartFileDiffers(m);
    JoinInjective(ModelsDir(dataDir), PartFile(m), m.filename);
    var response := server(ModelUrl(m));
    if response.Ok? {
      StreamCompletes(response.value.chunks, 0, LengthOrZero(response.value.contentLength));
    }
  }

  /** `download_model` with the `.part` file and rename. */
  method DownloadModelAtomic(fs: FileSystem, dataDir: string, name: string, server: string -> Result<Response>)
    returns (r: Result<string>, progress: seq<Progress>)
    modifies fs
    ensures fs.dirs == if FindModel(name).Some? then old(fs.dirs) + {ModelsDir(dataDir)} else old(fs.dirs)
    ensures Fetched(r, fs.files, progress) == DownloadAtomic(old(fs.files), dataDir, name, server)
  {
    var found := FindModel(name);
    if found.None? {
      return Err("Unknown model: " + name), [];
    }
    var dir := ModelsDir(dataDir);
    fs.CreateDirAll(dir);
    r, progress := FetchModelAtomic(fs, dir, found.value, server);
  }

  /** Streaming into the `.part` file, then renaming it onto the model's file. */
  method FetchModelAtomic(fs: FileSystem, dir: string, m: ModelInfo, server: string -> Result<Response>)
    returns (r: Result<string>, progress: seq<Progress>)
    modifies fs
    ensures fs.dirs == old(fs.dirs)
    ensures Fetched(r, fs.files, progress) == FetchAtomic(old(fs.files), dir, m, server)
  {
    var dest := Join(dir, m.filename);
    var part := Join(dir, PartFile(m));
    var response := server(ModelUrl(m));
    if response.Err? {
      return Err(response.error), [];
    }
    fs.Create(part);
    var size, error;
    size, progress, error := StreamInto(fs, part, response.value.chunks, LengthOrZero(response.value.contentLength));
    if error.Some? {
      return Err(error.value), progress;
    }
    fs.Rename(part, dest);
    r := Ok(dest);
  }
}
