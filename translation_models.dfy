/** The translation model catalog (src-tauri/src/translation/model_manager.rs):
    one CTranslate2 NLLB model made of four files, where it lives, whether
    it is installed, and the download that fetches each missing file into
    a `.part` file, renames it into place, and keeps saturating byte
    totals for the progress callback. `dirs::data_dir()` is the parameter
    `dataDir`; the network is a `server` function from URL to response. */
module TranslationModels {
  import opened Wrappers
  import opened Text
  import opened Files

  const DefaultTranslationModel: string := "nllb-200-distilled-600M-int8"
  const HfBaseUrl: string := "https://huggingface.co"

  /** The largest `u64`, where the byte totals saturate. */
  const U64Max: nat := 0xFFFF_FFFF_FFFF_FFFF

  datatype TranslationModelInfo = TranslationModelInfo(name: string, repo: string, requiredFiles: seq<string>)

  const NllbFiles: seq<string> := ["config.json", "model.bin", "shared_vocabulary.json", "tokenizer.json"]

  const AvailableTranslationModels: seq<TranslationModelInfo> :=
    [TranslationModelInfo(DefaultTranslationModel, "JustFrederik/nllb-200-distilled-600M-ct2-int8", NllbFiles)]

  // ------------------------------------------------------------ the catalog

  function ModelsDir(dataDir: string): string
  {
    Join(Join(Join(dataDir, "com.wren.app"), "models"), "nllb")
  }

  /** `model_path`: any name, catalogued or not, under the models directory. */
  function ModelPath(dataDir: string, name: string): string
  {
    Join(ModelsDir(dataDir), name)
  }

  /** Different names have different paths. */
  lemma ModelPathInjective(dataDir: string, a: string, b: string)
    ensures ModelPath(dataDir, a) == ModelPath(dataDir, b) <==> a == b
  {
    JoinInjective(ModelsDir(dataDir), a, b);
  }

  /** `Iterator::find` by name. */
  function FindIn(ms: seq<TranslationModelInfo>, name: string): (r: Option<TranslationModelInfo>)
    ensures r.Some? ==> r.value in ms && r.value.name == name
    ensures r.None? <==> forall k :: 0 <= k < |ms| ==> ms[k].name != name
  {
    if ms == [] then None
    else if ms[0].name == name then Some(ms[0])
    else FindIn(ms[1..], name)
  }

  /** `find_model`. */
  function FindModel(name: string): Option<TranslationModelInfo>
  {
    FindIn(AvailableTranslationModels, name)
  }

  /** Only the default model is catalogued, with the NLLB repository and files. */
  lemma FindModelMeaning(name: string)
    ensures FindModel(name).Some? <==> name == DefaultTranslationModel
    ensures FindModel(name).Some? ==> FindModel(name).value == AvailableTranslationModels[0]
  {
  }

  /** `model_exists`, over the directories and files of the file system. */
  predicate ModelExists(dirs: set<string>, files: map<string, nat>, dataDir: string, name: string)
  {
    match FindModel(name)
    case Some(m) => AllPresent(dirs, files, ModelPath(dataDir, m.name), m.requiredFiles)
    case None => false
  }

  /** Every one of `names` is present in `dir`. */
  predicate AllPresent(dirs: set<string>, files: map<string, nat>, dir: string, names: seq<string>)
  {
    forall f :: f in names ==> PathExists(dirs, files, Join(dir, f))
  }

  /** A model is installed exactly when it is the catalogued model and its
      four files are all under its path. */
  lemma ModelExistsMeaning(dirs: set<string>, files: map<string, nat>, dataDir: string, name: string)
    ensures ModelExists(dirs, files, dataDir, name) <==>
              name == DefaultTranslationModel && AllPresent(dirs, files, ModelPath(dataDir, name), NllbFiles)
  {
    FindModelMeaning(name);
  }

  /** `resolve_url`. */
  function ResolveUrl(repo: string, filename: string): string
  {
    HfBaseUrl + "/" + repo + "/resolve/main/" + filename + "?download=true"
  }

  /** Different files of one repository have different URLs. */
  lemma ResolveUrlInjective(repo: string, a: string, b: string)
    ensures ResolveUrl(repo, a) == ResolveUrl(repo, b) <==> a == b
  {
    if ResolveUrl(repo, a) == ResolveUrl(repo, b) {
      var prefix := HfBaseUrl + "/" + repo + "/resolve/main/";
      var suffix := "?download=true";
      assert ResolveUrl(repo, a) == prefix + a + suffix;
      assert ResolveUrl(repo, b) == prefix + b + suffix;
      assert a == ResolveUrl(repo, a)[|prefix|..|prefix| + |a|];
      assert b == ResolveUrl(repo, b)[|prefix|..|prefix| + |b|];
    }
  }

  // -------------------------------------------------- saturating byte totals

  /** `u64::saturating_add`. */
  function SatAdd(a: nat, b: nat): (r: nat)
    ensures r <= a + b && (a + b <= U64Max ==> r == a + b)
    ensures a <= U64Max ==> a <= r <= U64Max
  {
    if a + b <= U64Max then a + b else U64Max
  }

  /** The progress reports never go down, in either the bytes received or
      the expected total. */
  predicate Monotone(rs: seq<Progress>)
  {
    forall i, j :: 0 <= i < j < |rs| ==> rs[i].downloaded <= rs[j].downloaded && rs[i].total <= rs[j].total
  }

  /** Every report lies between the given bounds. */
  predicate Within(rs: seq<Progress>, d0: nat, d1: nat, e0: nat, e1: nat)
  {
    forall k :: 0 <= k < |rs| ==> d0 <= rs[k].downloaded <= d1 && e0 <= rs[k].total <= e1
  }

  lemma MonotoneAppend(a: seq<Progress>, b: seq<Progress>, d0: nat, d1: nat, d2: nat, e0: nat, e1: nat, e2: nat)
    requires d0 <= d1 <= d2 && e0 <= e1 <= e2
    requires Monotone(a) && Within(a, d0, d1, e0, e1)
    requires Monotone(b) && Within(b, d1, d2, e1, e2)
    ensures Monotone(a + b) && Within(a + b, d0, d2, e0, e2)
  {
    forall i, j | 0 <= i < j < |a + b|
      ensures (a + b)[i].downloaded <= (a + b)[j].downloaded && (a + b)[i].total <= (a + b)[j].total
    {
      if j < |a| {
        assert (a + b)[i] == a[i] && (a + b)[j] == a[j];
      } else if i < |a| {
        assert (a + b)[i] == a[i] && (a + b)[j] == b[j - |a|];
      } else {
        assert (a + b)[i] == b[i - |a|] && (a + b)[j] == b[j - |a|];
      }
    }
    forall k | 0 <= k < |a + b|
      ensures d0 <= (a + b)[k].downloaded <= d2 && e0 <= (a + b)[k].total <= e2
    {
      if k < |a| { assert (a + b)[k] == a[k]; } else { assert (a + b)[k] == b[k - |a|]; }
    }
  }

  // ---------------------------------------------------- one file's stream

  /** What streaming a body into a `.part` file leaves: the file's size,
      the running byte total, the progress reports and the error that cut
      the stream short, if any. */
  datatype Written = Written(size: nat, downloaded: nat, reports: seq<Progress>, error: Option<string>)

  /** The `while let Some(chunk)` loop over a body, starting from a file of
      `size` bytes and a running total of `downloaded`. */
  function StreamPart(chunks: seq<Result<nat>>, size: nat, downloaded: nat, expected: nat): Written
  {
    if chunks == [] then Written(size, downloaded, [], None)
    else if chunks[0].Err? then Written(size, downloaded, [], Some(chunks[0].error))
    else
      var d := SatAdd(downloaded, chunks[0].value);
      var rest := StreamPart(chunks[1..], size + chunks[0].value, d, expected);
      Written(rest.size, rest.downloaded, [Progress(d, expected)] + rest.reports, rest.error)
  }

  /** The stream fails exactly when a chunk is an error, and otherwise
      the file receives the whole body. */
  lemma {:induction false} StreamPartCompletes(chunks: seq<Result<nat>>, size: nat, downloaded: nat, expected: nat)
    ensures StreamPart(chunks, size, downloaded, expected).error.None? <==> StreamOk(chunks)
    ensures StreamOk(chunks) ==> StreamPart(chunks, size, downloaded, expected).size == size + StreamSize(chunks)
  {
    if chunks != [] {
      if chunks[0].Ok? {
        StreamPartCompletes(chunks[1..], size + chunks[0].value, SatAdd(downloaded, chunks[0].value), expected);
        assert StreamOk(chunks) <==> StreamOk(chunks[1..]) by {
          if StreamOk(chunks[1..]) {
            forall k | 0 <= k < |chunks| ensures chunks[k].Ok? {
              if k > 0 { assert chunks[k] == chunks[1..][k - 1]; }
            }
          }
        }
      } else {
        assert !chunks[0].Ok?;
      }
    }
  }

  /** The running total never decreases, stays within `u64`, and every
      report carries it and the expected total. */
  lemma {:induction false} StreamPartTotals(chunks: seq<Result<nat>>, size: nat, downloaded: nat, expected: nat)
    requires downloaded <= U64Max
    ensures downloaded <= StreamPart(chunks, size, downloaded, expected).downloaded <= U64Max
    ensures Monotone(StreamPart(chunks, size, downloaded, expected).reports)
    ensures Within(StreamPart(chunks, size, downloaded, expected).reports,
                   downloaded, StreamPart(chunks, size, downloaded, expected).downloaded, expected, expected)
  {
    if chunks != [] && chunks[0].Ok? {
      var d := SatAdd(downloaded, chunks[0].value);
      StreamPartTotals(chunks[1..], size + chunks[0].value, d, expected);
      var rest := StreamPart(chunks[1..], size + chunks[0].value, d, expected);
      MonotoneAppend([Progress(d, expected)], rest.reports, downloaded, d, rest.downloaded, expected, expected, expected);
    }
  }

  // ------------------------------------------------------ the file loop

  /** The state of the download loop: the error that ended it, if any, the
      files, the progress reports and the URLs requested so far, and the
      two running totals. */
  datatype Batch = Batch(error: Option<string>, files: map<string, nat>, progress: seq<Progress>,
                         requested: seq<string>, downloaded: nat, expected: nat)

  /** The part file of a required file. */
  function PartPath(dir: string, name: string): string
  {
    Join(dir, WithExtension(name, "part"))
  }

  /** One pass of the `for filename in model.required_files` loop: a file
      already present is skipped without a request; otherwise the body is
      streamed into the part file, which is renamed onto the file once the
      stream ends without error. */
  function FetchStep(files: map<string, nat>, dirs: set<string>, dir: string, repo: string, name: string,
                     server: string -> Result<Response>, downloaded: nat, expected: nat): Batch
  {
    var dest := Join(dir, name);
    if PathExists(dirs, files, dest) then Batch(None, files, [], [], downloaded, expected)
    else
      var url := ResolveUrl(repo, name);
      match server(url)
      case Err(e) => Batch(Some(e), files, [], [url], downloaded, expected)
      case Ok(response) =>
        var e := SatAdd(expected, LengthOrZero(response.contentLength));
        var tmp := PartPath(dir, name);
        var w := StreamPart(response.chunks, 0, downloaded, e);
        if w.error.Some? then Batch(w.error, files[tmp := w.size], w.reports, [url], w.downloaded, e)
        else Batch(None, (files - {tmp})[dest := w.size], w.reports, [url], w.downloaded, e)
  }

  /** Reports and requests made before the rest of the loop. */
  function Prepend(progress: seq<Progress>, requested: seq<string>, b: Batch): Batch
  {
    Batch(b.error, b.files, progress + b.progress, requested + b.requested, b.downloaded, b.expected)
  }

  /** The whole loop, stopping at the first error. */
  function FetchFiles(files: map<string, nat>, dirs: set<string>, dir: string, repo: string, names: seq<string>,
                      server: string -> Result<Response>, downloaded: nat, expected: nat): Batch
    decreases |names|
  {
    if names == [] then Batch(None, files, [], [], downloaded, expected)
    else
      var b := FetchStep(files, dirs, dir, repo, names[0], server, downloaded, expected);
      if b.error.Some? then b
      else Prepend(b.progress, b.requested,
                   FetchFiles(b.files, dirs, dir, repo, names[1..], server, b.downloaded, b.expected))
  }

  /** No part file of one of `names` is the file of one of `names`. */
  predicate PartsApart(names: seq<string>)
  {
    forall i, j :: 0 <= i < |names| && 0 <= j < |names| ==> WithExtension(names[i], "part") != names[j]
  }

  /** No name ends in 't', the last letter of "part". */
  predicate EndingsApart(names: seq<string>)
  {
    forall k :: 0 <= k < |names| ==> names[k] == [] || names[k][|names[k]| - 1] != 't'
  }

  lemma EndingsKeepPartsApart(names: seq<string>)
    requires EndingsApart(names)
    ensures PartsApart(names)
  {
    forall i, j | 0 <= i < |names| && 0 <= j < |names| ensures WithExtension(names[i], "part") != names[j] {
      WithExtensionEnding(names[i], "part");
    }
  }

  /** The NLLB files end in ".json" or ".bin", never in ".part". */
  lemma NllbPartsApart()
    ensures PartsApart(NllbFiles)
  {
    assert EndingsApart(NllbFiles) by {
      forall k | 0 <= k < |NllbFiles| ensures NllbFiles[k][|NllbFiles[k]| - 1] == 'n' {
        if k == 0 { assert NllbFiles[0][10] == 'n'; }
        else if k == 1 { assert NllbFiles[1][8] == 'n'; }
        else if k == 2 { assert NllbFiles[2][21] == 'n'; }
        else { assert NllbFiles[3][13] == 'n'; }
      }
    }
    EndingsKeepPartsApart(NllbFiles);
  }

  /** A step writes only the part file and the file of its own name. */
  lemma StepTouches(files: map<string, nat>, dirs: set<string>, dir: string, repo: string, name: string,
                    server: string -> Result<Response>, downloaded: nat, expected: nat, p: string)
    requires p != PartPath(dir, name) && p != Join(dir, name)
    ensures var after := FetchStep(files, dirs, dir, repo, name, server, downloaded, expected).files;
            (p in after <==> p in files) && (p in files ==> after[p] == files[p])
  {
  }

  /** The loop leaves alone every path that is neither a required file nor
      a part file. */
  lemma {:induction false} UnlistedUntouched(files: map<string, nat>, dirs: set<string>, dir: string, repo: string,
                                             names: seq<string>, server: string -> Result<Response>,
                                             downloaded: nat, expected: nat, p: string)
    requires forall g :: g in names ==> p != Join(dir, g) && p != PartPath(dir, g)
    ensures var after := FetchFiles(files, dirs, dir, repo, names, server, downloaded, expected).files;
            (p in after <==> p in files) && (p in files ==> after[p] == files[p])
    decreases |names|
  {
    if names != [] {
      var b := FetchStep(files, dirs, dir, repo, names[0], server, downloaded, expected);
      assert names[0] in names;
      StepTouches(files, dirs, dir, repo, names[0], server, downloaded, expected, p);
      if b.error.None? {
        assert forall g :: g in names[1..] ==> g in names;
        UnlistedUntouched(b.files, dirs, dir, repo, names[1..], server, b.downloaded, b.expected, p);
      }
    }
  }

  /** A first name that does not come again is neither a later file nor
      a later part file. */
  lemma HeadApart(dir: string, names: seq<string>)
    requires names != [] && PartsApart(names) && names[0] !in names[1..]
    ensures forall g :: g in names[1..] ==> Join(dir, names[0]) != Join(dir, g) && Join(dir, names[0]) != PartPath(dir, g)
  {
    forall g | g in names[1..] ensures Join(dir, names[0]) != Join(dir, g) && Join(dir, names[0]) != PartPath(dir, g) {
      var j :| 1 <= j < |names| && names[j] == g;
      assert WithExtension(names[j], "part") != names[0];
      JoinInjective(dir, names[0], g);
      JoinInjective(dir, names[0], WithExtension(g, "part"));
    }
  }

  /** Apart from its part file, a step removes no file. */
  lemma StepKeeps(files: map<string, nat>, dirs: set<string>, dir: string, repo: string, name: string,
                  server: string -> Result<Response>, downloaded: nat, expected: nat, p: string)
    requires p != PartPath(dir, name) && p in files
    ensures p in FetchStep(files, dirs, dir, repo, name, server, downloaded, expected).files
  {
  }

  /** The rest of a list without a part-file clash has none either. */
  lemma PartsApartTail(names: seq<string>)
    requires names != [] && PartsApart(names)
    ensures PartsApart(names[1..])
  {
    forall i, j | 0 <= i < |names[1..]| && 0 <= j < |names[1..]|
      ensures WithExtension(names[1..][i], "part") != names[1..][j]
    {
      assert names[1..][i] == names[i + 1] && names[1..][j] == names[j + 1];
    }
  }

  /** A URL is requested only for one of the required files, and only when
      that file was missing, so a file already present causes no request. */
  lemma {:induction false} RequestsOnlyMissing(files: map<string, nat>, dirs: set<string>, dir: string, repo: string,
                                               names: seq<string>, server: string -> Result<Response>,
                                               downloaded: nat, expected: nat)
    requires PartsApart(names)
    ensures forall f :: ResolveUrl(repo, f) in FetchFiles(files, dirs, dir, repo, names, server, downloaded, expected).requested ==>
              f in names && !PathExists(dirs, files, Join(dir, f))
    decreases |names|
  {
    if names != [] {
      var b := FetchStep(files, dirs, dir, repo, names[0], server, downloaded, expected);
      var all := FetchFiles(files, dirs, dir, repo, names, server, downloaded, expected);
      PartsApartTail(names);
      if b.error.None? {
        RequestsOnlyMissing(b.files, dirs, dir, repo, names[1..], server, b.downloaded, b.expected);
      }
      forall f | ResolveUrl(repo, f) in all.requested
        ensures f in names && !PathExists(dirs, files, Join(dir, f))
      {
        if ResolveUrl(repo, f) in b.requested {
          ResolveUrlInjective(repo, names[0], f);
        } else {
          var rest := FetchFiles(b.files, dirs, dir, repo, names[1..], server, b.downloaded, b.expected);
          assert all.requested == b.requested + rest.requested;
          assert f in names[1..];
          var k :| 1 <= k < |names| && names[k] == f;
          assert WithExtension(names[0], "part") != names[k];
          JoinInjective(dir, WithExtension(names[0], "part"), f);
          if Join(dir, f) in files {
            StepKeeps(files, dirs, dir, repo, names[0], server, downloaded, expected, Join(dir, f));
          }
        }
      }
    }
  }

  /** One step keeps the totals growing and within `u64`. */
  lemma StepTotals(files: map<string, nat>, dirs: set<string>, dir: string, repo: string, name: string,
                   server: string -> Result<Response>, downloaded: nat, expected: nat)
    requires downloaded <= U64Max && expected <= U64Max
    ensures var b := FetchStep(files, dirs, dir, repo, name, server, downloaded, expected);
            downloaded <= b.downloaded <= U64Max && expected <= b.expected <= U64Max &&
            Monotone(b.progress) && Within(b.progress, downloaded, b.downloaded, expected, b.expected)
  {
    var url := ResolveUrl(repo, name);
    if !PathExists(dirs, files, Join(dir, name)) && server(url).Ok? {
      var response := server(url).value;
      StreamPartTotals(response.chunks, 0, downloaded, SatAdd(expected, LengthOrZero(response.contentLength)));
    }
  }

  /** `downloaded_total` and `expected_total` only grow and never pass
      `u64::MAX`, and so do the progress reports, one after another. */
  lemma {:induction false} FetchTotals(files: map<string, nat>, dirs: set<string>, dir: string, repo: string,
                                       names: seq<string>, server: string -> Result<Response>,
                                       downloaded: nat, expected: nat)
    requires downloaded <= U64Max && expected <= U64Max
    ensures var b := FetchFiles(files, dirs, dir, repo, names, server, downloaded, expected);
            downloaded <= b.downloaded <= U64Max && expected <= b.expected <= U64Max &&
            Monotone(b.progress) && Within(b.progress, downloaded, b.downloaded, expected, b.expected)
    decreases |names|
  {
    if names != [] {
      var b := FetchStep(files, dirs, dir, repo, names[0], server, downloaded, expected);
      StepTotals(files, dirs, dir, repo, names[0], server, downloaded, expected);
      if b.error.None? {
        FetchTotals(b.files, dirs, dir, repo, names[1..], server, b.downloaded, b.expected);
        var rest := FetchFiles(b.files, dirs, dir, repo, names[1..], server, b.downloaded, b.expected);
        MonotoneAppend(b.progress, rest.progress, downloaded, b.downloaded, rest.downloaded,
                       expected, b.expected, rest.expected);
      }
    }
  }

  /** A file present before the loop is present after it, and when the
      loop ends without error every required file is present. */
  lemma {:induction false} FetchInstalls(files: map<string, nat>, dirs: set<string>, dir: string, repo: string,
                                         names: seq<string>, server: string -> Result<Response>,
                                         downloaded: nat, expected: nat)
    requires PartsApart(names)
    ensures var b := FetchFiles(files, dirs, dir, repo, names, server, downloaded, expected);
            (forall f :: f in names && PathExists(dirs, files, Join(dir, f)) ==> PathExists(dirs, b.files, Join(dir, f))) &&
            (b.error.None? ==> AllPresent(dirs, b.files, dir, names))
    decreases |names|
  {
    if names != [] {
      var b := FetchStep(files, dirs, dir, repo, names[0], server, downloaded, expected);
      var all := FetchFiles(files, dirs, dir, repo, names, server, downloaded, expected);
      PartsApartTail(names);
      if b.error.None? {
        FetchInstalls(b.files, dirs, dir, repo, names[1..], server, b.downloaded, b.expected);
        var rest := FetchFiles(b.files, dirs, dir, repo, names[1..], server, b.downloaded, b.expected);
        assert all.files == rest.files;
        forall f | f in names && PathExists(dirs, b.files, Join(dir, f))
          ensures PathExists(dirs, rest.files, Join(dir, f))
        {
          if f !in names[1..] {
            assert f == names[0];
            HeadApart(dir, names);
            UnlistedUntouched(b.files, dirs, dir, repo, names[1..], server, b.downloaded, b.expected, Join(dir, f));
          }
        }
        assert PathExists(dirs, b.files, Join(dir, names[0]));
        forall f | f in names && PathExists(dirs, files, Join(dir, f))
          ensures PathExists(dirs, b.files, Join(dir, f))
        {
          var k :| 0 <= k < |names| && names[k] == f;
          assert WithExtension(names[0], "part") != names[k];
          JoinInjective(dir, WithExtension(names[0], "part"), f);
          if Join(dir, f) in files {
            StepKeeps(files, dirs, dir, repo, names[0], server, downloaded, expected, Join(dir, f));
          }
        }
      } else {
        forall f | f in names && PathExists(dirs, files, Join(dir, f))
          ensures PathExists(dirs, all.files, Join(dir, f))
        {
          var k :| 0 <= k < |names| && names[k] == f;
          assert WithExtension(names[0], "part") != names[k];
          JoinInjective(dir, WithExtension(names[0], "part"), f);
        }
      }
    }
  }

  /** The body the server sends for `url` arrived whole, and it is `size`
      bytes long. */
  predicate Complete(server: string -> Result<Response>, url: string, size: nat)
  {
    server(url).Ok? && StreamOk(server(url).value.chunks) && size == StreamSize(server(url).value.chunks)
  }

  /** After one step a file other than the step's part file holds what it
      held before or the whole body of its URL. */
  lemma StepNeverHalfWritten(files: map<string, nat>, dirs: set<string>, dir: string, repo: string, name: string,
                             server: string -> Result<Response>, downloaded: nat, expected: nat, f: string)
    requires WithExtension(name, "part") != f
    ensures var after := FetchStep(files, dirs, dir, repo, name, server, downloaded, expected).files;
            Join(dir, f) in after ==>
              (Join(dir, f) in files && after[Join(dir, f)] == files[Join(dir, f)]) ||
              Complete(server, ResolveUrl(repo, f), after[Join(dir, f)])
  {
    JoinInjective(dir, WithExtension(name, "part"), f);
    JoinInjective(dir, name, f);
    var url := ResolveUrl(repo, name);
    if !PathExists(dirs, files, Join(dir, name)) && server(url).Ok? {
      var response := server(url).value;
      StreamPartCompletes(response.chunks, 0, downloaded, SatAdd(expected, LengthOrZero(response.contentLength)));
    }
  }

  /** A required file is never half-written: after the loop each one
      holds what it held before, or the whole body of its URL. */
  lemma {:induction false} FetchNeverHalfWritten(files: map<string, nat>, dirs: set<string>, dir: string, repo: string,
                                                 names: seq<string>, server: string -> Result<Response>,
                                                 downloaded: nat, expected: nat)
    requires PartsApart(names)
    ensures var b := FetchFiles(files, dirs, dir, repo, names, server, downloaded, expected);
            forall f :: f in names && Join(dir, f) in b.files ==>
              (Join(dir, f) in files && b.files[Join(dir, f)] == files[Join(dir, f)]) ||
              Complete(server, ResolveUrl(repo, f), b.files[Join(dir, f)])
    decreases |names|
  {
    if names != [] {
      var b := FetchStep(files, dirs, dir, repo, names[0], server, downloaded, expected);
      var all := FetchFiles(files, dirs, dir, repo, names, server, downloaded, expected);
      PartsApartTail(names);
      if b.error.None? {
        FetchNeverHalfWritten(b.files, dirs, dir, repo, names[1..], server, b.downloaded, b.expected);
        assert all.files == FetchFiles(b.files, dirs, dir, repo, names[1..], server, b.downloaded, b.expected).files;
      }
      forall f | f in names && Join(dir, f) in all.files
        ensures (Join(dir, f) in files && all.files[Join(dir, f)] == files[Join(dir, f)]) ||
                Complete(server, ResolveUrl(repo, f), all.files[Join(dir, f)])
      {
        var k :| 0 <= k < |names| && names[k] == f;
        assert WithExtension(names[0], "part") != names[k];
        StepNeverHalfWritten(files, dirs, dir, repo, names[0], server, downloaded, expected, f);
        if b.error.None? && f !in names[1..] {
          HeadApart(dir, names);
          UnlistedUntouched(b.files, dirs, dir, repo, names[1..], server, b.downloaded, b.expected, Join(dir, f));
        }
      }
    }
  }

  // ------------------------------------------------------- download_model

  /** The outcome of `download_model`: the result, the files afterwards,
      the progress reports and the URLs requested. */
  datatype Fetched = Fetched(result: Result<string>, files: map<string, nat>, progress: seq<Progress>,
                             requested: seq<string>)

  /** `download_model`: an unknown name fails before anything is touched;
      otherwise the model directory is created and the file loop runs in it. */
  function Download(files: map<string, nat>, dirs: set<string>, dataDir: string, name: string,
                    server: string -> Result<Response>): Fetched
  {
    match FindModel(name)
    case None => Fetched(Err("Unknown translation model: " + name), files, [], [])
    case Some(m) =>
      var dir := ModelPath(dataDir, name);
      var b := FetchFiles(files, dirs + {dir}, dir, m.repo, m.requiredFiles, server, 0, 0);
      Fetched(if b.error.None? then Ok(dir) else Err(b.error.value), b.files, b.progress, b.requested)
  }

  /** An unknown name is refused with no request and no file written. */
  lemma DownloadUnknown(files: map<string, nat>, dirs: set<string>, dataDir: string, name: string,
                        server: string -> Result<Response>)
    ensures name != DefaultTranslationModel <==>
              Download(files, dirs, dataDir, name, server) ==
              Fetched(Err("Unknown translation model: " + name), files, [], [])
  {
    FindModelMeaning(name);
  }

  /** A successful download returns the model's path, and the model then
      exists. */
  lemma DownloadInstalls(files: map<string, nat>, dirs: set<string>, dataDir: string, name: string,
                         server: string -> Result<Response>)
    ensures var after := Download(files, dirs, dataDir, name, server);
            after.result.Ok? ==>
              after.result.value == ModelPath(dataDir, name) &&
              ModelExists(dirs + {ModelPath(dataDir, name)}, after.files, dataDir, name)
  {
    FindModelMeaning(name);
    if name == DefaultTranslationModel {
      var dir := ModelPath(dataDir, name);
      NllbPartsApart();
      FetchInstalls(files, dirs + {dir}, dir, AvailableTranslationModels[0].repo, NllbFiles, server, 0, 0);
    }
  }

  /** A required file already present is not requested again. */
  lemma DownloadSkipsPresent(files: map<string, nat>, dirs: set<string>, dataDir: string, name: string,
                             server: string -> Result<Response>, f: string)
    requires f in NllbFiles && PathExists(dirs, files, Join(ModelPath(dataDir, name), f))
    ensures ResolveUrl(AvailableTranslationModels[0].repo, f) !in Download(files, dirs, dataDir, name, server).requested
  {
    FindModelMeaning(name);
    if name == DefaultTranslationModel {
      var dir := ModelPath(dataDir, name);
      NllbPartsApart();
      RequestsOnlyMissing(files, dirs + {dir}, dir, AvailableTranslationModels[0].repo, NllbFiles, server, 0, 0);
    }
  }

  /** Whatever happens, each required file holds what it held before or
      the whole body of its URL. */
  lemma DownloadNeverHalfWritten(files: map<string, nat>, dirs: set<string>, dataDir: string, name: string,
                                 server: string -> Result<Response>, f: string)
    requires f in NllbFiles
    ensures var p := Join(ModelPath(dataDir, name), f);
            var after := Download(files, dirs, dataDir, name, server).files;
            p in after ==>
              (p in files && after[p] == files[p]) ||
              Complete(server, ResolveUrl(AvailableTranslationModels[0].repo, f), after[p])
  {
    FindModelMeaning(name);
    if name == DefaultTranslationModel {
      var dir := ModelPath(dataDir, name);
      NllbPartsApart();
      FetchNeverHalfWritten(files, dirs + {dir}, dir, AvailableTranslationModels[0].repo, NllbFiles, server, 0, 0);
    }
  }

  /** The progress callback sees totals that never decrease and never pass
      `u64::MAX`. */
  lemma DownloadProgress(files: map<string, nat>, dirs: set<string>, dataDir: string, name: string,
                         server: string -> Result<Response>)
    ensures var progress := Download(files, dirs, dataDir, name, server).progress;
            Monotone(progress) && Within(progress, 0, U64Max, 0, U64Max)
  {
    FindModelMeaning(name);
    if name == DefaultTranslationModel {
      var dir := ModelPath(dataDir, name);
      var repo := AvailableTranslationModels[0].repo;
      FetchTotals(files, dirs + {dir}, dir, repo, NllbFiles, server, 0, 0);
    }
  }

  lemma PrependTwice(p1: seq<Progress>, r1: seq<string>, p2: seq<Progress>, r2: seq<string>, b: Batch)
    ensures Prepend(p1, r1, Prepend(p2, r2, b)) == Prepend(p1 + p2, r1 + r2, b)
  {
    assert p1 + (p2 + b.progress) == (p1 + p2) + b.progress;
    assert r1 + (r2 + b.requested) == (r1 + r2) + b.requested;
  }

  /** `download_model`. */
  method DownloadModel(fs: FileSystem, dataDir: string, name: string, server: string -> Result<Response>)
    returns (r: Result<string>, progress: seq<Progress>, requested: seq<string>)
    modifies fs
    ensures fs.dirs == if FindModel(name).Some? then old(fs.dirs) + {ModelPath(dataDir, name)} else old(fs.dirs)
    ensures Fetched(r, fs.files, progress, requested) == Download(old(fs.files), old(fs.dirs), dataDir, name, server)
  {
    var found := FindModel(name);
    if found.None? {
      return Err("Unknown translation model: " + name), [], [];
    }
    var dir := ModelPath(dataDir, name);
    fs.CreateDirAll(dir);
    var error, downloaded, expected;
    error, progress, requested, downloaded, expected := FetchAll(fs, dir, found.value.repo, found.value.requiredFiles, server);
    r := if error.None? then Ok(dir) else Err(error.value);
  }

  /** The `for filename in model.required_files` loop, which stops at the
      first error. */
  method FetchAll(fs: FileSystem, dir: string, repo: string, names: seq<string>, server: string -> Result<Response>)
    returns (error: Option<string>, progress: seq<Progress>, requested: seq<string>, downloaded: nat, expected: nat)
    requires dir in fs.dirs
    modifies fs
    ensures fs.dirs == old(fs.dirs)
    ensures Batch(error, fs.files, progress, requested, downloaded, expected) ==
            FetchFiles(old(fs.files), fs.dirs, dir, repo, names, server, 0, 0)
  {
    var i := 0;
    error, progress, requested, downloaded, expected := None, [], [], 0, 0;
    assert names[0..] == names;
    while i < |names| && error.None?
      invariant i <= |names|
      invariant fs.dirs == old(fs.dirs)
      invariant FetchFiles(old(fs.files), fs.dirs, dir, repo, names, server, 0, 0) ==
                Prepend(progress, requested,
                        if error.None? then FetchFiles(fs.files, fs.dirs, dir, repo, names[i..], server, downloaded, expected)
                        else Batch(error, fs.files, [], [], downloaded, expected))
      decreases |names| - i
    {
      var e, p, rq, d, x := FetchOne(fs, dir, repo, names[i], server, downloaded, expected);
      assert names[i..][0] == names[i] && names[i..][1..] == names[i + 1..];
      PrependTwice(progress, requested, p, rq, if e.None? then FetchFiles(fs.files, fs.dirs, dir, repo, names[i + 1..], server, d, x)
                                              else Batch(e, fs.files, [], [], d, x));
      assert p + [] == p && rq + [] == rq;
      error, progress, requested, downloaded, expected := e, progress + p, requested + rq, d, x;
      i := i + 1;
    }
    if error.None? {
      assert names[i..] == [];
    }
  }

  /** One pass of the loop for the file `name`. */
  method FetchOne(fs: FileSystem, dir: string, repo: string, name: string, server: string -> Result<Response>,
                  downloaded: nat, expected: nat)
    returns (error: Option<string>, progress: seq<Progress>, requested: seq<string>,
             downloadedTotal: nat, expectedTotal: nat)
    requires dir in fs.dirs
    modifies fs
    ensures fs.dirs == old(fs.dirs)
    ensures Batch(error, fs.files, progress, requested, downloadedTotal, expectedTotal) ==
            FetchStep(old(fs.files), fs.dirs, dir, repo, name, server, downloaded, expected)
  {
    var dest := Join(dir, name);
    if fs.Exists(dest) {
      return None, [], [], downloaded, expected;
    }
    var url := ResolveUrl(repo, name);
    requested := [url];
    var response := server(url);
    if response.Err? {
      return Some(response.error), [], requested, downloaded, expected;
    }
    expectedTotal := SatAdd(expected, LengthOrZero(response.value.contentLength));
    var tmp := PartPath(dir, name);
    fs.CreateDirAll(dir);
    fs.Create(tmp);
    var size;
    size, downloadedTotal, progress, error :=
      StreamPartInto(fs, tmp, response.value.chunks, downloaded, expectedTotal);
    if error.Some? {
      return;
    }
    fs.Rename(tmp, dest);
  }

  /** The `while let Some(chunk)` loop: each chunk is appended to the part
      file and added, saturating, to the running total that is reported. */
  method StreamPartInto(fs: FileSystem, path: string, chunks: seq<Result<nat>>, downloaded: nat, expected: nat)
    returns (size: nat, downloadedTotal: nat, progress: seq<Progress>, error: Option<string>)
    requires path in fs.files && fs.files[path] == 0
    modifies fs
    ensures Written(size, downloadedTotal, progress, error) == StreamPart(chunks, 0, downloaded, expected)
    ensures fs.dirs == old(fs.dirs) && fs.files == old(fs.files)[path := size]
  {
    var i := 0;
    size, downloadedTotal, progress := 0, downloaded, [];
    assert chunks[0..] == chunks;
    while i < |chunks| && chunks[i].Ok?
      invariant i <= |chunks|
      invariant fs.dirs == old(fs.dirs) && fs.files == old(fs.files)[path := size]
      invariant StreamPart(chunks, 0, downloaded, expected) ==
                Written(StreamPart(chunks[i..], size, downloadedTotal, expected).size,
                        StreamPart(chunks[i..], size, downloadedTotal, expected).downloaded,
                        progress + StreamPart(chunks[i..], size, downloadedTotal, expected).reports,
                        StreamPart(chunks[i..], size, downloadedTotal, expected).error)
      decreases |chunks| - i
    {
      assert chunks[i..][0] == chunks[i] && chunks[i..][1..] == chunks[i + 1..];
      fs.Append(path, chunks[i].value);
      size := size + chunks[i].value;
      downloadedTotal := SatAdd(downloadedTotal, chunks[i].value);
      progress := progress + [Progress(downloadedTotal, expected)];
      i := i + 1;
    }
    if i < |chunks| {
      assert chunks[i..][0] == chunks[i];
      error := Some(chunks[i].error);
    } else {
      assert chunks[i..] == [];
      error := None;
    }
  }
}
