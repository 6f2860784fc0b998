/** The part of the file system and of the network that the two model
    managers use: directories and files by path (a file's content is
    abstracted to its size in bytes), and an HTTP server answering a GET
    with a content length and a stream of chunks. */
module Files {
  import opened Wrappers

  /** A server's answer to a GET: the request fails (`Err`), or it yields
      the announced content length, if any, and the body stream, in which
      each item is a chunk's length or the error that ends the stream. */
  datatype Response = Response(contentLength: Option<nat>, chunks: seq<Result<nat>>)

  /** `Option::unwrap_or(0)` on a content length. */
  function LengthOrZero(n: Option<nat>): nat
  {
    match n
    case Some(v) => v
    case None => 0
  }

  /** The total size of a stream that ends without error. */
  function StreamSize(chunks: seq<Result<nat>>): nat
  {
    if chunks == [] then 0
    else (if chunks[0].Ok? then chunks[0].value else 0) + StreamSize(chunks[1..])
  }

  /** The stream ends without error. */
  predicate StreamOk(chunks: seq<Result<nat>>)
  {
    forall k :: 0 <= k < |chunks| ==> chunks[k].Ok?
  }

  /** A non-empty prefix of a stream starting with a chunk weighs that
      chunk plus the matching prefix of the rest. */
  lemma StreamSizePrefix(chunks: seq<Result<nat>>, k: nat)
    requires 0 < k <= |chunks| && chunks[0].Ok?
    ensures StreamSize(chunks[..k]) == chunks[0].value + StreamSize(chunks[1..][..k - 1])
  {
    assert chunks[..k][1..] == chunks[1..][..k - 1];
  }

  /** How many chunks arrive before the first error: the position of that
      error, or the whole length when there is none. */
  function LeadingOk(chunks: seq<Result<nat>>): (n: nat)
    ensures n <= |chunks|
    ensures forall k :: 0 <= k < n ==> chunks[k].Ok?
    ensures n < |chunks| ==> chunks[n].Err?
  {
    if chunks == [] || chunks[0].Err? then 0
    else 1 + LeadingOk(chunks[1..])
  }

  lemma {:induction false} StreamSizeAppend(a: seq<Result<nat>>, b: seq<Result<nat>>)
    ensures StreamSize(a + b) == StreamSize(a) + StreamSize(b)
  {
    if a == [] {
      assert a + b == b;
    } else {
      assert (a + b)[1..] == a[1..] + b;
      StreamSizeAppend(a[1..], b);
    }
  }

  /** The index of the last '.' in a file name, if any. */
  function LastDot(name: string): (r: Option<nat>)
    ensures r.Some? ==> r.value < |name| && name[r.value] == '.' &&
                        forall k :: r.value < k < |name| ==> name[k] != '.'
    ensures r.None? ==> forall k :: 0 <= k < |name| ==> name[k] != '.'
  {
    if name == [] then None
    else if name[|name| - 1] == '.' then Some(|name| - 1)
    else LastDot(name[..|name| - 1])
  }

  /** `Path::with_extension` on a file name: the extension after the last
      dot is replaced, or added when there is none (a leading dot starts
      no extension). */
  function WithExtension(name: string, ext: string): string
  {
    match LastDot(name)
    case Some(d) => if d > 0 then name[..d] + "." + ext else name + "." + ext
    case None => name + "." + ext
  }

  /** One call of a download's progress callback: bytes so far and the
      expected total. */
  datatype Progress = Progress(downloaded: nat, total: nat)

  /** `Path::exists` over the directories and files of a file system. */
  predicate PathExists(dirs: set<string>, files: map<string, nat>, path: string)
  {
    path in dirs || path in files
  }

  /** A name given a new extension ends with the extension's last letter. */
  lemma WithExtensionEnding(name: string, ext: string)
    requires ext != []
    ensures |WithExtension(name, ext)| > 0
    ensures WithExtension(name, ext)[|WithExtension(name, ext)| - 1] == ext[|ext| - 1]
  {
    var w := WithExtension(name, ext);
    var stem := if LastDot(name).Some? && LastDot(name).value > 0 then name[..LastDot(name).value] else name;
    assert w == (stem + ".") + ext;
  }

  class FileSystem {
    var dirs: set<string>
    var files: map<string, nat>

    /** `Path::exists`: a directory or a file is there. */
    predicate Exists(path: string)
      reads this
    {
      PathExists(dirs, files, path)
    }

    constructor(dirs: set<string>, files: map<string, nat>)
      ensures this.dirs == dirs && this.files == files
    {
      this.dirs := dirs;
      this.files := files;
    }

    /** `fs::create_dir_all` (the ancestors it creates are not tracked). */
    method CreateDirAll(dir: string)
      modifies this
      ensures dirs == old(dirs) + {dir} && files == old(files)
    {
      dirs := dirs + {dir};
    }

    /** `File::create`: a new, or truncated, empty file. */
    method Create(path: string)
      modifies this
      ensures dirs == old(dirs) && files == old(files)[path := 0]
    {
      files := files[path := 0];
    }

    /** `write_all` of a chunk of `n` bytes at the end of an open file. */
    method Append(path: string, n: nat)
      requires path in files
      modifies this
      ensures dirs == old(dirs) && files == old(files)[path := old(files)[path] + n]
    {
      files := files[path := files[path] + n];
    }

    /** `fs::rename`, replacing whatever file is at `to`. */
    method Rename(from: string, to: string)
      requires from in files
      modifies this
      ensures dirs == old(dirs) && files == (old(files) - {from})[to := old(files)[from]]
    {
      files := (files - {from})[to := files[from]];
    }
  }
}
