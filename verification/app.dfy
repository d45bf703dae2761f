/**
 * The request-side logic of the web service: which uploads are accepted, the
 * order in which a single upload is validated, and the bookkeeping of a batch.
 * Saving to disk, `secure_filename` and the detector are abstract: the safe
 * name is a function parameter and prediction is an oracle that may fail.
 */
module App {
  import opened Base
  import opened HeuristicScorer

  /** Extensions accepted when the environment does not set any. */
  const DefaultExtensionList: seq<string> := ["mp3", "wav", "ogg", "m4a", "flac", "aac"]

  /** The default value of the setting: those extensions, comma-separated. */
  const DefaultExtensions: string := Join(DefaultExtensionList, ',')

  // ------------------------------------------------------ configuration

  /** Python's `str.split(sep)`: empty pieces kept, at least one piece. */
  function Split(s: string, sep: char): (parts: seq<string>)
    ensures |parts| >= 1
    ensures forall k :: 0 <= k < |parts| ==> sep !in parts[k]
    decreases |s|
  {
    if s == [] then [""]
    else
      var rest := Split(s[1..], sep);
      if s[0] == sep then [""] + rest
      else [[s[0]] + rest[0]] + rest[1..]
  }

  /** `sep.join(parts)`. */
  function Join(parts: seq<string>, sep: char): string
    requires |parts| >= 1
  {
    if |parts| == 1 then parts[0] else parts[0] + [sep] + Join(parts[1..], sep)
  }

  /** Splitting loses nothing: joining the pieces back gives the original text. */
  lemma {:induction false} JoinSplit(s: string, sep: char)
    ensures Join(Split(s, sep), sep) == s
    decreases |s|
  {
    if s != [] {
      JoinSplit(s[1..], sep);
      var rest := Split(s[1..], sep);
      if s[0] != sep {
        if |rest| == 1 {
          assert Join(Split(s, sep), sep) == [s[0]] + rest[0];
        } else {
          assert Split(s, sep)[1..] == rest[1..];
          assert Join(rest, sep) == rest[0] + [sep] + Join(rest[1..], sep);
        }
      }
    }
  }

  /** And the pieces are the only separator-free ones that join to it. */
  lemma {:induction false} SplitJoin(parts: seq<string>, sep: char)
    requires |parts| >= 1 && forall k :: 0 <= k < |parts| ==> sep !in parts[k]
    ensures Split(Join(parts, sep), sep) == parts
    decreases |parts|, |parts[0]|
  {
    var p0 := parts[0];
    if |p0| > 0 {
      var tail := [p0[1..]] + parts[1..];
      assert sep !in p0[1..] by {
        assert forall j :: 0 <= j < |p0| - 1 ==> p0[1..][j] == p0[j + 1];
      }
      assert tail[1..] == parts[1..];
      SplitJoin(tail, sep);
      JoinFirstChar(parts, sep);
      assert p0[0] != sep by { assert p0[0] == p0[0..1][0]; }
      SplitCons(p0[0], Join(tail, sep), sep);
      assert [p0[0]] + p0[1..] == p0;
    } else if |parts| > 1 {
      SplitJoin(parts[1..], sep);
      assert Join(parts, sep) == [sep] + Join(parts[1..], sep);
      SplitCons(sep, Join(parts[1..], sep), sep);
    }
  }

  /** A text that joins separator-free pieces splits back into exactly those pieces. */
  lemma JoinDeterminesSplit(text: string, sep: char)
    ensures forall parts ::
      |parts| >= 1 && (forall k :: 0 <= k < |parts| ==> sep !in parts[k]) && Join(parts, sep) == text
      ==> Split(text, sep) == parts
  {
    forall parts | |parts| >= 1 && (forall k :: 0 <= k < |parts| ==> sep !in parts[k]) && Join(parts, sep) == text
      ensures Split(text, sep) == parts
    {
      SplitJoin(parts, sep);
    }
  }

  /** One step of `Split`, read from the front. */
  lemma SplitCons(c: char, s: string, sep: char)
    ensures Split([c] + s, sep) ==
      if c == sep then [""] + Split(s, sep)
      else [[c] + Split(s, sep)[0]] + Split(s, sep)[1..]
  {
    assert ([c] + s)[1..] == s;
  }

  /** Joining pieces whose first is non-empty starts with that piece's first character. */
  lemma JoinFirstChar(parts: seq<string>, sep: char)
    requires |parts| >= 1 && |parts[0]| > 0
    ensures Join(parts, sep) == [parts[0][0]] + Join([parts[0][1..]] + parts[1..], sep)
  {
    var tail := [parts[0][1..]] + parts[1..];
    assert tail[1..] == parts[1..];
    assert parts[0] == [parts[0][0]] + parts[0][1..];
  }

  /**
   * `set(value.split(','))` of the environment value, or of the default when
   * it is unset; entries are neither trimmed nor lowercased.
   */
  function AllowedExtensions(env: Option<string>): (exts: set<string>)
    ensures forall e :: e in exts ==> ',' !in e
    ensures forall parts ::
      |parts| >= 1 && (forall k :: 0 <= k < |parts| ==> ',' !in parts[k])
      && Join(parts, ',') == (if env.Some? then env.value else DefaultExtensions)
      ==> exts == set e | e in parts
  {
    JoinDeterminesSplit(if env.Some? then env.value else DefaultExtensions, ',');
    var parts := Split(if env.Some? then env.value else DefaultExtensions, ',');
    set e | e in parts
  }

  /** The default value of the setting is the text `mp3,wav,ogg,m4a,flac,aac`. */
  lemma DefaultExtensionsText()
    ensures DefaultExtensions == "mp3,wav,ogg,m4a,flac,aac"
  {
    var l := DefaultExtensionList;
    assert Join(l[5..], ',') == "aac";
    assert Join(l[4..], ',') == "flac" + [','] + Join(l[5..], ',');
    assert Join(l[3..], ',') == "m4a" + [','] + Join(l[4..], ',');
    assert Join(l[2..], ',') == "ogg" + [','] + Join(l[3..], ',');
    assert Join(l[1..], ',') == "wav" + [','] + Join(l[2..], ',');
    assert Join(l, ',') == "mp3" + [','] + Join(l[1..], ',');
  }

  /** The default configuration accepts exactly the six usual audio extensions. */
  lemma DefaultAllowedExtensions()
    ensures AllowedExtensions(None) == {"mp3", "wav", "ogg", "m4a", "flac", "aac"}
  {
    DefaultPiecesSeparatorFree();
    DefaultPiecesSet();
  }

  /** No default extension contains the separator. */
  lemma DefaultPiecesSeparatorFree()
    ensures forall k :: 0 <= k < |DefaultExtensionList| ==> ',' !in DefaultExtensionList[k]
  {
  }

  /** The default extensions, as a set. */
  lemma DefaultPiecesSet()
    ensures (set e | e in DefaultExtensionList) == {"mp3", "wav", "ogg", "m4a", "flac", "aac"}
  {
  }

  // -------------------------------------------------------- file names

  function LowerChar(c: char): (d: char)
    ensures !('A' <= d <= 'Z')
  {
    if 'A' <= c <= 'Z' then (c as int - 'A' as int + 'a' as int) as char else c
  }

  /** `str.lower()` on ASCII letters; other characters are kept. */
  function Lower(s: string): (t: string)
    ensures |t| == |s|
    ensures forall i :: 0 <= i < |s| ==> t[i] == LowerChar(s[i])
  {
    seq(|s|, i requires 0 <= i < |s| => LowerChar(s[i]))
  }

  /** `filename.rsplit('.', 1)[1]`: the text after the last dot, which has no dot itself. */
  function Extension(filename: string): (ext: string)
    requires '.' in filename
    ensures '.' !in ext
    ensures exists i :: 0 <= i < |filename| && filename[i] == '.' && ext == filename[i + 1..]
  {
    var i := LastIndexOf(filename, '.');
    filename[i + 1..]
  }

  /** `allowed_file`: there is a dot, and the lowercased text after the last one is allowed. */
  predicate AllowedFile(filename: string, allowed: set<string>) {
    '.' in filename && Lower(Extension(filename)) in allowed
  }

  /** A name without a dot is never allowed. */
  lemma NoDotNotAllowed(filename: string, allowed: set<string>)
    requires '.' !in filename
    ensures !AllowedFile(filename, allowed)
  {
  }

  /** The extension of `stem.ext` is `ext` whenever `ext` has no dot, whatever `stem` holds. */
  lemma ExtensionAfterLastDot(stem: string, ext: string)
    requires '.' !in ext
    ensures '.' in stem + "." + ext
    ensures Extension(stem + "." + ext) == ext
  {
    var s := stem + "." + ext;
    assert s[|stem|] == '.';
    assert s[|stem| + 1..] == ext;
  }

  /** Only the last extension counts, in any case: `a.tar.MP3` is accepted by default. */
  lemma LastExtensionAnyCase()
    ensures AllowedFile("a.tar.MP3", AllowedExtensions(None))
  {
    assert Extension("a.tar.MP3") == "MP3" by {
      assert "a.tar.MP3" == "a.tar" + "." + "MP3";
      ExtensionAfterLastDot("a.tar", "MP3");
    }
    assert Lower("MP3") == "mp3";
    assert "mp3" in AllowedExtensions(None) by { DefaultAllowedExtensions(); }
  }

  /** Whatever precedes the last dot, the lowercased text after it alone decides. */
  lemma LastExtensionDecides(stem: string, ext: string, allowed: set<string>)
    requires '.' !in ext
    ensures AllowedFile(stem + "." + ext, allowed) <==> Lower(ext) in allowed
  {
    ExtensionAfterLastDot(stem, ext);
  }

  /** A configured entry with an uppercase letter can never match, since the extension is lowercased. */
  lemma UppercaseEntryNeverMatches(filename: string, entry: string, i: nat)
    requires '.' in filename && i < |entry| && 'A' <= entry[i] <= 'Z'
    ensures Lower(Extension(filename)) != entry
  {
    var ext := Lower(Extension(filename));
    if i < |ext| {
      assert !('A' <= ext[i] <= 'Z');
    }
  }

  // --------------------------------------------------- single analysis

  /** The HTTP response of an analysis. */
  datatype Response =
    | BadRequest(error: string)
    | Analyzed(filename: string, prediction: Prediction)
    | ServerError(message: string)

  function Status(r: Response): nat {
    match r
    case BadRequest(_) => 400
    case Analyzed(_, _) => 200
    case ServerError(_) => 500
  }

  /** The outcome of `/api/analyze`: the response and the name the upload was saved under, if it was. */
  datatype Outcome = Outcome(response: Response, saved: Option<string>)

  /**
   * `/api/analyze` on the `audio` field's filename (`None` when the field is
   * missing): the field, a non-empty name and an allowed extension are checked
   * in that order, each failure answering 400 before anything is saved; then
   * the upload is saved under its safe name and predicted on.
   */
  function AnalyzeAudio(upload: Option<string>, allowed: set<string>,
                        secure: string -> string, predict: string -> Result<Prediction, string>): (o: Outcome)
    ensures upload.None? ==> o.response == BadRequest("No se encontró archivo de audio")
    ensures upload == Some("") ==> o.response == BadRequest("No se seleccionó archivo")
    ensures upload.Some? && upload.value != "" && !AllowedFile(upload.value, allowed) ==>
      o.response == BadRequest("Formato no soportado")
    ensures Status(o.response) == 400 <==> o.saved.None?
    ensures o.saved.Some? <==> upload.Some? && upload.value != "" && AllowedFile(upload.value, allowed)
    ensures o.saved.Some? ==> o.saved.value == secure(upload.value)
    ensures o.saved.Some? && predict(o.saved.value).Ok? ==>
      o.response == Analyzed(o.saved.value, predict(o.saved.value).value)
    ensures o.saved.Some? && predict(o.saved.value).Err? ==>
      o.response == ServerError(predict(o.saved.value).error)
  {
    if upload.None? then Outcome(BadRequest("No se encontró archivo de audio"), None)
    else if upload.value == "" then Outcome(BadRequest("No se seleccionó archivo"), None)
    else if !AllowedFile(upload.value, allowed) then Outcome(BadRequest("Formato no soportado"), None)
    else
      var name := secure(upload.value);
      match predict(name)
      case Ok(p) => Outcome(Analyzed(name, p), Some(name))
      case Err(e) => Outcome(ServerError(e), Some(name))
  }

  // ------------------------------------------------------------- batch

  /** One entry of a batch: a successful analysis or the error it raised. */
  datatype Entry = Success(filename: string, prediction: Prediction) | Failure(filename: string, error: string)

  datatype BatchResponse = NoFiles | Batch(total: nat, results: seq<Entry>)

  /** A file the batch loop does not skip. */
  predicate Kept(filename: string, allowed: set<string>) {
    filename != "" && AllowedFile(filename, allowed)
  }

  /** The files the batch analyses, in input order. */
  function KeptFiles(files: seq<string>, allowed: set<string>): (k: seq<string>)
    ensures |k| <= |files|
    ensures forall j :: 0 <= j < |k| ==> Kept(k[j], allowed)
  {
    if files == [] then []
    else
      var k' := KeptFiles(files[..|files| - 1], allowed);
      if Kept(files[|files| - 1], allowed) then k' + [files[|files| - 1]] else k'
  }

  /** Every file that passes the checks is analysed. */
  lemma {:induction false} KeptFilesComplete(files: seq<string>, allowed: set<string>)
    ensures forall i :: 0 <= i < |files| && Kept(files[i], allowed) ==> files[i] in KeptFiles(files, allowed)
  {
    if files != [] {
      KeptFilesComplete(files[..|files| - 1], allowed);
      assert forall i :: 0 <= i < |files| - 1 ==> files[..|files| - 1][i] == files[i];
    }
  }

  /** The analysed files of a concatenation are those of each part, in order. */
  lemma {:induction false} KeptFilesAppend(a: seq<string>, b: seq<string>, allowed: set<string>)
    ensures KeptFiles(a + b, allowed) == KeptFiles(a, allowed) + KeptFiles(b, allowed)
    decreases |b|
  {
    if b == [] {
      assert a + b == a;
    } else {
      var init := b[..|b| - 1];
      assert (a + b)[..|a + b| - 1] == a + init;
      assert (a + b)[|a + b| - 1] == b[|b| - 1];
      KeptFilesAppend(a, init, allowed);
    }
  }

  /** A single file is analysed exactly when it passes the checks. */
  lemma KeptFilesSingle(f: string, allowed: set<string>)
    ensures KeptFiles([f], allowed) == if Kept(f, allowed) then [f] else []
  {
    assert [f][..0] == [];
  }

  /** When no file is skipped, every file is analysed, in order. */
  lemma {:induction false} KeptFilesAll(files: seq<string>, allowed: set<string>)
    requires forall i :: 0 <= i < |files| ==> Kept(files[i], allowed)
    ensures KeptFiles(files, allowed) == files
  {
    if files != [] {
      var init := files[..|files| - 1];
      assert forall i :: 0 <= i < |init| ==> init[i] == files[i];
      KeptFilesAll(init, allowed);
      assert Kept(files[|files| - 1], allowed);
      assert init + [files[|files| - 1]] == files;
    }
  }

  /** The entry for one analysed file. */
  function EntryFor(filename: string, secure: string -> string,
                    predict: string -> Result<Prediction, string>): (e: Entry)
    ensures e.filename == secure(filename)
    ensures e.Success? <==> predict(secure(filename)).Ok?
  {
    var name := secure(filename);
    match predict(name)
    case Ok(p) => Success(name, p)
    case Err(msg) => Failure(name, msg)
  }

  /** The results list: one entry per kept file, in input order. */
  function BatchResults(files: seq<string>, allowed: set<string>, secure: string -> string,
                        predict: string -> Result<Prediction, string>): (r: seq<Entry>)
    ensures |r| == |KeptFiles(files, allowed)|
    ensures forall j :: 0 <= j < |r| ==> r[j] == EntryFor(KeptFiles(files, allowed)[j], secure, predict)
  {
    var k := KeptFiles(files, allowed);
    seq(|k|, j requires 0 <= j < |k| => EntryFor(k[j], secure, predict))
  }

  /**
   * When every file passes the checks, entry `i` is file `i`'s own outcome:
   * a file whose analysis fails gets an error entry and its neighbours are
   * analysed as if it were not there.
   */
  lemma BatchOneEntryPerFile(files: seq<string>, allowed: set<string>, secure: string -> string,
                             predict: string -> Result<Prediction, string>)
    requires forall i :: 0 <= i < |files| ==> Kept(files[i], allowed)
    ensures |BatchResults(files, allowed, secure, predict)| == |files|
    ensures forall i :: 0 <= i < |files| ==>
      BatchResults(files, allowed, secure, predict)[i] == EntryFor(files[i], secure, predict)
  {
    KeptFilesAll(files, allowed);
  }

  /**
   * `/api/batch-analyze`: no files answers 400; otherwise every file is
   * visited in order, skipped files leave no entry, each other file appends
   * exactly one entry whether its analysis succeeds or fails, and the total
   * is the number of entries.
   */
  method BatchAnalyze(files: seq<string>, allowed: set<string>, secure: string -> string,
                      predict: string -> Result<Prediction, string>)
    returns (response: BatchResponse)
    ensures files == [] <==> response == NoFiles
    ensures files != [] ==> response == Batch(|BatchResults(files, allowed, secure, predict)|,
                                              BatchResults(files, allowed, secure, predict))
    ensures response.Batch? ==> response.total == |response.results| <= |files|
  {
    if files == [] {
      return NoFiles;
    }
    var results: seq<Entry> := [];
    var i := 0;
    while i < |files|
      invariant 0 <= i <= |files|
      invariant results == BatchResults(files[..i], allowed, secure, predict)
    {
      var file := files[i];
      assert files[..i + 1][..i] == files[..i];
      if file == "" || !AllowedFile(file, allowed) {
        i := i + 1;
        continue;
      }
      var name := secure(file);
      var entry := match predict(name)
        case Ok(p) => Success(name, p)
        case Err(msg) => Failure(name, msg);
      results := results + [entry];
      i := i + 1;
    }
    assert files[..i] == files;
    return Batch(|results|, results);
  }
}
