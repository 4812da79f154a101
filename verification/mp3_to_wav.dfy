/** The MP3-to-WAV command-line utilities (mp3_to_wav.py and
    mp3_to_wav_utility.py): output naming, the audio-parameter changes, the
    directory scan and its accounting, and the exit codes. The file system
    and the audio library are inputs: what exists, what is a directory, the
    directory listing or its failure, whether creating the output directory
    fails, and which conversions fail. */
module Mp3ToWav {
  import opened Common
  import opened Text
  import Paths

  /** The exceptions the utilities raise or catch. */
  datatype Error =
    | FileNotFound(message: string)
    | NotADirectory(message: string)
    | ConversionFailed(message: string)
      /** An `OSError` from `os.makedirs` or `os.listdir`, with its text. */
    | OsError(message: string)

  datatype Result<T> = Ok(value: T) | Err(error: Error)

  /** What `os.listdir` gives for a directory: its entry names, or the
      message of the `OSError` it raises (an unreadable directory, say). */
  datatype Listing = Entries(names: seq<string>) | ListingFailed(message: string)

  /** What the run sees of the outside world. `makedirsFailure(dir)` is the
      message of the `OSError` creating `dir` raises, if any;
      `conversionFailure(input, output)` is the message of the exception
      decoding `input` or writing `output` raises, if any. */
  datatype Env = Env(pathExists: string -> bool, isDir: string -> bool, listing: string -> Listing,
                     makedirsFailure: string -> Option<string>,
                     conversionFailure: (string, string) -> Option<string>)

  const DefaultSampleRate := 44100
  const DefaultChannels := 2
  const DefaultBits := 16

  /** A pydub adjustment applied before export. */
  datatype Change = SetFrameRate(rate: int) | SetChannels(count: int) | SetSampleWidth(bytes: int)

  /** The adjustments, in the order applied: only parameters that differ
      from the defaults are touched, and the width is `bits // 8` (floor
      division, which Dafny's `/` matches for the positive divisor 8). */
  function Adjustments(sampleRate: int, channels: int, bits: int): (r: seq<Change>)
    ensures SetFrameRate(sampleRate) in r <==> sampleRate != DefaultSampleRate
    ensures SetChannels(channels) in r <==> channels != DefaultChannels
    ensures SetSampleWidth(bits / 8) in r <==> bits != DefaultBits
    ensures |r| <= 3
    ensures forall i, j :: 0 <= i < j < |r| ==> Rank(r[i]) < Rank(r[j])
    ensures sampleRate == DefaultSampleRate && channels == DefaultChannels && bits == DefaultBits <==> r == []
  {
    (if sampleRate != DefaultSampleRate then [SetFrameRate(sampleRate)] else [])
    + (if channels != DefaultChannels then [SetChannels(channels)] else [])
    + (if bits != DefaultBits then [SetSampleWidth(bits / 8)] else [])
  }

  /** Position of an adjustment kind in the fixed application order. */
  function Rank(c: Change): nat {
    match c
    case SetFrameRate(_) => 0
    case SetChannels(_) => 1
    case SetSampleWidth(_) => 2
  }

  /** A finished conversion: the WAV path written and the changes made. */
  datatype Conversion = Conversion(output: string, changes: seq<Change>)

  /** The default output: the input with its extension replaced by ".wav". */
  function DefaultOutput(input: string): (r: string)
    ensures EndsWith(r, ".wav")
    ensures r[..|r| - 4] == Paths.SplitExt(input).0
    ensures |r| <= |input| + 4
  {
    var root := Paths.SplitExt(input).0;
    assert (root + ".wav")[..|root|] == root;
    root + ".wav"
  }

  /** A name with an extension keeps its stem: "song.mp3" becomes "song.wav". */
  lemma DefaultOutputReplacesExtension(stem: string, ext: string)
    requires forall i :: 0 <= i < |stem| ==> stem[i] != '/'
    requires exists i :: 0 <= i < |stem| && stem[i] != '.'
    requires forall i :: 0 <= i < |ext| ==> ext[i] != '.' && ext[i] != '/'
    ensures DefaultOutput(stem + "." + ext) == stem + ".wav"
  {
    Paths.SplitExtOfNamed(stem, ext);
  }

  /** A leading-dot name has no extension, so ".mp3" becomes ".mp3.wav". */
  lemma DefaultOutputOfDotName(ext: string)
    requires forall i :: 0 <= i < |ext| ==> ext[i] != '.' && ext[i] != '/'
    ensures DefaultOutput("." + ext) == "." + ext + ".wav"
  {
    Paths.SplitExtOfDotName(ext);
  }

  /** `convert_mp3_to_wav`: a missing input fails before anything else; an
      absent output (`None`, not merely empty) defaults to the input with
      ".wav" in place of its extension; the path written is returned. */
  function Convert(env: Env, input: string, output: Option<string>, sampleRate: int, channels: int, bits: int)
    : (r: Result<Conversion>)
    ensures !env.pathExists(input) ==> r == Err(FileNotFound("Input file not found: " + input))
    ensures r.Ok? <==> env.pathExists(input) && env.conversionFailure(input, OutputFor(input, output)).None?
    ensures r.Ok? ==> r.value.output == OutputFor(input, output)
                      && r.value.changes == Adjustments(sampleRate, channels, bits)
    ensures env.pathExists(input) && r.Err? ==>
              r.error == ConversionFailed(env.conversionFailure(input, OutputFor(input, output)).value)
  {
    if !env.pathExists(input) then Err(FileNotFound("Input file not found: " + input))
    else
      var target := if output.None? then DefaultOutput(input) else output.value;
      match env.conversionFailure(input, target)
      case Some(message) => Err(ConversionFailed(message))
      case None => Ok(Conversion(target, Adjustments(sampleRate, channels, bits)))
  }

  /** The output path a conversion uses. */
  function OutputFor(input: string, output: Option<string>): string {
    if output.None? then DefaultOutput(input) else output.value
  }

  /** The file filter: the lower-cased name ends with ".mp3". */
  predicate IsMp3(name: string) {
    EndsWith(Lower(name), ".mp3")
  }

  /** The listing entries that pass the filter, in listing order. */
  function SelectMp3(names: seq<string>): (r: seq<string>)
    ensures |r| <= |names|
    ensures forall i :: 0 <= i < |r| ==> IsMp3(r[i])
    ensures forall x :: x in r <==> x in names && IsMp3(x)
    ensures |names| == 1 ==> r == if IsMp3(names[0]) then names else []
    decreases |names|
  {
    if |names| == 0 then []
    else
      var init := names[..|names| - 1];
      var last := names[|names| - 1];
      assert names == init + [last];
      SelectMp3(init) + (if IsMp3(last) then [last] else [])
  }

  /** The filter keeps listing order and multiplicity: filtering a listing
      in two parts gives the two filtered parts one after the other. With
      the one-name case of `SelectMp3` this fixes the result entirely. */
  lemma {:induction false} SelectMp3Append(a: seq<string>, b: seq<string>)
    ensures SelectMp3(a + b) == SelectMp3(a) + SelectMp3(b)
    decreases |b|
  {
    if |b| > 0 {
      var init := b[..|b| - 1];
      assert (a + b)[..|a + b| - 1] == a + init;
      assert (a + b)[|a + b| - 1] == b[|b| - 1];
      SelectMp3Append(a, init);
    } else {
      assert a + b == a;
    }
  }

  /** Upper-case extensions pass the filter. */
  lemma UpperCaseSelected(stem: string)
    ensures IsMp3(stem + ".MP3")
  {
    var s := stem + ".MP3";
    var l := Lower(s);
    assert l[|l| - 4..] == ".mp3" by {
      assert forall j :: 0 <= j < 4 ==> l[|l| - 4 + j] == LowerChar(".MP3"[j]);
    }
  }

  /** The output path passed for one listed name: inside the output
      directory when one is given, else `None` (default naming). */
  function TargetFor(outputDir: Option<string>, name: string): (r: Option<string>)
    ensures r.Some? <==> Present(outputDir)
    ensures r.Some? ==> EndsWith(r.value, ".wav")
  {
    if Present(outputDir) then
      var file := Paths.SplitExt(name).0 + ".wav";
      assert EndsWith(file, ".wav");
      Some(Paths.Join(outputDir.value, file))
    else None
  }

  /** With an output directory, "song.mp3" lands in it as "song.wav". */
  lemma TargetInOutputDir(dir: string, stem: string, ext: string)
    requires dir != "" && dir[|dir| - 1] != '/'
    requires forall i :: 0 <= i < |stem| ==> stem[i] != '/'
    requires exists i :: 0 <= i < |stem| && stem[i] != '.'
    requires forall i :: 0 <= i < |ext| ==> ext[i] != '.' && ext[i] != '/'
    ensures TargetFor(Some(dir), stem + "." + ext) == Some(dir + "/" + stem + ".wav")
  {
    Paths.SplitExtOfNamed(stem, ext);
    var file := stem + ".wav";
    assert Paths.SplitExt(stem + "." + ext).0 + ".wav" == file;
    assert file[0] != '/' by {
      assert |stem| > 0;
      assert file[0] == stem[0];
    }
    assert Paths.Join(dir, file) == dir + "/" + file;
    assert dir + "/" + file == dir + "/" + stem + ".wav";
  }

  /** What a directory run returns, with the errors it collected and
      whether it created the output directory. */
  datatype DirectoryRun = DirectoryRun(converted: seq<string>, errors: seq<(string, string)>, createdOutput: bool)

  /** The arguments of `process_directory` together with the world it sees. */
  datatype Job = Job(env: Env, inputDir: string, outputDir: Option<string>, sampleRate: int, channels: int, bits: int)

  /** The outcome of converting one listed name. */
  function Attempt(job: Job, name: string): Result<Conversion> {
    Convert(job.env, Paths.Join(job.inputDir, name), TargetFor(job.outputDir, name),
            job.sampleRate, job.channels, job.bits)
  }

  /** Reference for the loop's collections: the WAV paths of the successful
      attempts and (name, message) for the failed ones, in listing order. */
  function Successes(job: Job, names: seq<string>): seq<string>
    decreases |names|
  {
    if |names| == 0 then []
    else
      var a := Attempt(job, names[|names| - 1]);
      Successes(job, names[..|names| - 1]) + (if a.Ok? then [a.value.output] else [])
  }

  function Failures(job: Job, names: seq<string>): seq<(string, string)>
    decreases |names|
  {
    if |names| == 0 then []
    else
      var name := names[|names| - 1];
      var a := Attempt(job, name);
      Failures(job, names[..|names| - 1]) + (if a.Err? then [(name, a.error.message)] else [])
  }

  /** Every selected file is either converted or reported, never both. */
  lemma {:induction false} Accounting(job: Job, names: seq<string>)
    ensures |Successes(job, names)| + |Failures(job, names)| == |names|
    decreases |names|
  {
    if |names| > 0 {
      Accounting(job, names[..|names| - 1]);
    }
  }

  /** A run in which every conversion fails still succeeds, with every
      selected file reported as an error. */
  lemma {:induction false} AllFailing(job: Job, names: seq<string>)
    requires forall i :: 0 <= i < |names| ==> Attempt(job, names[i]).Err?
    ensures Successes(job, names) == []
    ensures |Failures(job, names)| == |names|
    decreases |names|
  {
    if |names| > 0 {
      var init := names[..|names| - 1];
      assert forall i :: 0 <= i < |init| ==> init[i] == names[i];
      AllFailing(job, init);
    }
  }

  /** One more attempt extends the collections by its own outcome. */
  lemma AttemptStep(job: Job, names: seq<string>, k: nat)
    requires k < |names|
    ensures var a := Attempt(job, names[k]);
            && Successes(job, names[..k + 1]) == Successes(job, names[..k]) + (if a.Ok? then [a.value.output] else [])
            && Failures(job, names[..k + 1]) == Failures(job, names[..k]) + (if a.Err? then [(names[k], a.error.message)] else [])
  {
    assert names[..k + 1][..k] == names[..k];
    assert names[..k + 1][k] == names[k];
  }

  /** `os.makedirs` is called: an output directory is given and absent. */
  predicate MakesOutput(job: Job) {
    Present(job.outputDir) && !job.env.pathExists(job.outputDir.value)
  }

  /** The run gets as far as the conversions: the input is an existing
      directory, creating the output directory (when needed) works, and the
      directory can be listed. */
  predicate Scans(job: Job) {
    && job.env.pathExists(job.inputDir)
    && job.env.isDir(job.inputDir)
    && !(MakesOutput(job) && job.env.makedirsFailure(job.outputDir.value).Some?)
    && job.env.listing(job.inputDir).Entries?
  }

  /** `process_directory`: the directory checks, output-directory creation,
      the listing, the filter, and one conversion per selected file whose
      failure is collected rather than raised. */
  method ProcessDirectory(job: Job) returns (r: Result<DirectoryRun>)
    ensures !job.env.pathExists(job.inputDir) ==>
              r == Err(FileNotFound("Input directory not found: " + job.inputDir))
    ensures job.env.pathExists(job.inputDir) && !job.env.isDir(job.inputDir) ==>
              r == Err(NotADirectory("Input path is not a directory: " + job.inputDir))
    ensures job.env.pathExists(job.inputDir) && job.env.isDir(job.inputDir)
            && MakesOutput(job) && job.env.makedirsFailure(job.outputDir.value).Some? ==>
              r == Err(OsError(job.env.makedirsFailure(job.outputDir.value).value))
    ensures job.env.pathExists(job.inputDir) && job.env.isDir(job.inputDir)
            && !(MakesOutput(job) && job.env.makedirsFailure(job.outputDir.value).Some?)
            && job.env.listing(job.inputDir).ListingFailed? ==>
              r == Err(OsError(job.env.listing(job.inputDir).message))
    ensures r.Ok? <==> Scans(job)
    ensures r.Ok? ==> (r.value.createdOutput <==> MakesOutput(job))
    ensures r.Ok? ==>
              var selected := SelectMp3(job.env.listing(job.inputDir).names);
              r.value.converted == Successes(job, selected) && r.value.errors == Failures(job, selected)
              && |r.value.converted| + |r.value.errors| == |selected|
  {
    if !job.env.pathExists(job.inputDir) {
      return Err(FileNotFound("Input directory not found: " + job.inputDir));
    }
    if !job.env.isDir(job.inputDir) {
      return Err(NotADirectory("Input path is not a directory: " + job.inputDir));
    }
    var created := MakesOutput(job);
    if created && job.env.makedirsFailure(job.outputDir.value).Some? {
      return Err(OsError(job.env.makedirsFailure(job.outputDir.value).value));
    }
    var listing := job.env.listing(job.inputDir);
    if listing.ListingFailed? {
      return Err(OsError(listing.message));
    }
    var selected := SelectMp3(listing.names);
    var converted: seq<string> := [];
    var errors: seq<(string, string)> := [];
    var k := 0;
    while k < |selected|
      invariant 0 <= k <= |selected|
      invariant converted == Successes(job, selected[..k])
      invariant errors == Failures(job, selected[..k])
    {
      var name := selected[k];
      var a := Attempt(job, name);
      AttemptStep(job, selected, k);
      if a.Ok? {
        converted := converted + [a.value.output];
      } else {
        errors := errors + [(name, a.error.message)];
      }
      k := k + 1;
    }
    assert selected[..k] == selected;
    Accounting(job, selected);
    return Ok(DirectoryRun(converted, errors, created));
  }

  /** `main` of mp3_to_wav_utility.py: 1 when the directory run raises,
      else 0. Failed conversions of single files do not change it. */
  method UtilityMain(job: Job) returns (code: int)
    ensures code == 0 <==> Scans(job)
    ensures job.env.pathExists(job.inputDir) && job.env.isDir(job.inputDir)
            && job.env.listing(job.inputDir).ListingFailed? ==>
              code == 1
    ensures code == 0 || code == 1
  {
    var r := ProcessDirectory(job);
    code := if r.Ok? then 0 else 1;
  }

  /** `main` of mp3_to_wav.py: 1 when the conversion raises, else 0. */
  function ConverterMain(env: Env, input: string, output: Option<string>, sampleRate: int, channels: int, bits: int)
    : (code: int)
    ensures code == 0 <==> env.pathExists(input) && env.conversionFailure(input, OutputFor(input, output)).None?
    ensures code == 0 || code == 1
  {
    if Convert(env, input, output, sampleRate, channels, bits).Ok? then 0 else 1
  }
}
