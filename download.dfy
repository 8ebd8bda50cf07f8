/**
 * The job runner: download_file. The extraction engine is a parameter; the
 * model keeps what the bot itself decides: the expected file name and the
 * checks made on it.
 */
module Download {
  import opened Common
  import opened Sink
  import opened Progress
  import opened Options

  const MissingPrefix: string := "Файл не был скачан или имеет неожиданное имя: "
  const EmptyFile: string := "Скачанный файл пуст"

  /**
   * What one run of yt-dlp does: the progress samples it reports, the title it
   * extracts or the text of the exception it raises, and the directory it leaves.
   */
  datatype EngineRun = EngineRun(samples: seq<Sample>, outcome: Result<string, string>, filesAfter: map<string, nat>)

  /** The engine's behaviour on a url, an options dictionary and the directory it starts from. */
  type Engine = (string, YdlOptions, map<string, nat>) -> EngineRun

  /** The first post-processor is the audio extractor. */
  predicate ExtractsAudio(opts: YdlOptions)
  {
    opts.postprocessors.Some? && |opts.postprocessors.value| > 0
      && opts.postprocessors.value[0].FFmpegExtractAudio?
  }

  /** The name download_file expects: the title with `.mp3` after audio extraction, `.mp4` otherwise. */
  function ExpectedName(title: string, opts: YdlOptions): (name: string)
    ensures |name| == |title| + 4 && name[..|title|] == title
    ensures name[|title|..] == ".mp3" <==> ExtractsAudio(opts)
    ensures name[|title|..] == ".mp4" <==> !ExtractsAudio(opts)
  {
    if ExtractsAudio(opts) then title + ".mp3" else title + ".mp4"
  }

  /** The two checks on the expected file, in their order; they only read the directory. */
  function Validate(files: map<string, nat>, name: string): (r: Result<string, string>)
    ensures r.Success? <==> name in files && files[name] > 0
    ensures r.Success? ==> r.value == name
    ensures name !in files ==> r == Failure(MissingPrefix + name)
    ensures name in files && files[name] == 0 ==> r == Failure(EmptyFile)
  {
    if name !in files then Failure(MissingPrefix + name)
    else if files[name] == 0 then Failure(EmptyFile)
    else Success(name)
  }

  /** What download_file returns or raises after the engine has run. */
  function DownloadResult(opts: YdlOptions, run: EngineRun): (r: Result<string, string>)
    ensures run.outcome.Failure? ==> r == Failure(run.outcome.error)
    ensures r.Success? <==>
      run.outcome.Success? && ExpectedName(run.outcome.value, opts) in run.filesAfter
        && run.filesAfter[ExpectedName(run.outcome.value, opts)] > 0
    ensures r.Success? ==> r.value == ExpectedName(run.outcome.value, opts) && r.value in run.filesAfter
  {
    match run.outcome
    case Failure(e) => Failure(e)
    case Success(title) => Validate(run.filesAfter, ExpectedName(title, opts))
  }

  /** The engine hands each of its samples to the hook, in order. */
  /** One more sample extends the hook's calls by that sample's own. */
  lemma HookEditsStep(log: seq<Event>, samples: seq<Sample>, i: int, chat: int, messageId: nat)
    requires 0 <= i < |samples|
    ensures log + HookEdits(samples[..i + 1], chat, messageId)
         == log + HookEdits(samples[..i], chat, messageId) + HookEvents(samples[i], chat, messageId)
  {
    assert samples[..i + 1][..i] == samples[..i];
  }

  method ReportProgress(bot: Bot, samples: seq<Sample>, chat: int, messageId: nat)
    modifies bot
    ensures bot.log == old(bot.log) + HookEdits(samples, chat, messageId)
  {
    for i := 0 to |samples|
      invariant bot.log == old(bot.log) + HookEdits(samples[..i], chat, messageId)
    {
      ProgressHook(bot, samples[i], chat, messageId);
      HookEditsStep(old(bot.log), samples, i, chat, messageId);
    }
    assert samples[..|samples|] == samples;
  }

  /**
   * download_file(url, ydl_opts). The engine's progress samples reach the
   * hook one after another while it runs; the directory it leaves is what the
   * checks then read, and nothing here changes it again.
   */
  method DownloadFile(bot: Bot, disk: Disk, url: string, opts: YdlOptions, engine: Engine)
    returns (r: Result<string, string>)
    modifies bot, disk
    ensures var run := engine(url, opts, old(disk.files));
      && bot.log == old(bot.log) + HookEdits(run.samples, opts.hookChat, opts.hookMessage)
      && disk.files == run.filesAfter
      && r == DownloadResult(opts, run)
  {
    var run := engine(url, opts, disk.files);
    ReportProgress(bot, run.samples, opts.hookChat, opts.hookMessage);
    disk.files := run.filesAfter;
    if run.outcome.Failure? {
      return Failure(run.outcome.error);
    }
    var name := ExpectedName(run.outcome.value, opts);
    if name !in disk.files {
      return Failure(MissingPrefix + name);
    }
    var size := disk.files[name];
    if size == 0 {
      return Failure(EmptyFile);
    }
    return Success(name);
  }

  /** The expected file's extension follows the tag: `.mp3` exactly for `audio`. */
  lemma ArtifactMatchesOption(option: string, title: string, chat: int, messageId: nat, ffmpeg: bool)
    requires GetYdlOpts(option, chat, messageId, ffmpeg).Success?
    ensures var name := ExpectedName(title, GetYdlOpts(option, chat, messageId, ffmpeg).value);
      name == title + (if option == Payload.Audio then ".mp3" else ".mp4")
  {
    var opts := GetYdlOpts(option, chat, messageId, ffmpeg).value;
    var name := ExpectedName(title, opts);
    assert name == name[..|title|] + name[|title|..];
    if option == Payload.Audio {
      assert !StartsWith(option, "video");
    }
  }
}
