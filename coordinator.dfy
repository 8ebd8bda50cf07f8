/**
 * The request coordinator: callback_query_handler and send_file. One
 * callback runs a fixed sequence of transport calls and at most one file
 * removal; every exception inside the try block becomes one error message.
 *
 * Every specification function here takes the transport's log as it stood
 * before the step and returns the log after it, so a call's log position
 * (and with it its message id and whether it is rejected) is the length of
 * the log in front of it.
 */
module Coordinator {
  import opened Common
  import opened Sink
  import opened Progress
  import opened Payload
  import opened Options
  import opened Download

  const StartText: string := "Начинаю загрузку..."
  const DoneText: string := "Загрузка завершена!"
  const DownloadErrorPrefix: string := "Произошла ошибка при скачивании: "
  const SendErrorPrefix: string := "Произошла ошибка при отправке файла: "
  /** The text of the ValueError raised when a payload without a colon is unpacked. */
  const UnpackError: string := "not enough values to unpack (expected 2, got 1)"

  /** send_file's choice: a video for a tag starting with `video`, an audio file otherwise. */
  function Delivery(chat: int, path: string, option: string): (e: Event)
    ensures e.SendVideo? || e.SendAudio?
    ensures e.SendVideo? <==> StartsWith(option, "video")
    ensures e.chat == chat && e.path == path
  {
    if StartsWith(option, "video") then SendVideo(chat, path) else SendAudio(chat, path)
  }

  /** The log after send_file. */
  function SendFileSpec(rejected: map<nat, string>, log: seq<Event>, chat: int, path: string, option: string): Trace
  {
    var sent := log + [Delivery(chat, path, option)];
    if |log| !in rejected then Trace(sent, Completed)
    else Trace(sent + [SendMessage(chat, SendErrorPrefix + rejected[|log|])], ExitAt(rejected, |sent|))
  }

  /**
   * send_file: a rejected delivery is reported to the chat and swallowed; only
   * a rejected report escapes.
   */
  method SendFile(bot: Bot, chat: int, path: string, option: string) returns (exit: Exit)
    modifies bot
    ensures var t := SendFileSpec(bot.rejected, old(bot.log), chat, path, option);
      bot.log == t.log && exit == t.exit
  {
    var sent: Result<nat, string>;
    if StartsWith(option, "video") {
      sent := bot.Call(SendVideo(chat, path));
    } else {
      sent := bot.Call(SendAudio(chat, path));
    }
    if sent.Failure? {
      var reported := bot.Call(SendMessage(chat, SendErrorPrefix + sent.error));
      if reported.Failure? {
        return Raised(reported.error);
      }
    }
    return Completed;
  }

  /** The end of the try block once download_file returned `path`: send_file, os.remove and the "done" edit. */
  function DeliverSpec(rejected: map<nat, string>, log: seq<Event>, files: map<string, nat>, chat: int,
                       messageId: nat, path: string, option: string): Outcome
  {
    var delivery := SendFileSpec(rejected, log, chat, path, option);
    if delivery.exit.Raised? then Outcome(delivery.log, files, delivery.exit)
    else
      Outcome(delivery.log + [EditMessage(chat, messageId, DoneText)],
              files - {path},
              ExitAt(rejected, |delivery.log|))
  }

  /** The try block of callback_query_handler. */
  function JobSpec(rejected: map<nat, string>, log: seq<Event>, files: map<string, nat>, option: string, url: string,
                   chat: int, messageId: nat, ffmpeg: bool, engine: Engine): Outcome
  {
    match GetYdlOpts(option, chat, messageId, ffmpeg)
    case Failure(e) => Outcome(log, files, Raised(e))
    case Success(opts) =>
      var run := engine(url, opts, files);
      var progressed := log + HookEdits(run.samples, chat, messageId);
      match DownloadResult(opts, run)
      case Failure(e) => Outcome(progressed, run.filesAfter, Raised(e))
      case Success(path) => DeliverSpec(rejected, progressed, run.filesAfter, chat, messageId, path, option)
  }

  /** The except clause after the try block: a raised exception is reported in one more message. */
  function Conclude(rejected: map<nat, string>, chat: int, job: Outcome): (o: Outcome)
    ensures o.files == job.files
    ensures |o.log| == |job.log| + (if job.exit.Raised? then 1 else 0) && o.log[..|job.log|] == job.log
    ensures job.exit.Raised? ==> o.log[|job.log|] == SendMessage(chat, DownloadErrorPrefix + job.exit.reason)
    ensures o.exit.Raised? <==> job.exit.Raised? && |job.log| in rejected
    ensures o.exit.Raised? ==> o.exit.reason == rejected[|job.log|]
  {
    if job.exit.Completed? then job
    else
      Outcome(job.log + [SendMessage(chat, DownloadErrorPrefix + job.exit.reason)],
              job.files,
              ExitAt(rejected, |job.log|))
  }

  /** The callback once its payload is split into option and url; the starting message's id is |log|. */
  function RequestSpec(rejected: map<nat, string>, log: seq<Event>, files: map<string, nat>, option: string,
                       url: string, chat: int, ffmpeg: bool, engine: Engine): Outcome
  {
    var started := log + [SendMessage(chat, StartText)];
    if |log| in rejected then Outcome(started, files, Raised(rejected[|log|]))
    else Conclude(rejected, chat, JobSpec(rejected, started, files, option, url, chat, |log|, ffmpeg, engine))
  }

  /** The whole callback on payload `data`. */
  function HandleSpec(rejected: map<nat, string>, log: seq<Event>, files: map<string, nat>, data: string,
                      chat: int, ffmpeg: bool, engine: Engine): Outcome
  {
    match Decode(data)
    case None => Outcome(log, files, Raised(UnpackError))
    case Some((option, url)) => RequestSpec(rejected, log, files, option, url, chat, ffmpeg, engine)
  }

  /** Lines 88-90 of the try block: deliver, remove, mark done. */
  method Deliver(bot: Bot, disk: Disk, chat: int, messageId: nat, path: string, option: string) returns (exit: Exit)
    requires path in disk.files
    modifies bot, disk
    ensures var o := DeliverSpec(bot.rejected, old(bot.log), old(disk.files), chat, messageId, path, option);
      bot.log == o.log && disk.files == o.files && exit == o.exit
  {
    var sent := SendFile(bot, chat, path, option);
    if sent.Raised? {
      return sent;
    }
    disk.Remove(path);
    var edited := bot.Call(EditMessage(chat, messageId, DoneText));
    if edited.Failure? {
      return Raised(edited.error);
    }
    return Completed;
  }

  /** The try block: resolve, download, then deliver. */
  method RunJob(bot: Bot, disk: Disk, option: string, url: string, chat: int, messageId: nat,
                ffmpeg: bool, engine: Engine) returns (exit: Exit)
    modifies bot, disk
    ensures var o := JobSpec(bot.rejected, old(bot.log), old(disk.files), option, url, chat, messageId, ffmpeg, engine);
      bot.log == o.log && disk.files == o.files && exit == o.exit
  {
    var opts := GetYdlOpts(option, chat, messageId, ffmpeg);
    if opts.Failure? {
      return Raised(opts.error);
    }
    var file := DownloadFile(bot, disk, url, opts.value, engine);
    if file.Failure? {
      return Raised(file.error);
    }
    exit := Deliver(bot, disk, chat, messageId, file.value, option);
  }

  /**
   * callback_query_handler after the split: the starting message gives the id
   * that progress and completion edits target; a failure of the try block
   * becomes one error message.
   */
  method HandleRequest(bot: Bot, disk: Disk, option: string, url: string, chat: int, ffmpeg: bool, engine: Engine)
    returns (exit: Exit)
    modifies bot, disk
    ensures var o := RequestSpec(bot.rejected, old(bot.log), old(disk.files), option, url, chat, ffmpeg, engine);
      bot.log == o.log && disk.files == o.files && exit == o.exit
  {
    var started := bot.Call(SendMessage(chat, StartText));
    if started.Failure? {
      return Raised(started.error);
    }
    var jobExit := RunJob(bot, disk, option, url, chat, started.value, ffmpeg, engine);
    if jobExit.Raised? {
      var reported := bot.Call(SendMessage(chat, DownloadErrorPrefix + jobExit.reason));
      if reported.Failure? {
        return Raised(reported.error);
      }
    }
    return Completed;
  }

  /** callback_query_handler: the payload is split on its first colon before anything is sent. */
  method HandleCallback(bot: Bot, disk: Disk, data: string, chat: int, ffmpeg: bool, engine: Engine)
    returns (exit: Exit)
    modifies bot, disk
    ensures var o := HandleSpec(bot.rejected, old(bot.log), old(disk.files), data, chat, ffmpeg, engine);
      bot.log == o.log && disk.files == o.files && exit == o.exit
  {
    var parts := Decode(data);
    if parts.None? {
      return Raised(UnpackError);
    }
    var option, url := parts.value.0, parts.value.1;
    exit := HandleRequest(bot, disk, option, url, chat, ffmpeg, engine);
  }

  /** A payload built by Encode reaches the request with its own option and url. */
  lemma EncodedRequest(rejected: map<nat, string>, log: seq<Event>, files: map<string, nat>, option: string,
                       url: string, chat: int, ffmpeg: bool, engine: Engine)
    requires ':' !in option
    ensures HandleSpec(rejected, log, files, Encode(option, url), chat, ffmpeg, engine)
      == RequestSpec(rejected, log, files, option, url, chat, ffmpeg, engine)
  {
    DecodeEncode(option, url);
  }

  /** A payload without a colon raises before any call is made. */
  lemma MalformedPayload(rejected: map<nat, string>, log: seq<Event>, files: map<string, nat>, data: string,
                         chat: int, ffmpeg: bool, engine: Engine)
    requires ':' !in data
    ensures HandleSpec(rejected, log, files, data, chat, ffmpeg, engine) == Outcome(log, files, Raised(UnpackError))
  {
  }

  /** A rejected starting message raises before the options are even resolved. */
  lemma RejectedStart(rejected: map<nat, string>, log: seq<Event>, files: map<string, nat>, option: string,
                      url: string, chat: int, ffmpeg: bool, engine: Engine)
    requires |log| in rejected
    ensures RequestSpec(rejected, log, files, option, url, chat, ffmpeg, engine)
      == Outcome(log + [SendMessage(chat, StartText)], files, Raised(rejected[|log|]))
  {
  }

  /**
   * Every call accepted, the options resolved to opts, the engine's run
   * produced a file that passed the checks: start, progress, delivery, removal, done.
   */
  lemma SuccessfulRequest(log: seq<Event>, files: map<string, nat>, option: string, url: string, chat: int,
                          ffmpeg: bool, engine: Engine, opts: YdlOptions, run: EngineRun, path: string)
    requires GetYdlOpts(option, chat, |log|, ffmpeg) == Success(opts)
    requires engine(url, opts, files) == run && DownloadResult(opts, run) == Success(path)
    ensures var o := RequestSpec(map[], log, files, option, url, chat, ffmpeg, engine);
      && o.log == log + [SendMessage(chat, StartText)] + HookEdits(run.samples, chat, |log|)
                  + [Delivery(chat, path, option)] + [EditMessage(chat, |log|, DoneText)]
      && o.files == run.filesAfter - {path}
      && o.exit == Completed
  {
  }

  /**
   * The delivery call, at log position d, is rejected: it is reported, and the
   * file is still removed and the status still marked done.
   */
  lemma RejectedDelivery(log: seq<Event>, files: map<string, nat>, option: string, url: string, chat: int,
                         ffmpeg: bool, engine: Engine, opts: YdlOptions, run: EngineRun, path: string,
                         d: nat, err: string)
    requires GetYdlOpts(option, chat, |log|, ffmpeg) == Success(opts)
    requires engine(url, opts, files) == run && DownloadResult(opts, run) == Success(path)
    requires d == |log| + 1 + |HookEdits(run.samples, chat, |log|)|
    ensures var o := RequestSpec(map[d := err], log, files, option, url, chat, ffmpeg, engine);
      && o.log == log + [SendMessage(chat, StartText)] + HookEdits(run.samples, chat, |log|)
                  + [Delivery(chat, path, option)] + [SendMessage(chat, SendErrorPrefix + err)]
                  + [EditMessage(chat, |log|, DoneText)]
      && o.files == run.filesAfter - {path}
      && o.exit == Completed
  {
  }

  /**
   * The delivery (at position d) and send_file's report of it are both
   * rejected: the report's error reaches the except clause before os.remove,
   * so the file stays on disk.
   */
  lemma RejectedReportLeavesFile(log: seq<Event>, files: map<string, nat>, option: string, url: string, chat: int,
                                 ffmpeg: bool, engine: Engine, opts: YdlOptions, run: EngineRun, path: string,
                                 d: nat, err1: string, err2: string)
    requires GetYdlOpts(option, chat, |log|, ffmpeg) == Success(opts)
    requires engine(url, opts, files) == run && DownloadResult(opts, run) == Success(path)
    requires d == |log| + 1 + |HookEdits(run.samples, chat, |log|)|
    ensures var o := RequestSpec(map[d := err1, d + 1 := err2], log, files, option, url, chat, ffmpeg, engine);
      && o.log == log + [SendMessage(chat, StartText)] + HookEdits(run.samples, chat, |log|)
                  + [Delivery(chat, path, option)] + [SendMessage(chat, SendErrorPrefix + err1)]
                  + [SendMessage(chat, DownloadErrorPrefix + err2)]
      && o.files == run.filesAfter
      && path in o.files
      && o.exit == Completed
  {
  }

  /** The "done" edit, at position d, is rejected after a delivered file: the download error message follows. */
  lemma RejectedDoneEdit(log: seq<Event>, files: map<string, nat>, option: string, url: string, chat: int,
                         ffmpeg: bool, engine: Engine, opts: YdlOptions, run: EngineRun, path: string,
                         d: nat, err: string)
    requires GetYdlOpts(option, chat, |log|, ffmpeg) == Success(opts)
    requires engine(url, opts, files) == run && DownloadResult(opts, run) == Success(path)
    requires d == |log| + 2 + |HookEdits(run.samples, chat, |log|)|
    ensures var o := RequestSpec(map[d := err], log, files, option, url, chat, ffmpeg, engine);
      && o.log == log + [SendMessage(chat, StartText)] + HookEdits(run.samples, chat, |log|)
                  + [Delivery(chat, path, option)] + [EditMessage(chat, |log|, DoneText)]
                  + [SendMessage(chat, DownloadErrorPrefix + err)]
      && o.files == run.filesAfter - {path}
      && o.exit == Completed
  {
  }

  /** Resolution fails: the engine never runs, nothing is sent or removed, one error message follows the start. */
  lemma ResolutionFailure(log: seq<Event>, files: map<string, nat>, option: string, url: string, chat: int,
                          ffmpeg: bool, engine: Engine)
    requires GetYdlOpts(option, chat, |log|, ffmpeg).Failure?
    ensures var o := RequestSpec(map[], log, files, option, url, chat, ffmpeg, engine);
      && o.log == log + [SendMessage(chat, StartText)] + [SendMessage(chat, DownloadErrorPrefix + AudioUnavailable)]
      && o.files == files
      && o.exit == Completed
  {
  }

  /**
   * The download fails with `err` (engine error, missing or empty file): no
   * delivery and no removal; the directory is left as the engine left it, and
   * one error message follows the progress edits.
   */
  lemma DownloadFailure(log: seq<Event>, files: map<string, nat>, option: string, url: string, chat: int,
                        ffmpeg: bool, engine: Engine, opts: YdlOptions, run: EngineRun, err: string)
    requires GetYdlOpts(option, chat, |log|, ffmpeg) == Success(opts)
    requires engine(url, opts, files) == run && DownloadResult(opts, run) == Failure(err)
    ensures var o := RequestSpec(map[], log, files, option, url, chat, ffmpeg, engine);
      && o.log == log + [SendMessage(chat, StartText)] + HookEdits(run.samples, chat, |log|)
                  + [SendMessage(chat, DownloadErrorPrefix + err)]
      && (forall i | |log| <= i < |o.log| :: !o.log[i].SendVideo? && !o.log[i].SendAudio?)
      && o.files == run.filesAfter
      && o.exit == Completed
  {
    var progress := HookEdits(run.samples, chat, |log|);
    HookEditsAreStatusEdits(run.samples, chat, |log|);
    var o := RequestSpec(map[], log, files, option, url, chat, ffmpeg, engine);
    forall i | |log| <= i < |o.log|
      ensures !o.log[i].SendVideo? && !o.log[i].SendAudio?
    {
      if |log| + 1 <= i < |log| + 1 + |progress| {
        assert o.log[i] == progress[i - |log| - 1];
        assert o.log[i] in progress;
      }
    }
  }

  /** An empty artifact is reported as such and stays on disk with size 0. */
  lemma EmptyArtifactStays(log: seq<Event>, files: map<string, nat>, option: string, url: string, chat: int,
                           ffmpeg: bool, engine: Engine, opts: YdlOptions, run: EngineRun, title: string)
    requires GetYdlOpts(option, chat, |log|, ffmpeg) == Success(opts)
    requires engine(url, opts, files) == run && run.outcome == Success(title)
    requires ExpectedName(title, opts) in run.filesAfter && run.filesAfter[ExpectedName(title, opts)] == 0
    ensures var o := RequestSpec(map[], log, files, option, url, chat, ffmpeg, engine);
      && o.log[|o.log| - 1] == SendMessage(chat, DownloadErrorPrefix + EmptyFile)
      && ExpectedName(title, opts) in o.files && o.files[ExpectedName(title, opts)] == 0
  {
    DownloadFailure(log, files, option, url, chat, ffmpeg, engine, opts, run, EmptyFile);
  }

  /** Whatever the transport does, the handler itself removes at most one file: the validated artifact. */
  lemma OnlyArtifactRemoved(rejected: map<nat, string>, log: seq<Event>, files: map<string, nat>, data: string,
                            chat: int, ffmpeg: bool, engine: Engine)
    ensures var o := HandleSpec(rejected, log, files, data, chat, ffmpeg, engine);
      if Decode(data).None? || |log| in rejected then o.files == files
      else
        var opts := GetYdlOpts(Decode(data).value.0, chat, |log|, ffmpeg);
        if opts.Failure? then o.files == files
        else
          var run := engine(Decode(data).value.1, opts.value, files);
          var r := DownloadResult(opts.value, run);
          o.files == run.filesAfter || (r.Success? && o.files == run.filesAfter - {r.value})
  {
  }

  /** The low-quality video example: worst streams, MP4 conversion, sent as video, then removed. */
  lemma VideoLowScenario(log: seq<Event>, chat: int, files: map<string, nat>, url: string)
    ensures GetYdlOpts(VideoLow, chat, |log|, true).value.format == Some(WorstVideo)
    ensures GetYdlOpts(VideoLow, chat, |log|, true).value.postprocessors == Some([FFmpegVideoConvertor("mp4")])
    ensures var engine: Engine := (u, opts, before) => EngineRun([], Success("my-title"), before["my-title.mp4" := 512000]);
      var o := HandleSpec(map[], log, files, Encode(VideoLow, url), chat, true, engine);
      && o.log == log + [SendMessage(chat, StartText)] + [SendVideo(chat, "my-title.mp4")]
                  + [EditMessage(chat, |log|, DoneText)]
      && "my-title.mp4" !in o.files
      && o.exit == Completed
  {
    var engine: Engine := (u, opts, before) => EngineRun([], Success("my-title"), before["my-title.mp4" := 512000]);
    EncodedRequest(map[], log, files, VideoLow, url, chat, true, engine);
    assert StartsWith(VideoLow, "video");
    var opts := GetYdlOpts(VideoLow, chat, |log|, true).value;
    var run := engine(url, opts, files);
    assert ExpectedName("my-title", opts) == "my-title.mp4";
    var started := log + [SendMessage(chat, StartText)];
    assert started + HookEdits(run.samples, chat, |log|) == started;
    SuccessfulRequest(log, files, VideoLow, url, chat, true, engine, opts, run, "my-title.mp4");
  }

  /** Audio without FFmpeg: the engine never runs, exactly one error message, no file appears. */
  lemma AudioWithoutFfmpegScenario(log: seq<Event>, chat: int, files: map<string, nat>, url: string, engine: Engine)
    ensures var o := HandleSpec(map[], log, files, Encode(Audio, url), chat, false, engine);
      && o.log == log + [SendMessage(chat, StartText)] + [SendMessage(chat, DownloadErrorPrefix + AudioUnavailable)]
      && o.files == files
  {
    EncodedRequest(map[], log, files, Audio, url, chat, false, engine);
    ResolutionFailure(log, files, Audio, url, chat, false, engine);
  }
}
