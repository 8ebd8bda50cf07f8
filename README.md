# yt_tt_downloader bot core, modelled in Dafny

The bot is a Telegram bot:

1. A user sends it a link.
2. The bot answers with an inline keyboard. It offers high-quality video, low-quality video, and audio only. The audio button is offered only when FFmpeg is installed; without FFmpeg the bot first sends a warning.
3. Each button carries the payload `<tag>:<url>`.
4. The callback handler splits the payload on its first colon and sends a "starting" status message. It then builds the yt-dlp options, lets yt-dlp download the file, checks the expected file name, sends the file as a video or an audio, deletes it and edits the status message to "done".
5. Any exception inside the try block (bot.py:85-90) becomes one error message in the chat. A payload without a colon, or a rejected starting message, raises out of the handler with no message, and so does a rejected error message. A rejected progress edit is swallowed.

The model has one module per part of `bot.py`:

- `Common`: Option/Result, Python's `str * n` as `Repeat`, a character count.
- `Sink`: the Telegram transport as class `Bot`. Every call is appended to `log`, and `rejected` maps a log position to the error text the transport raises for the call made there. A message sent at position p gets message id p. The working directory is class `Disk`, a map from file name to size.
- `Progress`: `create_progress_bar` and `progress_hook`.
- `Payload`: the option tags and the `<tag>:<url>` payload, with `split(':', 1)`.
- `Options`: `get_ydl_opts`, returning a record or the exception's text.
- `Download`: `download_file`. yt-dlp is a parameter of type `Engine`, a function from url, options and the directory before the run to the samples it reports, the title (or the error text) and the directory it leaves.
- `Prompt`: `handle_url`.
- `Coordinator`: `callback_query_handler` and `send_file`.

Each handler-level method (`HandleUrl`, `SendFile`, `Deliver`, `RunJob`, `HandleRequest`, `HandleCallback`) comes with a specification function. That function takes the log and directory before the step and returns the log, the directory and how the step ends: completed, or an exception escaping with its text. The method's postcondition equates its effect with that function, and the lemmas state the source's promises about the function.

Where the code's behaviour differs from what one would expect of it, the model follows the code:

- A file that fails validation (missing or empty) is not removed.
- A file whose delivery failed is still removed, and the status still says "done", because `send_file` swallows its own error.
- When `send_file`'s fallback message is rejected too, the exception skips `os.remove`, so the file stays on disk (`RejectedReportLeavesFile`).

## Model

| member | source | states |
|---|---|---|
| Common.Repeat | bot.py:36 | `c * n` has n copies of c, and none when n is zero or negative |
| Progress.FilledLength | bot.py:35 | the filled length is the floor of width·percent/100, the value of Python's `//` on that product |
| Progress.Cells | bot.py:36 | the cells between the brackets are all full or empty cells, and no empty cell comes before a full one |
| Progress.FilledLengthBounds | bot.py:35 | for 0 ≤ percent ≤ 100, the filled length lies between 0 and the width |
| Progress.BarCells | bot.py:34-37 | for 0 ≤ percent ≤ 100 the bar has exactly `width` cells: `filled` full cells first, then empty ones; 0% is all empty and 100% all full |
| Progress.CreateProgressBar | bot.py:34-37 | the bar text opens with `[` and ends with `] ` followed by the shown percentage and `%` |
| Progress.BarLayout | bot.py:34-37 | for 0 ≤ percent ≤ 100 the bar text is `[`, then `width` cells whose first floor(width·percent/100) are full and the rest empty, then `] shown%` |
| Progress.OverfullBar | bot.py:35-36 | above 100% the bar is all full cells, one per filled unit, with no empty remainder (Python's negative repeat gives an empty string) |
| Progress.ProgressText | bot.py:44-45 | the status text starts with the `Скачивание: ` label and ends with the time left |
| Progress.StatusTextBar | bot.py:39-45 | for 0 ≤ percent ≤ 100 the status text is the label, `[`, a 20-cell bar with floor(20·percent/100) full cells first and the rest empty, then `] shown%`, the speed line and the time left |
| Progress.HookEvents | bot.py:39-50 | one sample yields at most one call, an edit of the given chat's status message with the progress text, exactly when its status is `downloading` |
| Progress.HookEdits | bot.py:99 | the calls the hook makes for a stream of samples: each sample's own calls, in the engine's order |
| Progress.HookEditsAreStatusEdits | bot.py:39-50 | over a stream of samples the hook only edits the one status message, at most once per sample, and never without a `downloading` sample |
| Progress.ProgressHook | bot.py:39-50 | the hook appends exactly that sample's edit to the log; a rejected edit is swallowed and nothing escapes |
| Payload.Encode | bot.py:64-71 | a button's payload is the tag, one colon, then the whole url |
| Payload.FirstColon | bot.py:80 | finds the first colon: absent exactly when the text has none, otherwise a colon with none before it |
| Payload.Decode | bot.py:80 | fails exactly when the payload has no colon; otherwise the first part has no colon and `first + ":" + rest` is the payload |
| Payload.DecodeEncode | bot.py:64-80 | splitting `tag:url` gives back the tag and the whole url, colons included, for any tag without a colon |
| Payload.TagRoundTrip | bot.py:29-32 | every option tag survives that round trip |
| Sink.Disk.Remove | bot.py:89 | removing a file deletes exactly that name from the directory |
| Options.GetYdlOpts | bot.py:96-120 | raises exactly for `audio` without FFmpeg, with that message. Otherwise it fixes the template, restricted names and the hook's chat and message. `video*` tags get best or worst streams with MP4 conversion; `audio` gets best audio with MP3 extraction at 192; others get neither |
| Download.ExtractsAudio | bot.py:128 | holds exactly when the options carry a non-empty post-processor list whose first entry is `FFmpegExtractAudio` |
| Download.ExpectedName | bot.py:128-131 | the expected name is the title plus `.mp3` exactly when the first post-processor extracts audio, `.mp4` otherwise |
| Download.Validate | bot.py:133-141 | success exactly when the file exists with a positive size. Missing is checked first, with its message; an empty file gets the empty-file message |
| Download.DownloadResult | bot.py:122-146 | an engine error is re-raised unchanged; success exactly when the engine succeeded and the expected name exists with a positive size, and the result names that file |
| Download.ReportProgress | bot.py:99 | every sample the engine reports reaches the hook, in order |
| Download.DownloadFile | bot.py:122-146 | the log gains the hook's edits for the run's samples, the directory is what the engine left, and the result is `DownloadResult` |
| Download.ArtifactMatchesOption | bot.py:103-131 | whenever the options resolve, the expected file ends in `.mp3` exactly for `audio` |
| Prompt.Keyboard | bot.py:62-72 | first row: both video buttons with their payloads; a second row with the audio button exactly when FFmpeg is present |
| Prompt.HandleUrl | bot.py:57-76 | the log and exit are those of `PromptSpec`: warning only without FFmpeg, then the prompt; a rejected call escapes |
| Prompt.ButtonsRoundTrip | bot.py:62-80 | every button's payload splits back into an option tag and the url, and the tag is `audio` exactly on the second row |
| Prompt.PromptOrder | bot.py:69-76 | with every call accepted, the bot makes one call with FFmpeg and two without; the prompt is always last, and the warning appears exactly when FFmpeg is missing |
| Coordinator.Delivery | bot.py:151-154 | a tag starting with `video` is sent as a video, any other as an audio, to the same chat and file |
| Coordinator.SendFile | bot.py:148-158 | the log and exit are those of `SendFileSpec`: a rejected delivery is reported and swallowed, and only a rejected report escapes |
| Coordinator.Deliver | bot.py:88-90 | send, remove, edit to "done", as `DeliverSpec` says; a failure escaping `send_file` skips the removal |
| Coordinator.Conclude | bot.py:91-93 | the except clause never changes the directory; a completed try block adds nothing, a raised one adds one message with the download-error prefix and its text, and that message's rejection escapes with the transport's text |
| Coordinator.RunJob | bot.py:85-90 | the try block's log, directory and exit are those of `JobSpec` |
| Coordinator.HandleRequest | bot.py:81-94 | the handler after the split matches `RequestSpec`: start message, try block, one error message when the try block raised |
| Coordinator.HandleCallback | bot.py:78-94 | the whole handler matches `HandleSpec` |
| Coordinator.EncodedRequest | bot.py:80 | a payload `tag:url` reaches the request with that tag and url |
| Coordinator.MalformedPayload | bot.py:80 | a payload without a colon raises the unpacking error, and nothing is sent or removed |
| Coordinator.RejectedStart | bot.py:83 | a rejected start message escapes, after which nothing is resolved, downloaded or removed |
| Coordinator.SuccessfulRequest | bot.py:83-90 | with every call accepted: start, progress edits, delivery, "done" edit; the artifact is removed and nothing else changes |
| Coordinator.RejectedDelivery | bot.py:148-158 | a rejected delivery is reported by `send_file` and swallowed. The file is still removed and the status still reads "done" |
| Coordinator.RejectedReportLeavesFile | bot.py:156-158 | when the fallback report is rejected too, its error reaches the handler's except clause, and the delivered file stays on disk |
| Coordinator.RejectedDoneEdit | bot.py:90-93 | a rejected "done" edit happens after the removal and is reported as a download error |
| Coordinator.ResolutionFailure | bot.py:109-118 | a failed resolution means no engine run and no file change, only the start message and one error message |
| Coordinator.DownloadFailure | bot.py:85-93 | a failed download is followed by no delivery and no removal; the progress edits are followed by one error message |
| Coordinator.EmptyArtifactStays | bot.py:140-141 | an empty artifact is reported with the empty-file message and stays on disk with size 0 |
| Coordinator.OnlyArtifactRemoved | bot.py:85-94 | whatever the transport rejects, the handler leaves the directory as the engine left it, or removes exactly the validated file |
| Coordinator.VideoLowScenario | bot.py:103-108 | low-quality video: worst streams with MP4 conversion, sent as a video named after the title, then removed |
| Coordinator.AudioWithoutFfmpegScenario | bot.py:109-118 | audio without FFmpeg: exactly the start message and one error message, and the directory is unchanged |

## Left out

- The Telegram transport (aiogram): calls are log entries, and a failure is an entry in `rejected` at the call's log position. Message ids are taken to be log positions.
- yt-dlp itself is the `Engine` parameter. This leaves out format selection, the actual download, title sanitisation by `restrictfilenames` and the output template's expansion. The model keeps only the name the bot expects and the checks it makes. Because `restrictfilenames` sanitises the name yt-dlp writes while bot.py:129-131 builds the expected name from the raw `info['title']`, a title with spaces or non-ASCII characters fails the existence check at bot.py:133-135 even after a successful download. The model allows exactly that outcome, since the engine may leave any directory, but no lemma singles it out.
- Asynchronous scheduling: `progress_hook` is scheduled with `asyncio.create_task`, but `download_file` (bot.py:122-146) never awaits and `extract_info` blocks the event loop, so no scheduled edit runs while the download is going on. The edits only run, as one burst, once the handler next suspends: in `send_video`/`send_audio` inside `send_file`, or in the except clause's `send_message`. They then race that delivery or error message, and a late edit can overwrite the "done" text. The model instead runs the hook synchronously, once per sample in the engine's order, before the engine's result is looked at, so its logs show the edits before the delivery. Two requests running at the same time are not modelled.
- Progress.CreateProgressBar: float arithmetic is modelled on exact reals, and the `:.1f` rendering of the percentage is left out; the rendered percentage is a given field of each sample.
- Progress.ProgressHook: parsing `_percent_str` with `float(...)` (bot.py:41) is left out; a sample carries its percent as a number. In the source that parse runs before the `try` at bot.py:47, so a percent text that does not parse raises inside the scheduled task and that sample makes no edit, while the model edits on every `downloading` sample.
- Logging (every `logger` call) is not modelled.
- `shutil.which('ffmpeg')` is the boolean parameter `ffmpeg`.
- `FSInputFile` and the bytes of the file are not modelled; a file is a name and a size.
- `message.text` being absent, and Telegram's limit on the length of `callback_data`, are not modelled. The url is only ever passed to the engine.
- `send_welcome`, `main` and the bot and dispatcher setup are not modelled.
