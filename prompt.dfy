/** The prompt builder: handle_url, which offers the download options for a url. */
module Prompt {
  import opened Sink
  import opened Payload

  const HighLabel: string := "Видео (Высокое качество)"
  const LowLabel: string := "Видео (Низкое качество)"
  const AudioLabel: string := "Только аудио"
  const FfmpegWarning: string := "Внимание: FFmpeg не установлен. Опция 'Только аудио' недоступна."
  const PromptText: string := "Выберите формат загрузки:"

  /** The inline keyboard: both video options in the first row, audio in a second row only with FFmpeg. */
  function Keyboard(url: string, ffmpeg: bool): (rows: seq<seq<Button>>)
    ensures |rows| == if ffmpeg then 2 else 1
    ensures rows[0] == [Button(HighLabel, Encode(VideoHigh, url)), Button(LowLabel, Encode(VideoLow, url))]
    ensures ffmpeg ==> rows[1] == [Button(AudioLabel, Encode(Audio, url))]
  {
    var rows := [[Button(HighLabel, Encode(VideoHigh, url)), Button(LowLabel, Encode(VideoLow, url))]];
    if ffmpeg then rows + [[Button(AudioLabel, Encode(Audio, url))]] else rows
  }

  /** The transport's log after handle_url runs on a transport whose log was `log`. */
  function PromptSpec(rejected: map<nat, string>, log: seq<Event>, chat: int, url: string, ffmpeg: bool): Trace
  {
    var prompt := SendPrompt(chat, PromptText, Keyboard(url, ffmpeg));
    var warned := log + [SendMessage(chat, FfmpegWarning)];
    if ffmpeg then Trace(log + [prompt], ExitAt(rejected, |log|))
    else if |log| in rejected then Trace(warned, Raised(rejected[|log|]))
    else Trace(warned + [prompt], ExitAt(rejected, |warned|))
  }

  /**
   * handle_url: builds the keyboard row by row, warns about the missing
   * FFmpeg, then sends the prompt. A rejected call raises out of the handler.
   */
  method HandleUrl(bot: Bot, chat: int, url: string, ffmpeg: bool) returns (exit: Exit)
    modifies bot
    ensures var t := PromptSpec(bot.rejected, old(bot.log), chat, url, ffmpeg);
      bot.log == t.log && exit == t.exit
  {
    var rows := [[Button(HighLabel, Encode(VideoHigh, url)), Button(LowLabel, Encode(VideoLow, url))]];
    if ffmpeg {
      rows := rows + [[Button(AudioLabel, Encode(Audio, url))]];
    } else {
      var warned := bot.Call(SendMessage(chat, FfmpegWarning));
      if warned.Failure? {
        return Raised(warned.error);
      }
    }
    var prompted := bot.Call(SendPrompt(chat, PromptText, rows));
    if prompted.Failure? {
      return Raised(prompted.error);
    }
    return Completed;
  }

  /** Every button's payload decodes back to an option tag and the url; `audio` only in the second row. */
  lemma ButtonsRoundTrip(url: string, ffmpeg: bool)
    ensures var rows := Keyboard(url, ffmpeg);
      forall i, j | 0 <= i < |rows| && 0 <= j < |rows[i]| ::
        var d := Decode(rows[i][j].callbackData);
        d.Some? && IsTag(d.value.0) && d.value.1 == url && (d.value.0 == Audio <==> i == 1)
  {
    var rows: seq<seq<Button>> := Keyboard(url, ffmpeg);
    forall i, j | 0 <= i < |rows| && 0 <= j < |rows[i]|
      ensures var d := Decode(rows[i][j].callbackData);
        d.Some? && IsTag(d.value.0) && d.value.1 == url && (d.value.0 == Audio <==> i == 1)
    {
      var tag := if i == 1 then Audio else if j == 0 then VideoHigh else VideoLow;
      assert rows[i][j].callbackData == Encode(tag, url);
      TagRoundTrip(tag, url);
    }
  }

  /** With every call accepted: the warning exactly without FFmpeg, and the prompt always last. */
  lemma PromptOrder(log: seq<Event>, chat: int, url: string, ffmpeg: bool)
    ensures var t := PromptSpec(map[], log, chat, url, ffmpeg);
      && t.exit == Completed
      && t.log[..|log|] == log
      && |t.log| == |log| + (if ffmpeg then 1 else 2)
      && t.log[|t.log| - 1] == SendPrompt(chat, PromptText, Keyboard(url, ffmpeg))
      && (SendMessage(chat, FfmpegWarning) in t.log[|log|..] <==> !ffmpeg)
  {
    var t := PromptSpec(map[], log, chat, url, ffmpeg);
    var prompt := SendPrompt(chat, PromptText, Keyboard(url, ffmpeg));
    if ffmpeg {
      assert t.log[|log|..] == [prompt];
    } else {
      assert t.log[|log|..] == [SendMessage(chat, FfmpegWarning), prompt];
    }
  }
}
