/**
 * The progress tracker: the text-mode progress bar and the hook the
 * extraction engine calls with each progress sample.
 */
module Progress {
  import opened Common
  import opened Sink

  const FullCell: char := '█'
  const EmptyCell: char := '░'
  const DefaultWidth: int := 20
  const Downloading: string := "downloading"
  const ProgressLabel: string := "Скачивание: "
  const SpeedLabel: string := "\nСкорость: "
  const EtaLabel: string := " | Осталось: "

  /** `int(width * percent // 100)`, with float rounding left out. */
  function FilledLength(percent: real, width: int): (n: int)
    ensures n as real <= width as real * percent / 100.0 < n as real + 1.0
  {
    (width as real * percent / 100.0).Floor
  }

  /** The cells between the brackets: filled cells, then the unfilled remainder. */
  function Cells(percent: real, width: int): (cells: string)
    ensures forall i | 0 <= i < |cells| :: cells[i] == FullCell || cells[i] == EmptyCell
    ensures forall i, j | 0 <= i < j < |cells| :: cells[j] == FullCell ==> cells[i] == FullCell
  {
    var filled := FilledLength(percent, width);
    Repeat(FullCell, filled) + Repeat(EmptyCell, width - filled)
  }

  /**
   * create_progress_bar. `shown` is the one-decimal rendering of percent
   * (`f"{percent:.1f}"`), which the model takes as given.
   */
  function CreateProgressBar(percent: real, shown: string, width: int): (r: string)
    ensures |r| >= |shown| + 4 && r[0] == '['
    ensures r[|r| - |shown| - 3..] == "] " + shown + "%"
  {
    "[" + Cells(percent, width) + "] " + shown + "%"
  }

  /**
   * For 0 <= percent <= 100 the bar reads `[`, then `width` cells of which
   * the first floor(width * percent / 100) are full, then `] shown%`.
   */
  lemma BarLayout(percent: real, shown: string, width: int)
    requires 0.0 <= percent <= 100.0 && 0 <= width
    ensures var r, filled := CreateProgressBar(percent, shown, width), FilledLength(percent, width);
      && |r| == width + 4 + |shown|
      && r[0] == '['
      && var cells := r[1..width + 1];
      && (forall i | 0 <= i < |cells| :: cells[i] == if i < filled then FullCell else EmptyCell)
      && Count(cells, FullCell) == filled
      && Count(cells, EmptyCell) == width - filled
      && r[width + 1..] == "] " + shown + "%"
  {
    BarCells(percent, width);
    var cells := Cells(percent, width);
    var tail := "] " + shown + "%";
    assert CreateProgressBar(percent, shown, width) == "[" + cells + tail;
    MiddleSlice("[", cells, tail, 0, width);
  }

  lemma FilledLengthBounds(percent: real, width: int)
    requires 0.0 <= percent <= 100.0 && 0 <= width
    ensures 0 <= FilledLength(percent, width) <= width
  {
    var w := width as real;
    assert 0.0 <= w * percent <= w * 100.0;
  }

  /** A bar of `width` cells with `filled` of them filled, for 0 <= filled <= width. */
  lemma {:induction false} SplitCells(filled: int, width: int)
    requires 0 <= filled <= width
    ensures var bar := Repeat(FullCell, filled) + Repeat(EmptyCell, width - filled);
      && |bar| == width
      && (forall i :: 0 <= i < width ==> bar[i] == if i < filled then FullCell else EmptyCell)
      && Count(bar, FullCell) == filled
      && Count(bar, EmptyCell) == width - filled
  {
    var full, empty := Repeat(FullCell, filled), Repeat(EmptyCell, width - filled);
    CountConcat(full, empty, FullCell);
    CountConcat(full, empty, EmptyCell);
    CountRepeat(FullCell, filled, FullCell);
    CountRepeat(FullCell, filled, EmptyCell);
    CountRepeat(EmptyCell, width - filled, FullCell);
    CountRepeat(EmptyCell, width - filled, EmptyCell);
  }

  /** Within 0..100 the bar has exactly `width` cells and floor(width*percent/100) of them are filled. */
  lemma BarCells(percent: real, width: int)
    requires 0.0 <= percent <= 100.0 && 0 <= width
    ensures var bar, filled := Cells(percent, width), FilledLength(percent, width);
      && |bar| == width
      && 0 <= filled <= width
      && (forall i :: 0 <= i < width ==> bar[i] == if i < filled then FullCell else EmptyCell)
      && Count(bar, FullCell) == filled
      && Count(bar, EmptyCell) == width - filled
    ensures percent == 0.0 ==> Cells(percent, width) == Repeat(EmptyCell, width)
    ensures percent == 100.0 ==> Cells(percent, width) == Repeat(FullCell, width)
  {
    FilledLengthBounds(percent, width);
    var filled := FilledLength(percent, width);
    assert Cells(percent, width) == Repeat(FullCell, filled) + Repeat(EmptyCell, width - filled);
    SplitCells(filled, width);
    if percent == 0.0 {
      FilledAtZero(width);
    }
    if percent == 100.0 {
      FilledAtHundred(width);
    }
  }

  lemma FilledAtZero(width: int)
    ensures FilledLength(0.0, width) == 0
  {
  }

  lemma FilledAtHundred(width: int)
    ensures FilledLength(100.0, width) == width
  {
    assert width as real * 100.0 / 100.0 == width as real;
  }

  /** Above 100 percent the code draws more than `width` filled cells and no unfilled ones. */
  lemma OverfullBar(percent: real, width: int)
    requires 100.0 <= percent && 0 <= width
    ensures FilledLength(percent, width) >= width
    ensures Cells(percent, width) == Repeat(FullCell, FilledLength(percent, width))
  {
    var w := width as real;
    assert w * percent >= w * 100.0;
    assert Repeat(EmptyCell, width - FilledLength(percent, width)) == [];
  }

  /** The fields of one progress dictionary the hook reads. */
  datatype Sample = Sample(status: string, percent: real, percentShown: string, speed: string, eta: string)

  /** The status text progress_hook writes for a sample. */
  function ProgressText(s: Sample): (t: string)
    ensures |t| >= |ProgressLabel| + |s.eta| && t[..|ProgressLabel|] == ProgressLabel
    ensures t[|t| - |s.eta|..] == s.eta
  {
    ProgressLabel + CreateProgressBar(s.percent, s.percentShown, DefaultWidth)
      + SpeedLabel + s.speed + EtaLabel + s.eta
  }

  /**
   * For 0 <= percent <= 100 the status text holds, right after its label and
   * the opening bracket, a bar of DefaultWidth cells whose first
   * floor(DefaultWidth * percent / 100) cells are filled, then the shown
   * percentage, the speed and the time left.
   */
  lemma StatusTextBar(s: Sample)
    requires 0.0 <= s.percent <= 100.0
    ensures var t, k := ProgressText(s), |ProgressLabel|;
      var filled := FilledLength(s.percent, DefaultWidth);
      && |t| >= k + 1 + DefaultWidth
      && t[..k] == ProgressLabel
      && t[k] == '['
      && var bar := t[k + 1..k + 1 + DefaultWidth];
      && (forall i | 0 <= i < |bar| :: bar[i] == if i < filled then FullCell else EmptyCell)
      && Count(bar, FullCell) == filled
      && Count(bar, EmptyCell) == DefaultWidth - filled
      && t[k + 1 + DefaultWidth..] == "] " + s.percentShown + "%" + SpeedLabel + s.speed + EtaLabel + s.eta
  {
    var bar := CreateProgressBar(s.percent, s.percentShown, DefaultWidth);
    BarLayout(s.percent, s.percentShown, DefaultWidth);
    var rest := SpeedLabel + s.speed + EtaLabel + s.eta;
    assert ProgressText(s) == ProgressLabel + bar + rest;
    MiddleSlice(ProgressLabel, bar, rest, 1, DefaultWidth + 1);
    MiddleSlice(ProgressLabel, bar, rest, DefaultWidth + 1, DefaultWidth + 1);
  }

  /** The calls progress_hook makes for one sample. */
  function HookEvents(s: Sample, chat: int, messageId: nat): (r: seq<Event>)
    ensures |r| <= 1
    ensures r != [] <==> s.status == Downloading
    ensures forall e | e in r :: e == EditMessage(chat, messageId, ProgressText(s))
  {
    if s.status == Downloading then [EditMessage(chat, messageId, ProgressText(s))] else []
  }

  /** The calls the hook makes over a whole stream of samples. */
  function HookEdits(samples: seq<Sample>, chat: int, messageId: nat): seq<Event>
  {
    if samples == [] then []
    else HookEdits(samples[..|samples| - 1], chat, messageId) + HookEvents(samples[|samples| - 1], chat, messageId)
  }

  /**
   * The hook only ever edits the one status message, at most once per
   * sample, and never when no sample is `downloading`.
   */
  lemma {:induction false} HookEditsAreStatusEdits(samples: seq<Sample>, chat: int, messageId: nat)
    ensures var r := HookEdits(samples, chat, messageId);
      && |r| <= |samples|
      && (forall e | e in r :: e.EditMessage? && e.chat == chat && e.messageId == messageId)
      && ((forall i | 0 <= i < |samples| :: samples[i].status != Downloading) ==> r == [])
  {
    if samples != [] {
      var init := samples[..|samples| - 1];
      HookEditsAreStatusEdits(init, chat, messageId);
      assert forall i | 0 <= i < |init| :: init[i] == samples[i];
    }
  }

  /**
   * progress_hook: only a `downloading` sample leads to an edit of the status
   * message; the transport's rejection of that edit is swallowed, so the
   * method has no way to fail.
   */
  method ProgressHook(bot: Bot, s: Sample, chat: int, messageId: nat)
    modifies bot
    ensures bot.log == old(bot.log) + HookEvents(s, chat, messageId)
  {
    if s.status == Downloading {
      var _ := bot.Call(EditMessage(chat, messageId, ProgressText(s)));
    }
  }
}
