/** The option resolver: get_ydl_opts, the yt-dlp options for one chosen tag. */
module Options {
  import opened Common
  import opened Payload

  const OutputTemplate: string := "%(title)s.%(ext)s"
  const BestVideo: string := "bestvideo+bestaudio/best"
  const WorstVideo: string := "worstvideo+worstaudio/worst"
  const BestAudio: string := "bestaudio/best"
  const AudioUnavailable: string := "Опция 'Только аудио' недоступна без FFmpeg."

  /** One entry of the `postprocessors` list; the constructor name is its 'key'. */
  datatype PostProcessor =
    | FFmpegVideoConvertor(preferedFormat: string)
    | FFmpegExtractAudio(preferredCodec: string, preferredQuality: string)

  /**
   * The options dictionary. `hookChat` and `hookMessage` are what the progress
   * hook closure captures; `format` and `postprocessors` are None when the key is absent.
   */
  datatype YdlOptions = YdlOptions(
    outtmpl: string,
    hookChat: int,
    hookMessage: nat,
    restrictFilenames: bool,
    format: Option<string>,
    postprocessors: Option<seq<PostProcessor>>)

  /** get_ydl_opts(option, chat_id, message_id), with FFMPEG_AVAILABLE passed in as `ffmpeg`. */
  function GetYdlOpts(option: string, chat: int, messageId: nat, ffmpeg: bool): (r: Result<YdlOptions, string>)
    ensures r.Failure? <==> option == Audio && !ffmpeg
    ensures r.Failure? ==> r.error == AudioUnavailable
    ensures r.Success? ==>
      && r.value.outtmpl == OutputTemplate
      && r.value.restrictFilenames
      && r.value.hookChat == chat
      && r.value.hookMessage == messageId
    ensures StartsWith(option, "video") ==>
      && r.Success?
      && r.value.format == Some(if option == VideoHigh then BestVideo else WorstVideo)
      && r.value.postprocessors == Some([FFmpegVideoConvertor("mp4")])
    ensures option == Audio && ffmpeg ==>
      && r.Success?
      && r.value.format == Some(BestAudio)
      && r.value.postprocessors == Some([FFmpegExtractAudio("mp3", "192")])
    ensures !StartsWith(option, "video") && option != Audio ==>
      r.Success? && r.value.format.None? && r.value.postprocessors.None?
  {
    var base := YdlOptions(OutputTemplate, chat, messageId, true, None, None);
    if StartsWith(option, "video") then
      assert option != Audio by { assert option[0] == option[..5][0] == 'v'; }
      Success(base.(format := Some(if option == VideoHigh then BestVideo else WorstVideo),
                    postprocessors := Some([FFmpegVideoConvertor("mp4")])))
    else if option == Audio then
      if ffmpeg then
        Success(base.(format := Some(BestAudio),
                      postprocessors := Some([FFmpegExtractAudio("mp3", "192")])))
      else
        Failure(AudioUnavailable)
    else
      Success(base)
  }
}
