/**
 * The download options a user can pick and the callback payload
 * `<tag>:<url>` that carries the choice back to the bot.
 */
module Payload {
  import opened Common

  const VideoHigh: string := "video_high"
  const VideoLow: string := "video_low"
  const Audio: string := "audio"

  /** The three tags of DownloadOption. */
  predicate IsTag(tag: string)
  {
    tag == VideoHigh || tag == VideoLow || tag == Audio
  }

  /** The callback_data of a button: `f"{tag}:{url}"`. */
  function Encode(tag: string, url: string): (data: string)
    ensures |data| == |tag| + 1 + |url|
    ensures data[..|tag|] == tag && data[|tag|] == ':' && data[|tag| + 1..] == url
  {
    tag + ":" + url
  }

  /** Index of the first colon of s, if any. */
  function FirstColon(s: string): (r: Option<nat>)
    ensures r.None? <==> ':' !in s
    ensures r.Some? ==> r.value < |s| && s[r.value] == ':' && ':' !in s[..r.value]
  {
    if s == [] then None
    else if s[0] == ':' then Some(0)
    else match FirstColon(s[1..])
      case None => None
      case Some(i) =>
        assert s[..i + 1] == [s[0]] + s[1..][..i];
        Some(i + 1)
  }

  /**
   * `data.split(':', 1)` unpacked into two names: the text before the first
   * colon and everything after it. Without a colon the unpacking fails.
   */
  function Decode(data: string): (r: Option<(string, string)>)
    ensures r.None? <==> ':' !in data
    ensures r.Some? ==> ':' !in r.value.0 && data == r.value.0 + ":" + r.value.1
  {
    match FirstColon(data)
    case None => None
    case Some(i) =>
      assert data == data[..i] + ":" + data[i + 1..];
      Some((data[..i], data[i + 1..]))
  }

  /** Decoding undoes encoding for any tag without a colon, whatever colons the url holds. */
  lemma DecodeEncode(tag: string, url: string)
    requires ':' !in tag
    ensures Decode(Encode(tag, url)) == Some((tag, url))
  {
    var data := Encode(tag, url);
    assert data[|tag|] == ':';
    assert data[..|tag|] == tag && data[|tag| + 1..] == url;
  }

  /** None of the option tags holds a colon, so every button payload round-trips. */
  lemma TagRoundTrip(tag: string, url: string)
    requires IsTag(tag)
    ensures Decode(Encode(tag, url)) == Some((tag, url))
  {
    DecodeEncode(tag, url);
  }
}
