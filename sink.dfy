/**
 * The collaborators the bot talks to: the Telegram transport, seen as a
 * notification sink that records every call it receives, and the local
 * filesystem, seen as a map from file name to byte size.
 */
module Sink {
  import opened Common

  /** One inline keyboard button: its label and its callback payload. */
  datatype Button = Button(text: string, callbackData: string)

  /** One call made on the transport. */
  datatype Event =
    | SendMessage(chat: int, text: string)
    | SendPrompt(chat: int, text: string, keyboard: seq<seq<Button>>)
    | EditMessage(chat: int, messageId: nat, text: string)
    | SendVideo(chat: int, path: string)
    | SendAudio(chat: int, path: string)

  /** How a handler (or a step of one) ends: normally, or with an exception escaping it. */
  datatype Exit = Completed | Raised(reason: string)

  /** The transport's log after a step, and how the step ends. */
  datatype Trace = Trace(log: seq<Event>, exit: Exit)

  /** The transport's log and the filesystem after a step, and how the step ends. */
  datatype Outcome = Outcome(log: seq<Event>, files: map<string, nat>, exit: Exit)

  /** The transport's answer to the call at log position pos: its error, or the new message's id. */
  function ReplyAt(rejected: map<nat, string>, pos: nat): (r: Result<nat, string>)
    ensures r.Failure? <==> pos in rejected
    ensures r.Failure? ==> r.error == rejected[pos]
    ensures r.Success? ==> r.value == pos
  {
    if pos in rejected then Failure(rejected[pos]) else Success(pos)
  }

  /** How a step whose last call sits at position pos ends when that call's error is not caught. */
  function ExitAt(rejected: map<nat, string>, pos: nat): (x: Exit)
    ensures x.Raised? <==> pos in rejected
    ensures x.Raised? ==> x.reason == rejected[pos]
  {
    if pos in rejected then Raised(rejected[pos]) else Completed
  }

  /**
   * The bot's connection to Telegram. Every call is appended to `log`; the
   * call made at log position p is rejected with text `rejected[p]` when p is
   * a key of `rejected`. A message sent at position p gets message id p.
   */
  class Bot {
    var log: seq<Event>
    const rejected: map<nat, string>

    constructor (rejected: map<nat, string>)
      ensures log == [] && this.rejected == rejected
    {
      log := [];
      this.rejected := rejected;
    }

    method Call(e: Event) returns (r: Result<nat, string>)
      modifies this
      ensures log == old(log) + [e]
      ensures r == ReplyAt(rejected, |old(log)|)
    {
      r := ReplyAt(rejected, |log|);
      log := log + [e];
    }
  }

  /** The working directory: file name to size in bytes. */
  class Disk {
    var files: map<string, nat>

    constructor (files: map<string, nat>)
      ensures this.files == files
    {
      this.files := files;
    }

    /** os.remove on a file that exists. */
    method Remove(name: string)
      requires name in files
      modifies this
      ensures files == old(files) - {name}
    {
      files := files - {name};
    }
  }
}
