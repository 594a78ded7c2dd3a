/**
 * The privileged daemon: it accepts every XPC connection, exports its delegate on it,
 * and answers each `runCommand` by running the command under `/bin/bash -c` and
 * replying with the trimmed output.
 */
module Daemon {
  import opened Shared
  import opened Trimming

  const BashPath: string := "/bin/bash"
  /** The service name the daemon's listener is created with, written out in the daemon. */
  const ListenerServiceName: string := "com.alienator88.HelperApp.HelperTool"
  const SpawnFailurePrefix: string := "Failed to run command: "
  const NoOutput: string := "No output"

  /** How the child process ended, as far as the daemon observes it: either it could not be
      launched, or it exited (with a status the daemon never looks at) after writing
      `captured` to the shared stdout/stderr pipe. */
  datatype SpawnResult = SpawnFailed(description: string) | Exited(status: int, captured: Bytes)

  /** The reply for a child that ran: its decoded output trimmed, or "No output" when the
      bytes do not decode or hold nothing but whitespace. The reply is never empty and never
      starts or ends with whitespace. */
  function OutputReply(decoded: Option<string>): (r: string)
    ensures r != [] && Trimmed(r)
    ensures decoded.None? ==> r == NoOutput
    ensures decoded.Some? && AllWhitespace(decoded.value) ==> r == NoOutput
  {
    var output := if decoded.Some? then Trim(decoded.value) else "";
    if output == [] then NoOutput else output
  }

  /** Surrounding whitespace is all the reply loses: the text between it arrives intact. */
  lemma OutputReplyKeepsText(lead: string, text: string, trail: string)
    requires AllWhitespace(lead) && AllWhitespace(trail)
    requires text != [] && Trimmed(text)
    ensures OutputReply(Some(lead + text + trail)) == text
  {
    TrimUnique(lead + text + trail, lead, text, trail);
  }

  /** Normalising a reply again changes nothing, "No output" included. */
  lemma OutputReplyIdempotent(decoded: Option<string>)
    ensures OutputReply(Some(OutputReply(decoded))) == OutputReply(decoded)
  {
    var r := OutputReply(decoded);
    assert r == [] + r + [];
    OutputReplyKeepsText([], r, []);
  }

  /** A command printing "  hello" and a newline is answered with "hello". */
  lemma OutputReplyOfHello()
    ensures OutputReply(Some("  hello\n")) == "hello"
  {
    assert "  hello\n" == "  " + "hello" + "\n";
    OutputReplyKeepsText("  ", "hello", "\n");
  }

  /** The single pipe the child's standard output and standard error both go to. */
  class Pipe {
    var buffered: Bytes
    var drained: bool

    constructor ()
      ensures buffered == [] && !drained
    {
      buffered, drained := [], false;
    }
  }

  /** The part of a `Process` the daemon configures before launching it. */
  class Process {
    var executablePath: string
    var arguments: seq<string>
    var standardOutput: Pipe?
    var standardError: Pipe?

    constructor ()
      ensures executablePath == [] && arguments == []
      ensures standardOutput == null && standardError == null
    {
      executablePath, arguments := [], [];
      standardOutput, standardError := null, null;
    }
  }

  /** The daemon's side of one XPC connection. */
  class IncomingConnection {
    var exportedInterface: Option<string>
    var exportedObject: HelperToolDelegate?
    var resumed: bool

    constructor ()
      ensures exportedInterface == None && exportedObject == null && !resumed
    {
      exportedInterface, exportedObject, resumed := None, null, false;
    }
  }

  class HelperToolDelegate {
    constructor ()
    {
    }

    /** Every connection is accepted; it exports this delegate under the shared protocol
        and is resumed. */
    method ShouldAcceptNewConnection(newConnection: IncomingConnection) returns (accepted: bool)
      modifies newConnection
      ensures accepted
      ensures newConnection.exportedInterface == Some(ProtocolName)
      ensures newConnection.exportedObject == this
      ensures newConnection.resumed
    {
      newConnection.exportedInterface := Some(ProtocolName);
      newConnection.exportedObject := this;
      newConnection.resumed := true;
      accepted := true;
    }

    /** Runs `command` under `/bin/bash -c`, the command being the one argument after "-c",
        exactly as received. `spawn` is what launching and waiting for the child gives, and
        `decode` is the UTF-8 decoder. The result is the one reply sent back: on a failed
        launch the error text behind a fixed prefix, and the pipe is never read; otherwise
        the normalised output. */
    method RunCommand(command: string, spawn: SpawnResult, decode: Bytes -> Option<string>)
      returns (reply: string, ghost process: Process, ghost pipe: Pipe)
      ensures fresh(process) && fresh(pipe)
      ensures process.executablePath == BashPath && process.arguments == ["-c", command]
      ensures process.standardOutput == pipe && process.standardError == pipe
      ensures pipe.drained <==> spawn.Exited?
      ensures spawn.SpawnFailed? ==> reply == SpawnFailurePrefix + spawn.description
      ensures spawn.Exited? ==> reply == OutputReply(decode(spawn.captured))
    {
      var p := new Process();
      p.executablePath := BashPath;
      p.arguments := ["-c", command];
      var out := new Pipe();
      p.standardOutput := out;
      p.standardError := out;
      process, pipe := p, out;
      match spawn {
        case SpawnFailed(description) =>
          reply := SpawnFailurePrefix + description;
          return;
        case Exited(_, captured) =>
          out.buffered := captured;
      }
      var data := out.buffered;
      out.drained := true;
      reply := OutputReply(decode(data));
    }
  }

  /** The service the daemon listens on: its delegate is attached before it is resumed. */
  class Listener {
    const machServiceName: string
    var delegate: HelperToolDelegate?
    var resumed: bool

    constructor (name: string)
      ensures machServiceName == name && delegate == null && !resumed
    {
      machServiceName := name;
      delegate, resumed := null, false;
    }
  }

  /** The daemon's top level: one delegate, one listener on the well-known name, resumed.
      The name is the very identifier the client connects to. */
  method StartDaemon() returns (listener: Listener, delegate: HelperToolDelegate)
    ensures fresh(listener) && fresh(delegate)
    ensures listener.machServiceName == HelperToolIdentifier
    ensures listener.delegate == delegate && listener.resumed
  {
    delegate := new HelperToolDelegate();
    listener := new Listener(ListenerServiceName);
    listener.delegate := delegate;
    listener.resumed := true;
  }
}
