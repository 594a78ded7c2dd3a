/**
 * The client app's `HelperToolManager`: it registers and unregisters the daemon with the
 * service manager, turns what the service manager reports into `statusText` and
 * `isHelperToolInstalled`, and sends commands to the daemon over one lazily created,
 * privileged XPC connection.
 *
 * The service manager and XPC are not modelled: each method takes what they answer as
 * parameters, and a ghost log records every call made to the service manager.
 */
module Client {
  import opened Shared
  import opened StatusMessages

  const InitialStatusText: string := "Checking..."
  const NotInstalledReply: string := "Helper tool is not installed"
  const NoProxyReply: string := "Failed to get remote object"
  const ConnectionErrorPrefix: string := "Connection error: "

  /** What `register()` or `unregister()` did: returned, or threw an error. */
  datatype HostOutcome = Succeeded | Failed(error: SmError)

  /** What one call through the XPC proxy came to: the daemon's reply, an error reported to
      the proxy's error handler, or no proxy of the protocol's type at all. */
  datatype RoundTrip = Reply(output: string) | TransportError(description: string) | NoProxy

  /** A call into the service-management framework, with the status a read returned. */
  datatype HostCall =
    | Register(plist: string)
    | Unregister(plist: string)
    | ReadStatus(status: ServiceStatus)
    | OpenLoginItems

  /** Whether the last status read in `log` found the daemon enabled; false before any read. */
  function InstalledPerLog(log: seq<HostCall>): bool
  {
    if log == [] then false
    else if log[|log| - 1].ReadStatus? then log[|log| - 1].status == Enabled
    else InstalledPerLog(log[..|log| - 1])
  }

  /** Calls that read no status leave the installed verdict of a log as it was. */
  lemma {:induction false} InstalledIgnoresOtherCalls(log: seq<HostCall>, calls: seq<HostCall>)
    requires forall i :: 0 <= i < |calls| ==> !calls[i].ReadStatus?
    ensures InstalledPerLog(log + calls) == InstalledPerLog(log)
    decreases |calls|
  {
    if calls != [] {
      var shorter := calls[..|calls| - 1];
      assert (log + calls)[|log + calls| - 1] == calls[|calls| - 1];
      assert (log + calls)[..|log + calls| - 1] == log + shorter;
      InstalledIgnoresOtherCalls(log, shorter);
    } else {
      assert log + calls == log;
    }
  }

  /** The status reads of one status check: the `switch` reads the status only when no error
      was handed in; the installed flag always reads it once more, last. */
  function StatusReads(error: Option<SmError>, switched: ServiceStatus, finalStatus: ServiceStatus)
    : (calls: seq<HostCall>)
    ensures calls != [] && calls[|calls| - 1] == ReadStatus(finalStatus)
    ensures |calls| == if error.Some? then 1 else 2
  {
    if error.Some? then [ReadStatus(finalStatus)] else [ReadStatus(switched), ReadStatus(finalStatus)]
  }

  /** The client end of the XPC connection to the daemon. */
  class ClientConnection {
    const machServiceName: string
    const privileged: bool
    var remoteInterface: Option<string>
    var hasInvalidationHandler: bool
    var resumed: bool
    var invalidated: bool
    /** The commands sent to the daemon over this connection, in order. */
    ghost var sent: seq<string>

    constructor (name: string, isPrivileged: bool)
      ensures machServiceName == name && privileged == isPrivileged
      ensures remoteInterface == None && !hasInvalidationHandler && !resumed && !invalidated
      ensures sent == []
    {
      machServiceName, privileged := name, isPrivileged;
      remoteInterface, hasInvalidationHandler := None, false;
      resumed, invalidated := false, false;
      sent := [];
    }
  }

  class HelperToolManager {
    var helperConnection: ClientConnection?
    var isHelperToolInstalled: bool
    var statusText: string
    /** Every call made to the service-management framework, in order. */
    ghost var hostLog: seq<HostCall>

    /** The installed flag is what the last status read said. */
    ghost predicate Valid()
      reads this
    {
      isHelperToolInstalled == InstalledPerLog(hostLog)
    }

    /** The published fields start out as "not installed" and "Checking...". The status
        check that `init` schedules in a task is the caller's first CheckHelperToolStatus. */
    constructor ()
      ensures Valid()
      ensures helperConnection == null && !isHelperToolInstalled
      ensures statusText == InitialStatusText && hostLog == []
    {
      helperConnection := null;
      isHelperToolInstalled := false;
      statusText := InitialStatusText;
      hostLog := [];
    }

    /** Sets `statusText` from the error if one is handed in, otherwise from the status read
        by the `switch` (`switched`); sets the installed flag from a second read
        (`finalStatus`), whichever branch ran. The connection is not touched. */
    method CheckHelperToolStatus(error: Option<SmError>, switched: ServiceStatus, finalStatus: ServiceStatus)
      modifies this
      ensures Valid()
      ensures helperConnection == old(helperConnection)
      ensures hostLog == old(hostLog) + StatusReads(error, switched, finalStatus)
      ensures error.Some? ==> statusText == ErrorMessage(error.value)
      ensures error.None? ==> statusText == StatusMessage(switched)
      ensures isHelperToolInstalled == (finalStatus == Enabled)
      ensures error.None? && switched == finalStatus
              && old(statusText) == StatusMessage(switched) && old(isHelperToolInstalled) == (switched == Enabled)
              ==> statusText == old(statusText) && isHelperToolInstalled == old(isHelperToolInstalled)
    {
      match error {
        case Some(e) =>
          statusText := ErrorMessage(e);
        case None =>
          hostLog := hostLog + [ReadStatus(switched)];
          statusText := StatusMessage(switched);
      }
      hostLog := hostLog + [ReadStatus(finalStatus)];
      isHelperToolInstalled := finalStatus == Enabled;
    }

    /** Registers the daemon, whatever its current status. On success the status message is
        shown and then Login Items settings are opened, once; on failure no settings are
        opened and the error message is shown behind "Installation failed: ". */
    method InstallHelperTool(registration: HostOutcome, switched: ServiceStatus, finalStatus: ServiceStatus)
      modifies this
      ensures Valid()
      ensures helperConnection == old(helperConnection)
      ensures isHelperToolInstalled == (finalStatus == Enabled)
      ensures registration.Succeeded? ==>
        hostLog == old(hostLog) + [Register(PlistName), ReadStatus(switched), ReadStatus(finalStatus), OpenLoginItems]
        && statusText == StatusMessage(switched)
      ensures registration.Failed? ==>
        hostLog == old(hostLog) + [Register(PlistName), ReadStatus(finalStatus)]
        && statusText == InstallFailureText(registration.error)
    {
      hostLog := hostLog + [Register(PlistName)];
      match registration {
        case Succeeded =>
          CheckHelperToolStatus(None, switched, finalStatus);
          assert hostLog == old(hostLog) + [Register(PlistName), ReadStatus(switched), ReadStatus(finalStatus)];
          InstalledIgnoresOtherCalls(hostLog, [OpenLoginItems]);
          hostLog := hostLog + [OpenLoginItems];
        case Failed(e) =>
          CheckHelperToolStatus(Some(e), switched, finalStatus);
          assert hostLog == old(hostLog) + [Register(PlistName), ReadStatus(finalStatus)];
          statusText := InstallFailurePrefix + statusText;
      }
    }

    /** Unregisters the daemon. On success an existing connection is invalidated and dropped
        and the status message is shown; on failure the connection stays as it was and the
        error message is shown behind "Uninstallation failed: ". */
    method UninstallHelperTool(unregistration: HostOutcome, switched: ServiceStatus, finalStatus: ServiceStatus)
      modifies this, helperConnection
      ensures Valid()
      ensures isHelperToolInstalled == (finalStatus == Enabled)
      ensures unregistration.Succeeded? ==>
        helperConnection == null
        && (old(helperConnection) != null ==>
              old(helperConnection).invalidated
              && old(helperConnection).remoteInterface == old(helperConnection.remoteInterface)
              && old(helperConnection).hasInvalidationHandler == old(helperConnection.hasInvalidationHandler)
              && old(helperConnection).resumed == old(helperConnection.resumed)
              && old(helperConnection).sent == old(helperConnection.sent))
        && hostLog == old(hostLog) + [Unregister(PlistName), ReadStatus(switched), ReadStatus(finalStatus)]
        && statusText == StatusMessage(switched)
      ensures unregistration.Failed? ==>
        helperConnection == old(helperConnection)
        && (helperConnection != null ==> unchanged(helperConnection))
        && hostLog == old(hostLog) + [Unregister(PlistName), ReadStatus(finalStatus)]
        && statusText == UninstallFailureText(unregistration.error)
    {
      hostLog := hostLog + [Unregister(PlistName)];
      match unregistration {
        case Succeeded =>
          if helperConnection != null {
            helperConnection.invalidated := true;
          }
          helperConnection := null;
          CheckHelperToolStatus(None, switched, finalStatus);
          assert hostLog == old(hostLog) + [Unregister(PlistName), ReadStatus(switched), ReadStatus(finalStatus)];
        case Failed(e) =>
          CheckHelperToolStatus(Some(e), switched, finalStatus);
          assert hostLog == old(hostLog) + [Unregister(PlistName), ReadStatus(finalStatus)];
          statusText := UninstallFailurePrefix + statusText;
      }
    }

    /** Sends `command` to the daemon and returns the one reply handed to the completion.
        While the daemon is not known to be installed the reply is fixed and the connection
        is not touched. Otherwise a connection is created, configured and resumed only if
        none is cached, and kept afterwards whatever the round trip gave. */
    method RunCommand(command: string, roundTrip: RoundTrip) returns (reply: string)
      requires Valid()
      modifies this, helperConnection
      ensures Valid()
      ensures isHelperToolInstalled == old(isHelperToolInstalled)
      ensures statusText == old(statusText) && hostLog == old(hostLog)
      ensures !old(isHelperToolInstalled) ==>
        reply == NotInstalledReply
        && helperConnection == old(helperConnection)
        && (helperConnection != null ==> unchanged(helperConnection))
      ensures old(isHelperToolInstalled) ==> helperConnection != null
      ensures old(isHelperToolInstalled) && old(helperConnection) != null ==>
        helperConnection == old(helperConnection)
        && helperConnection.remoteInterface == old(helperConnection.remoteInterface)
        && helperConnection.hasInvalidationHandler == old(helperConnection.hasInvalidationHandler)
        && helperConnection.resumed == old(helperConnection.resumed)
        && helperConnection.invalidated == old(helperConnection.invalidated)
      ensures old(isHelperToolInstalled) && old(helperConnection) == null ==>
        fresh(helperConnection)
        && helperConnection.machServiceName == HelperToolIdentifier && helperConnection.privileged
        && helperConnection.remoteInterface == Some(ProtocolName)
        && helperConnection.hasInvalidationHandler && helperConnection.resumed
        && !helperConnection.invalidated
      ensures old(isHelperToolInstalled) ==>
        helperConnection.sent
          == (if old(helperConnection) == null then [] else old(helperConnection.sent))
             + (if roundTrip.NoProxy? then [] else [command])
      ensures old(isHelperToolInstalled) ==>
        reply == match roundTrip
                 case Reply(output) => output
                 case TransportError(description) => ConnectionErrorPrefix + description
                 case NoProxy => NoProxyReply
    {
      if !isHelperToolInstalled {
        reply := NotInstalledReply;
        return;
      }
      if helperConnection == null {
        var created := new ClientConnection(HelperToolIdentifier, true);
        created.remoteInterface := Some(ProtocolName);
        created.hasInvalidationHandler := true;
        created.resumed := true;
        helperConnection := created;
      }
      var connection := helperConnection;
      match roundTrip {
        case NoProxy =>
          reply := NoProxyReply;
        case TransportError(description) =>
          connection.sent := connection.sent + [command];
          reply := ConnectionErrorPrefix + description;
        case Reply(output) =>
          connection.sent := connection.sent + [command];
          reply := output;
      }
    }

    /** The invalidation handler installed on every connection RunCommand creates: it
        forgets the cached connection, whichever connection it was installed on. */
    method ConnectionInvalidated()
      requires Valid()
      modifies this
      ensures Valid()
      ensures helperConnection == null
      ensures isHelperToolInstalled == old(isHelperToolInstalled)
      ensures statusText == old(statusText) && hostLog == old(hostLog)
    {
      helperConnection := null;
    }
  }
}
