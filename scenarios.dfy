/**
 * Runs of the client manager end to end, with the answers of the service manager and of
 * the daemon fixed, proved from the contracts of Client alone.
 */
module Scenarios {
  import opened Shared
  import opened StatusMessages
  import opened Client

  /** Before a status check has found the daemon enabled, every command is refused locally
      and no connection is opened, whatever the transport would have done. */
  method RefusedBeforeInstall(command: string, roundTrip: RoundTrip)
    returns (reply: string, connection: ClientConnection?)
    ensures reply == NotInstalledReply && connection == null
  {
    var manager := new HelperToolManager();
    reply := manager.RunCommand(command, roundTrip);
    connection := manager.helperConnection;
  }

  /** Two commands in a row share one connection; once it is invalidated the next command
      opens another. */
  method ReuseThenRecreate(first: string, second: string, third: string)
    returns (c1: ClientConnection?, c2: ClientConnection?, c3: ClientConnection?)
    ensures c1 != null && c1 == c2
    ensures c3 != null && c3 != c1
    ensures c1.sent == [first, second] && c3.sent == [third]
    ensures c1.resumed && c1.hasInvalidationHandler && c1.remoteInterface == Some(ProtocolName)
  {
    var manager := new HelperToolManager();
    manager.CheckHelperToolStatus(None, Enabled, Enabled);
    var reply := manager.RunCommand(first, Reply("ok"));
    c1 := manager.helperConnection;
    reply := manager.RunCommand(second, TransportError("interrupted"));
    c2 := manager.helperConnection;
    manager.ConnectionInvalidated();
    reply := manager.RunCommand(third, Reply("ok"));
    c3 := manager.helperConnection;
  }

  /** Installing and then uninstalling, with no denial from the service manager, ends with
      the daemon not installed and no connection cached. */
  method InstallThenUninstall(command: string)
    returns (installedBefore: bool, installedAfter: bool, connection: ClientConnection?, reply: string)
    ensures installedBefore && !installedAfter && connection == null
    ensures reply == NotInstalledReply
  {
    var manager := new HelperToolManager();
    manager.InstallHelperTool(Succeeded, Enabled, Enabled);
    installedBefore := manager.isHelperToolInstalled;
    var output := manager.RunCommand(command, Reply("root"));
    manager.UninstallHelperTool(Succeeded, NotRegistered, NotRegistered);
    installedAfter := manager.isHelperToolInstalled;
    connection := manager.helperConnection;
    reply := manager.RunCommand(command, Reply("root"));
  }
}
