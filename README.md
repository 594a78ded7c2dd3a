# HelperToolApp privileged helper, modelled in Dafny

HelperToolApp is a macOS app that runs shell commands as root through a privileged
helper daemon. The client app registers the daemon with the ServiceManagement framework
(`SMAppService`), tracks whether it is installed, and sends command strings to it over an
XPC connection; the daemon runs each command under `/bin/bash -c` and replies with the
trimmed output.

This project models the two pieces of logic underneath the framework calls:

- `client.dfy`, module `Client`: the `HelperToolManager` class, with its three fields
  (the cached connection, `isHelperToolInstalled`, `statusText`) and its five operations:
  install, uninstall, status check, `runCommand` and the connection's invalidation handler.
  The service manager's answers (register/unregister outcome, the two status reads of a
  check) and the XPC round trip's outcome are parameters. A ghost log records every call
  into the service manager, so the contracts say exactly which calls each operation makes,
  in which order, and that Login Items settings are opened once, and only after a
  successful registration.
- `messages.dfy`, module `StatusMessages`: the error-code and status tables the status
  check chooses `statusText` from, the "Installation failed: " and "Uninstallation failed: "
  texts, and the proofs that the texts identify what happened.
- `trimming.dfy`, module `Trimming`: trimming of whitespace and newlines, with its
  characterisation (it removes exactly the surrounding whitespace) and idempotence.
- `daemon.dfy`, module `Daemon`: the daemon's reply normalisation, its `runCommand`
  (process configuration, spawn failure, reading the pipe), the accept delegate and the
  listener set-up.
- `shared.dfy`, module `Shared`: the service identifier both sides use.
- `scenarios.dfy`, module `Scenarios`: end-to-end runs of the manager proved from its
  contracts (a command refused before installation, connection reuse and re-creation,
  install then uninstall).

Details of the code the model keeps:

- Installing registers unconditionally; there is no check of the current status first, and
  Login Items settings are opened only after a successful registration, never on failure.
- Uninstalling drops the cached connection only when unregistration succeeds; on failure
  the connection is kept.
- A transport error during a round trip does not drop the connection; only the invalidation
  handler or a successful uninstall does.
- The status check reads the service status twice: once for the message (when no error
  was given) and once for the installed flag. The model keeps the two reads apart, so the
  message and the flag can disagree when the status changes in between.
- The invalidation handler clears the cached connection whichever connection it was
  installed on.

## Model

| member | source | states |
|---|---|---|
| `StatusMessages.ErrorMessage` | HelperToolApp/HelperToolManager.swift:110-122 | each fixed error message is chosen exactly when the error code is already-registered, denied-by-user, invalid-signature or 1 respectively; every other code gives the generic message embedding the error's description, and only those codes do |
| `StatusMessages.ErrorMessageDependsOnCode` | HelperToolApp/HelperToolManager.swift:110-122 | for the four known codes the message depends on the code alone, not on the description |
| `StatusMessages.StatusMessage` | HelperToolApp/HelperToolManager.swift:123-136 | the "eligible to run" message is shown exactly when the status is enabled, the "needs to enable it" message exactly when approval is required |
| `StatusMessages.StatusMessageRoundTrip` | HelperToolApp/HelperToolManager.swift:123-136 | the five status messages are pairwise different: the status is recovered from its message |
| `StatusMessages.ErrorMessageIsNoStatusMessage` | HelperToolApp/HelperToolManager.swift:109-137 | no error message equals or reads as any status message, so an error always shows through the status |
| `StatusMessages.InstallFailureText` | HelperToolApp/HelperToolManager.swift:32-34 | a failed install shows "Installation failed: " followed by the error's message |
| `StatusMessages.UninstallFailureText` | HelperToolApp/HelperToolManager.swift:49-51 | a failed uninstall shows "Uninstallation failed: " followed by the error's message |
| `StatusMessages.FailureTextsAreDistinct` | HelperToolApp/HelperToolManager.swift:22-54 | install-failure, uninstall-failure and status texts never coincide, and two install-failure texts are equal only when their error messages are |
| `Client.InstalledIgnoresOtherCalls` | HelperToolApp/HelperToolManager.swift:139 | service-manager calls that are not status reads (register, unregister, opening settings) leave the installed verdict unchanged: only the last status read decides it |
| `Client.StatusReads` | HelperToolApp/HelperToolManager.swift:106-140 | a status check reads the status once with an error and twice without, and its last read is the one the installed flag uses |
| `Client.HelperToolManager.constructor` | HelperToolApp/HelperToolManager.swift:11-20 | a new manager has no connection, is not installed and shows "Checking..." |
| `Client.HelperToolManager.CheckHelperToolStatus` | HelperToolApp/HelperToolManager.swift:106-140 | the message comes from the error when one is given, otherwise from the first status read; the installed flag equals "second read is enabled" on both branches; the connection is untouched; repeating the check on an unchanged status leaves the fields as they were |
| `Client.HelperToolManager.InstallHelperTool` | HelperToolApp/HelperToolManager.swift:22-37 | registers unconditionally; on success shows the status message and then opens Login Items settings exactly once; on failure opens nothing and shows "Installation failed: " plus the error's message; the connection is untouched |
| `Client.HelperToolManager.UninstallHelperTool` | HelperToolApp/HelperToolManager.swift:39-54 | on success invalidates and drops the cached connection, leaving its other state as it was, and shows the status message; on failure keeps the connection unchanged and shows "Uninstallation failed: " plus the error's message |
| `Client.HelperToolManager.RunCommand` | HelperToolApp/HelperToolManager.swift:56-104 | when not installed replies "Helper tool is not installed" and leaves the connection alone; when installed creates a privileged, resumed connection to the helper's service name only if none is cached and otherwise reuses it with its interface, handler, resumed and invalidated state untouched, keeps it afterwards, sends the command unless no proxy was obtained, and replies "Failed to get remote object", "Connection error: " plus the description, or the daemon's output unchanged |
| `Client.HelperToolManager.ConnectionInvalidated` | HelperToolApp/HelperToolManager.swift:76-79 | the invalidation handler forgets the cached connection and changes nothing else |
| `Trimming.TrimStart` | HelperTool/main.swift:41 | the result is a suffix of the input that is empty or does not start with whitespace |
| `Trimming.TrimStartDropsWhitespace` | HelperTool/main.swift:41 | everything trimming drops at the front is whitespace |
| `Trimming.TrimEnd` | HelperTool/main.swift:41 | the result is a prefix of the input that is empty or does not end with whitespace |
| `Trimming.TrimEndDropsWhitespace` | HelperTool/main.swift:41 | everything trimming drops at the back is whitespace |
| `Trimming.Trim` | HelperTool/main.swift:41 | the result has no whitespace or newline at either end, and is empty exactly when the input is all whitespace |
| `Trimming.TrimUnique` | HelperTool/main.swift:41 | for any split of the input into whitespace, a core with no whitespace at its ends, and whitespace, trimming returns that core |
| `Trimming.TrimSplits` | HelperTool/main.swift:41 | the input is the trimmed text with only whitespace before and after it |
| `Trimming.TrimIdempotent` | HelperTool/main.swift:41 | trimming a trimmed string changes nothing |
| `Daemon.OutputReply` | HelperTool/main.swift:40-42 | the reply to a command that ran is never empty, has no whitespace at either end, and is "No output" when the bytes do not decode or decode to whitespace only |
| `Daemon.OutputReplyKeepsText` | HelperTool/main.swift:41-42 | output made of whitespace, a non-empty text and whitespace is answered with exactly that text |
| `Daemon.OutputReplyIdempotent` | HelperTool/main.swift:41-42 | normalising an already normalised reply, "No output" included, returns it unchanged |
| `Daemon.OutputReplyOfHello` | HelperTool/main.swift:41 | the output "  hello" plus a newline is answered with "hello" |
| `Daemon.HelperToolDelegate.RunCommand` | HelperTool/main.swift:26-43 | runs `/bin/bash` with the arguments "-c" and the command as received; stdout and stderr share one pipe; a spawn failure replies "Failed to run command: " plus the error text without reading the pipe; otherwise the pipe is read and the reply is the normalised output; one reply on every path |
| `Daemon.HelperToolDelegate.ShouldAcceptNewConnection` | HelperTool/main.swift:18-23 | every connection is accepted, exports this delegate under the HelperToolProtocol interface and is resumed |
| `Daemon.StartDaemon` | HelperTool/main.swift:46-50 | the listener listens on exactly the client's helper identifier, has the delegate attached and is resumed |
| `Scenarios.RefusedBeforeInstall` | HelperToolApp/HelperToolManager.swift:57-60 | before any status check, a command is refused with "Helper tool is not installed" and no connection exists |
| `Scenarios.ReuseThenRecreate` | HelperToolApp/HelperToolManager.swift:63-83 | two commands share one connection, which stays resumed with its handler, even across a transport error; after invalidation the next command uses a new connection |
| `Scenarios.InstallThenUninstall` | HelperToolApp/HelperToolManager.swift:39-60 | installing then uninstalling without a denial ends not installed, with no connection, and commands are refused again |

## Left out

- The SwiftUI views and the app delegate (`ContentView.swift`, `HelperToolAppApp.swift`): they only call the manager and show its fields.
- `SMAppService.register`, `unregister`, `status` and `openSystemSettingsLoginItems`: framework calls. Their answers are method parameters and the calls are entries of a ghost log.
- The ServiceManagement error codes are those of the framework's `SMErrors.h` (invalid signature 3, launch denied by user 11, already registered 12), which is not part of this model; the error's domain is never inspected by the code and is not modelled.
- NSXPCConnection and NSXPCListener internals (proxy creation, message delivery, when the system invalidates a connection): the round trip is a parameter and the invalidation handler is a method the caller invokes.
- `async`, `Task`, `@MainActor` and the `DispatchQueue.main.async` hops: every operation is one sequential call, and each completion handler is the method's return value, so it is called exactly once. What happens when two commands or checks overlap is not modelled.
- The `Task` that `init` starts: the constructor sets the initial fields and the caller makes the first status check.
- The `[weak self]` capture of the invalidation handler: a manager is never deallocated in the model.
- The guards at HelperToolApp/HelperToolManager.swift:66-68 and 85-87: they cannot fire, because the field was just assigned a non-optional connection.
- Launching the process, `waitUntilExit` and what bash does with the command: the spawn result and the captured bytes are parameters, and the exit status is carried but never read.
- UTF-8 decoding: a parameter from bytes to an optional string.
- Trimming works on Unicode scalar values; the whitespace and newline set is written as a predicate (category Z*, tab, U+000A to U+000D, U+0085) rather than taken from Foundation's tables.
- `RunLoop.main.run()`, `print` logging, and the commented-out code at HelperTool/main.swift:62-107.
- The `HelperToolProtocol` declarations: they declare the one remote method; its name is the `ProtocolName` constant.
