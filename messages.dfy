/**
 * The texts `checkHelperToolStatus` assigns to `statusText`: one per service-management
 * error code (tried first-match, most specific first) and one per service status.
 */
module StatusMessages {
  import opened Shared

  /** The status the service manager reports for the daemon's registration. */
  datatype ServiceStatus = NotRegistered | Enabled | RequiresApproval | NotFound | Unknown

  /** An error as the client sees it once bridged to NSError: its code and localized description.
      The error domain is never inspected, so it is not part of the model. */
  datatype SmError = SmError(code: int, description: string)

  /** Error codes of the ServiceManagement framework that the client distinguishes. */
  const ErrInvalidSignature: int := 3
  const ErrLaunchDeniedByUser: int := 11
  const ErrAlreadyRegistered: int := 12
  /** POSIX EPERM, "Operation not permitted". */
  const ErrOperationNotPermitted: int := 1

  // The messages shown to the user; each is written as two joined pieces.
  const AlreadyRegisteredText: string := "The service is already " + "registered and enabled."
  const DeniedByUserText: string :=
    "The user denied permission. " + "Go to system settings/preferences > Login Items and enable the service."
  const InvalidSignatureText: string :=
    "Invalid code signature. " + "Ensure the app and helper tool is properly signed."
  const NotPermittedText: string :=
    "The service requires user " + "authorization. Enable it in system settings/preferences > Login Items."
  const UnknownErrorPrefix: string := "Installation failed with unknown error: "

  const NotRegisteredText: string :=
    "The service hasn\U{2019}t been " + "registered, you smay register it now."
  const EnabledText: string :=
    "The service has been " + "successfully registered and is eligible to run."
  const RequiresApprovalText: string :=
    "The service has been " + "successfully registered, but the user needs to enable it in system settings/preferences > Login Items."
  const NotFoundText: string :=
    "An error occurred " + "and the SM framework couldn\U{2019}t find this service."
  const UnknownStatusText: string :=
    "Unknown status. " + "Possibly a new or undocumented status code."

  /** The prefixes the install and uninstall failure paths put before the error message. */
  const InstallFailurePrefix: string := "Installation failed: "
  const UninstallFailurePrefix: string := "Uninstallation failed: "

  predicate IsKnownCode(code: int) {
    code == ErrAlreadyRegistered || code == ErrLaunchDeniedByUser
    || code == ErrInvalidSignature || code == ErrOperationNotPermitted
  }

  // The characters that tell the message families apart: the error texts, the status
  // texts and the failure prefixes differ from one another at these positions.

  lemma ErrorTextHeads()
    ensures AlreadyRegisteredText[0] == 'T' && AlreadyRegisteredText[4] == 's' && AlreadyRegisteredText[12] == 'i'
    ensures DeniedByUserText[0] == 'T' && DeniedByUserText[4] == 'u'
    ensures InvalidSignatureText[0] == 'I' && InvalidSignatureText[2] == 'v'
    ensures NotPermittedText[0] == 'T' && NotPermittedText[4] == 's' && NotPermittedText[12] == 'r'
  {
  }

  lemma StatusTextHeads()
    ensures NotRegisteredText[0] == 'T' && NotRegisteredText[4] == 's' && NotRegisteredText[12] == 'h'
    ensures EnabledText[0] == 'T' && EnabledText[4] == 's' && EnabledText[12] == 'h'
    ensures RequiresApprovalText[0] == 'T' && RequiresApprovalText[4] == 's' && RequiresApprovalText[12] == 'h'
    ensures NotFoundText[0] == 'A'
    ensures UnknownStatusText[0] == 'U' && UnknownStatusText[2] == 'k'
  {
  }

  lemma PrefixHeads()
    ensures UnknownErrorPrefix[0] == 'I' && UnknownErrorPrefix[2] == 's'
    ensures InstallFailurePrefix[0] == 'I'
    ensures UninstallFailurePrefix[0] == 'U' && UninstallFailurePrefix[2] == 'i'
  {
  }

  /** The message for an error handed to the status check. Each fixed message is chosen
      exactly when its code matches; every other code gets the generic message that embeds
      the error's own description. */
  function ErrorMessage(e: SmError): (m: string)
    ensures m == AlreadyRegisteredText <==> e.code == ErrAlreadyRegistered
    ensures m == DeniedByUserText <==> e.code == ErrLaunchDeniedByUser
    ensures m == InvalidSignatureText <==> e.code == ErrInvalidSignature
    ensures m == NotPermittedText <==> e.code == ErrOperationNotPermitted
    ensures !IsKnownCode(e.code) <==> m == UnknownErrorPrefix + e.description
  {
    GenericMessageIsNotFixed(e.description);
    if e.code == ErrAlreadyRegistered then AlreadyRegisteredText
    else if e.code == ErrLaunchDeniedByUser then DeniedByUserText
    else if e.code == ErrInvalidSignature then InvalidSignatureText
    else if e.code == ErrOperationNotPermitted then NotPermittedText
    else UnknownErrorPrefix + e.description
  }

  /** The generic message never equals one of the four fixed error messages. */
  lemma GenericMessageIsNotFixed(d: string)
    ensures UnknownErrorPrefix + d != AlreadyRegisteredText
    ensures UnknownErrorPrefix + d != DeniedByUserText
    ensures UnknownErrorPrefix + d != InvalidSignatureText
    ensures UnknownErrorPrefix + d != NotPermittedText
  {
    PrefixHeads();
    ErrorTextHeads();
    var g := UnknownErrorPrefix + d;
    assert g[0] == 'I' && g[2] == 's';
  }

  /** The message for a service status when no error was handed to the status check. */
  function StatusMessage(s: ServiceStatus): (m: string)
    ensures m == EnabledText <==> s == Enabled
    ensures m == RequiresApprovalText <==> s == RequiresApproval
  {
    match s
    case NotRegistered => NotRegisteredText
    case Enabled => EnabledText
    case RequiresApproval => RequiresApprovalText
    case NotFound => NotFoundText
    case Unknown => UnknownStatusText
  }

  /** Reads the status back out of a status message: the inverse of StatusMessage. */
  function StatusOfMessage(m: string): (s: Option<ServiceStatus>)
  {
    if m == NotRegisteredText then Some(NotRegistered)
    else if m == EnabledText then Some(Enabled)
    else if m == RequiresApprovalText then Some(RequiresApproval)
    else if m == NotFoundText then Some(NotFound)
    else if m == UnknownStatusText then Some(Unknown)
    else None
  }

  /** No two statuses share a message, so the message shown identifies the status. */
  lemma StatusMessageRoundTrip(s: ServiceStatus)
    ensures StatusOfMessage(StatusMessage(s)) == Some(s)
  {
  }

  /** Without a generic fallback, the error message depends on the error's code alone. */
  lemma ErrorMessageDependsOnCode(e1: SmError, e2: SmError)
    requires e1.code == e2.code && IsKnownCode(e1.code)
    ensures ErrorMessage(e1) == ErrorMessage(e2)
  {
  }

  /** What tells status messages apart from the others: their first, third, fifth and
      thirteenth characters. */
  lemma StatusMessageShape(s: ServiceStatus)
    ensures var m := StatusMessage(s);
      |m| > 12 && (m[0] == 'A' || (m[0] == 'U' && m[2] == 'k') || (m[0] == 'T' && m[4] == 's' && m[12] == 'h'))
  {
    StatusTextHeads();
  }

  lemma ErrorMessageShape(e: SmError)
    ensures var m := ErrorMessage(e);
      |m| > 12 && (m[0] == 'I' || (m[0] == 'T' && (m[4] == 'u' || m[12] == 'i' || m[12] == 'r')))
  {
    ErrorTextHeads();
    PrefixHeads();
    var m := ErrorMessage(e);
    if !IsKnownCode(e.code) {
      assert m[0] == UnknownErrorPrefix[0];
    }
  }

  /** Every text StatusOfMessage recognises is the message of the status it returns. */
  lemma StatusOfMessageSound(m: string)
    ensures StatusOfMessage(m).Some? ==> StatusMessage(StatusOfMessage(m).value) == m
  {
  }

  /** No error message reads like a status message, so an error always shows through. */
  lemma ErrorMessageIsNoStatusMessage(e: SmError, s: ServiceStatus)
    ensures StatusOfMessage(ErrorMessage(e)) == None
    ensures ErrorMessage(e) != StatusMessage(s)
  {
    ErrorMessageShape(e);
    StatusMessageShape(s);
    var m := ErrorMessage(e);
    StatusOfMessageSound(m);
    if StatusOfMessage(m).Some? {
      StatusMessageShape(StatusOfMessage(m).value);
    }
  }

  /** The texts a failed install or uninstall leaves behind. */
  function InstallFailureText(e: SmError): (m: string)
    ensures |m| > |InstallFailurePrefix| && m[..|InstallFailurePrefix|] == InstallFailurePrefix
    ensures m[|InstallFailurePrefix|..] == ErrorMessage(e)
  {
    InstallFailurePrefix + ErrorMessage(e)
  }

  function UninstallFailureText(e: SmError): (m: string)
    ensures |m| > |UninstallFailurePrefix| && m[..|UninstallFailurePrefix|] == UninstallFailurePrefix
    ensures m[|UninstallFailurePrefix|..] == ErrorMessage(e)
  {
    UninstallFailurePrefix + ErrorMessage(e)
  }

  lemma FailureTextHeads(e1: SmError, e2: SmError)
    ensures InstallFailureText(e1)[0] == 'I'
    ensures UninstallFailureText(e2)[0] == 'U' && UninstallFailureText(e2)[2] == 'i'
  {
    PrefixHeads();
    var i, u := InstallFailureText(e1), UninstallFailureText(e2);
    assert i[0] == InstallFailurePrefix[0];
    assert u[0] == UninstallFailurePrefix[0] && u[2] == UninstallFailurePrefix[2];
  }

  /** The three kinds of outcome text can always be told apart: a failed install, a failed
      uninstall and a plain status message never coincide, and the error is recoverable. */
  lemma FailureTextsAreDistinct(e1: SmError, e2: SmError, s: ServiceStatus)
    ensures InstallFailureText(e1) != UninstallFailureText(e2)
    ensures InstallFailureText(e1) != StatusMessage(s)
    ensures UninstallFailureText(e1) != StatusMessage(s)
    ensures InstallFailureText(e1) == InstallFailureText(e2) <==> ErrorMessage(e1) == ErrorMessage(e2)
  {
    FailureTextHeads(e1, e2);
    StatusMessageShape(s);
    var i := InstallFailureText(e1);
    if i == InstallFailureText(e2) {
      assert ErrorMessage(e1) == i[|InstallFailurePrefix|..] == InstallFailureText(e2)[|InstallFailurePrefix|..];
    }
  }
}
