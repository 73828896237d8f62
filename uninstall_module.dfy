/** UninstallProtectionModule.kt: the native side of uninstall protection, acting through the
    device admin component `AdminReceiver`. The module keeps no state of its own; whether its
    admin is active is read from the device policy manager on every call, so each method is a
    function from the set of active admins to the OS calls it makes, the last of which settles
    the promise. */
module UninstallAdmin {
  import opened Platform

  const EXPLANATION := "Required for uninstall protection"
  /** `DevicePolicyManager.PASSWORD_QUALITY_ALPHANUMERIC`. */
  const PASSWORD_QUALITY_ALPHANUMERIC := 0x50000

  /** `isAdminActive(adminComponent)`. */
  predicate Active(admins: set<AdminComponent>)
  {
    AdminReceiver in admins
  }

  /** `activateAdmin`: when inactive, open the system's add-admin screen and resolve true at
      once, before the user has decided; when already active, resolve false. */
  function ActivateAdmin(admins: set<AdminComponent>): (r: seq<Effect>)
    ensures |r| >= 1 && r[|r| - 1] == PromiseResolved(JsBool(!Active(admins)))
    ensures !Active(admins) ==> r == [ActivityStarted(AddDeviceAdmin(AdminReceiver, EXPLANATION, true)), r[|r| - 1]]
    ensures Active(admins) ==> |r| == 1
  {
    if !Active(admins) then
      [ActivityStarted(AddDeviceAdmin(AdminReceiver, EXPLANATION, true)), PromiseResolved(JsBool(true))]
    else [PromiseResolved(JsBool(false))]
  }

  /** `isAdminActive`. */
  function IsAdminActive(admins: set<AdminComponent>): (r: seq<Effect>)
  {
    [PromiseResolved(JsBool(AdminReceiver in admins))]
  }

  /** Which of the two policy-manager calls in `setPassword` throws, if either. */
  datatype PolicyFailure = NoFailure | QualityFails(message: Message) | ResetFails(message: Message)

  /** `setPassword`: quality first, then the password, then resolve true; an inactive admin
      rejects with a fixed message; an exception rejects with its own message. */
  function SetPassword(password: string, admins: set<AdminComponent>, failure: PolicyFailure): (r: seq<Effect>)
    ensures |r| >= 1
    ensures !Active(admins) ==> r == [PromiseRejected("ERROR", Some("Device admin not active"))]
    ensures Active(admins) ==> r[0] == (if failure.QualityFails? then PromiseRejected("ERROR", failure.message)
                                                      else PasswordQualitySet(AdminReceiver, PASSWORD_QUALITY_ALPHANUMERIC))
    ensures PasswordReset(password, 0) in r <==> Active(admins) && failure.NoFailure?
    ensures r[|r| - 1] == PromiseResolved(JsBool(true)) <==> Active(admins) && failure.NoFailure?
    ensures r[|r| - 1].PromiseResolved? || r[|r| - 1].PromiseRejected?
  {
    if !Active(admins) then [PromiseRejected("ERROR", Some("Device admin not active"))]
    else match failure
      case QualityFails(m) => [PromiseRejected("ERROR", m)]
      case ResetFails(m) => [PasswordQualitySet(AdminReceiver, PASSWORD_QUALITY_ALPHANUMERIC), PromiseRejected("ERROR", m)]
      case NoFailure =>
        [PasswordQualitySet(AdminReceiver, PASSWORD_QUALITY_ALPHANUMERIC), PasswordReset(password, 0), PromiseResolved(JsBool(true))]
  }

  /** A password is only ever reset after the quality has been raised to alphanumeric. */
  lemma QualityBeforeReset(password: string, admins: set<AdminComponent>, failure: PolicyFailure, i: nat)
    requires i < |SetPassword(password, admins, failure)| && SetPassword(password, admins, failure)[i].PasswordReset?
    ensures 0 < i && SetPassword(password, admins, failure)[i - 1] == PasswordQualitySet(AdminReceiver, PASSWORD_QUALITY_ALPHANUMERIC)
  {
  }
}
