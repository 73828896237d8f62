/** DeviceAdminModule.kt: a second admin module acting through its own component,
    `MyDeviceAdminReceiver`, so its "active" bit is independent of UninstallProtectionModule's.
    Like that module it keeps no state and reads the bit on every call. */
module DeviceAdmin {
  import opened Platform
  import UninstallAdmin

  const EXPLANATION := "Enable this to protect the app."
  const REQUEST_CODE := 1

  predicate Active(admins: set<AdminComponent>)
  {
    MyDeviceAdminReceiver in admins
  }

  /** `enableDeviceAdmin`: ask for activation whatever the bit is, through the current
      activity; without one, nothing happens. */
  function EnableDeviceAdmin(hasActivity: bool): (r: seq<Effect>)
    ensures hasActivity ==> r == [ActivityStartedForResult(AddDeviceAdmin(MyDeviceAdminReceiver, EXPLANATION, false), REQUEST_CODE)]
    ensures !hasActivity ==> r == []
  {
    if hasActivity then [ActivityStartedForResult(AddDeviceAdmin(MyDeviceAdminReceiver, EXPLANATION, false), REQUEST_CODE)]
    else []
  }

  /** `lockDevice`: when active, reset the password and then lock; otherwise nothing. */
  function LockDevice(password: string, admins: set<AdminComponent>): (r: seq<Effect>)
    ensures DeviceLocked in r <==> Active(admins)
    ensures Active(admins) ==> r == [PasswordReset(password, 0), DeviceLocked]
    ensures !Active(admins) ==> r == []
  {
    if MyDeviceAdminReceiver in admins then [PasswordReset(password, 0), DeviceLocked] else []
  }

  /** `isDeviceAdminActive`: report the bit through the callback. */
  function IsDeviceAdminActive(admins: set<AdminComponent>): (r: seq<Effect>)
  {
    [CallbackInvoked(JsBool(MyDeviceAdminReceiver in admins))]
  }

  /** `isDeviceAdminActive` reports true exactly when `lockDevice` would lock the device. */
  lemma ReportsWhetherLockWorks(password: string, admins: set<AdminComponent>)
    ensures IsDeviceAdminActive(admins) == [CallbackInvoked(JsBool(DeviceLocked in LockDevice(password, admins)))]
  {
  }

  /** Granting the request `enableDeviceAdmin` launches activates the component this module
      consults, and only that one: afterwards it reports active and locks, while
      UninstallProtectionModule answers as before. */
  lemma GrantingEnableActivates(admins: set<AdminComponent>, password: string)
    ensures var granted := admins + {EnableDeviceAdmin(true)[0].intent.admin};
      && IsDeviceAdminActive(granted) == [CallbackInvoked(JsBool(true))]
      && DeviceLocked in LockDevice(password, granted)
      && UninstallAdmin.IsAdminActive(granted) == UninstallAdmin.IsAdminActive(admins)
  {
    assert UninstallAdmin.Active(admins + {MyDeviceAdminReceiver}) == UninstallAdmin.Active(admins);
  }

  /** `unlockDevice`: reports true exactly when the admin is active. */
  function UnlockDevice(password: string, admins: set<AdminComponent>): (r: seq<Effect>)
  {
    if MyDeviceAdminReceiver in admins then [CallbackInvoked(JsBool(true))] else [CallbackInvoked(JsBool(false))]
  }

  /** `unlockDevice` never looks at the password: it answers exactly as `isDeviceAdminActive`
      does, whatever string it is given. */
  lemma UnlockIgnoresPassword(p1: string, p2: string, admins: set<AdminComponent>)
    ensures UnlockDevice(p1, admins) == UnlockDevice(p2, admins) == IsDeviceAdminActive(admins)
  {
  }

  /** The two admin bits are independent: activating either component changes nothing that the
      other module does. */
  lemma AdminBitsIndependent(admins: set<AdminComponent>, password: string, failure: UninstallAdmin.PolicyFailure)
    ensures var more := admins + {MyDeviceAdminReceiver};
      && UninstallAdmin.ActivateAdmin(more) == UninstallAdmin.ActivateAdmin(admins)
      && UninstallAdmin.IsAdminActive(more) == UninstallAdmin.IsAdminActive(admins)
      && UninstallAdmin.SetPassword(password, more, failure) == UninstallAdmin.SetPassword(password, admins, failure)
    ensures var more := admins + {AdminReceiver};
      && LockDevice(password, more) == LockDevice(password, admins)
      && IsDeviceAdminActive(more) == IsDeviceAdminActive(admins)
  {
    assert UninstallAdmin.Active(admins + {MyDeviceAdminReceiver}) == UninstallAdmin.Active(admins);
    assert Active(admins + {AdminReceiver}) == Active(admins);
  }
}
