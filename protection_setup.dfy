/** app/UninstallProtectionSetup.jsx: the button handler that validates the typed password,
    activates protection and then sets the password. The component's only state, the text
    field, is read and never written by the handler, so the handler is a function of it and of
    the answers the wrappers give. */
module ProtectionSetup {
  import opened Platform
  import ProtectionJs
  import UninstallAdmin

  datatype Alert = Alert(title: string, message: string)

  /** What one press of the button does: native calls, in order, and the alerts shown. */
  datatype Flow = Flow(calls: seq<ProtectionJs.NativeCall>, alerts: seq<Alert>)

  const TOO_SHORT := Alert("Error", "Please enter a password (minimum 4 characters)")
  const ACTIVATED := Alert("Success", "Uninstall protection activated")
  const NOT_SET := Alert("Error", "Failed to set password")

  /** JavaScript's `length` of a string: UTF-16 code units, so a character outside the Basic
      Multilingual Plane counts twice. */
  function Utf16Length(s: string): (n: nat)
    ensures |s| <= n <= 2 * |s|
    decreases |s|
  {
    if s == [] then 0
    else (if s[0] as int >= 0x1_0000 then 2 else 1) + Utf16Length(s[1..])
  }

  /** Two emoji are four code units: long enough for the handler, though only two characters. */
  lemma TwoEmojiAreLongEnough()
    ensures |"\U{1F600}\U{1F600}"| == 2 && Utf16Length("\U{1F600}\U{1F600}") == 4
  {
    var s := "\U{1F600}\U{1F600}";
    assert s[1..][1..] == [];
  }

  /** `handleActivation`, given the platform and how each native promise settles. */
  function HandleActivation(password: string, os: string, activate: ProtectionJs.Answer<bool>,
                            isActive: ProtectionJs.Answer<bool>, setPassword: ProtectionJs.Answer<bool>): (r: Flow)
    ensures Utf16Length(password) < 4 ==> r == Flow([], [TOO_SHORT])
    ensures Utf16Length(password) >= 4 ==> |r.alerts| <= 1 && TOO_SHORT !in r.alerts
    ensures ProtectionJs.SetPasswordCall(password) in r.calls ==>
      ProtectionJs.ActivateAdminCall in r.calls && ProtectionJs.ActivateUninstallProtection(os, activate).result
    ensures var a := ProtectionJs.ActivateUninstallProtection(os, activate);
      var p := ProtectionJs.SetUninstallPassword(os, password, isActive, setPassword);
      && (Utf16Length(password) >= 4 ==> r.calls == a.calls + (if a.result then p.calls else []))
      && (ACTIVATED in r.alerts <==> Utf16Length(password) >= 4 && a.result && p.result)
      && (NOT_SET in r.alerts <==> Utf16Length(password) >= 4 && a.result && !p.result)
      && (Utf16Length(password) >= 4 ==> (r.alerts != [] <==> a.result))
  {
    if Utf16Length(password) < 4 then Flow([], [TOO_SHORT])
    else
      var activated := ProtectionJs.ActivateUninstallProtection(os, activate);
      if !activated.result then Flow(activated.calls, [])
      else
        var passwordSet := ProtectionJs.SetUninstallPassword(os, password, isActive, setPassword);
        Flow(activated.calls + passwordSet.calls, [if passwordSet.result then ACTIVATED else NOT_SET])
  }

  /** `activateAdmin` and `isAdminActive` read the same bit and settle opposite ways: the first
      resolves true exactly when the admin is not active, the second exactly when it is. */
  lemma AdminAnswersComplement(admins: set<AdminComponent>)
    ensures var b := UninstallAdmin.Active(admins);
      && ProtectionJs.AnswerOf(UninstallAdmin.ActivateAdmin(admins)) == Some(ProtectionJs.Resolves(!b))
      && ProtectionJs.AnswerOf(UninstallAdmin.IsAdminActive(admins)) == Some(ProtectionJs.Resolves(b))
  {
  }

  /** With the native side as UninstallProtectionModule.kt implements it, and the admin bit not
      changing while the handler runs, the success alert never appears: `activateAdmin`
      resolves true only when the admin is inactive, and then `isAdminActive` resolves false. */
  lemma {:induction false} NeverActivatedWithoutAdminChange(password: string, admins: set<AdminComponent>,
                                                            failure: UninstallAdmin.PolicyFailure)
    ensures var activate := ProtectionJs.AnswerOf(UninstallAdmin.ActivateAdmin(admins)).value;
      var isActive := ProtectionJs.AnswerOf(UninstallAdmin.IsAdminActive(admins)).value;
      var setPassword := ProtectionJs.AnswerOf(UninstallAdmin.SetPassword(password, admins, failure)).value;
      ACTIVATED !in HandleActivation(password, ProtectionJs.ANDROID, activate, isActive, setPassword).alerts
  {
    AdminAnswersComplement(admins);
  }

  /** If the user grants the admin between the two native calls, the handler does reach the
      success alert, provided the policy manager accepts the password. */
  lemma ActivatedWhenGrantedInBetween(password: string)
    requires Utf16Length(password) >= 4
    ensures var activate := ProtectionJs.AnswerOf(UninstallAdmin.ActivateAdmin({})).value;
      var isActive := ProtectionJs.AnswerOf(UninstallAdmin.IsAdminActive({AdminReceiver})).value;
      var setPassword := ProtectionJs.AnswerOf(UninstallAdmin.SetPassword(password, {AdminReceiver}, UninstallAdmin.NoFailure)).value;
      HandleActivation(password, ProtectionJs.ANDROID, activate, isActive, setPassword).alerts == [ACTIVATED]
  {
    assert UninstallAdmin.Active({AdminReceiver});
    assert ProtectionJs.AnswerOf(UninstallAdmin.ActivateAdmin({})) == Some(ProtectionJs.Resolves(true));
    assert ProtectionJs.AnswerOf(UninstallAdmin.IsAdminActive({AdminReceiver})) == Some(ProtectionJs.Resolves(true));
  }
}
