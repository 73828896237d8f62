/** UninstallProtectionActivity.kt: intercepts the system's uninstall request for this app and
    asks for a password in a dialog that the back key cannot dismiss. A correct password
    re-issues the uninstall request; anything else finishes the activity. */
module UninstallActivity {
  import opened Platform

  const ACTION_DELETE := "android.intent.action.DELETE"
  const PASSWORD := "secure123"
  const DIALOG_TITLE := "Uninstall Protection"

  /** `t` occurs in `s` starting at index `i`. */
  predicate OccursAt(s: string, t: string, i: int)
  {
    0 <= i && i + |t| <= |s| && s[i..i + |t|] == t
  }

  /** Kotlin's `String.contains`: `t` occurs in `s` as a contiguous substring. */
  function Contains(s: string, t: string): (r: bool)
    ensures r <==> exists i :: OccursAt(s, t, i)
    decreases |s|
  {
    if |t| > |s| then false
    else if s[..|t|] == t then
      assert OccursAt(s, t, 0);
      true
    else
      var r := Contains(s[1..], t);
      assert forall i :: OccursAt(s[1..], t, i) <==> OccursAt(s, t, i + 1);
      assert !OccursAt(s, t, 0);
      assert forall i :: OccursAt(s, t, i) ==> i >= 1 && OccursAt(s[1..], t, i - 1);
      r
  }

  /** The intent check in `onCreate`: a DELETE action whose data string names the package. */
  function ShouldPrompt(action: Option<string>, dataString: Option<string>, packageName: string): (r: bool)
    ensures r <==> action == Some(ACTION_DELETE) && dataString.Some?
                   && exists i :: OccursAt(dataString.value, packageName, i)
  {
    action == Some(ACTION_DELETE) && dataString.Some? && Contains(dataString.value, packageName)
  }

  /** The check matches a substring, not the URI's package: the `package:` URI of this app
      prompts, and so does that of any app whose name merely extends this one's. */
  lemma PackageUriPrompts(packageName: string, suffix: string)
    ensures ShouldPrompt(Some(ACTION_DELETE), Some("package:" + packageName + suffix), packageName)
  {
    var s := "package:" + packageName + suffix;
    assert OccursAt(s, packageName, 8);
  }

  /** The password check is exact, case-sensitive equality. */
  predicate PasswordAccepted(input: string)
  {
    input == PASSWORD
  }

  class UninstallProtectionActivity {
    const device: Device
    const action: Option<string>
    /** `intent.dataString`, and `intent.data` as the same URI. */
    const data: Option<string>
    const packageName: string
    /** Whether the password dialog is on screen, so its buttons can be pressed. */
    var prompting: bool

    constructor (device: Device, action: Option<string>, data: Option<string>, packageName: string)
      ensures this.device == device && this.action == action && this.data == data
      ensures this.packageName == packageName && !prompting
    {
      this.device := device;
      this.action := action;
      this.data := data;
      this.packageName := packageName;
      prompting := false;
    }

    /** `onCreate`: show the non-cancelable dialog for a matching intent, otherwise finish. */
    method OnCreate()
      modifies this, device`log
      ensures prompting <==> ShouldPrompt(action, data, packageName)
      ensures prompting ==> device.log == old(device.log) + [DialogShown(DIALOG_TITLE, false)]
      ensures !prompting ==> device.log == old(device.log) + [ActivityFinished]
    {
      if action == Some(ACTION_DELETE) && data.Some? && Contains(data.value, packageName) {
        prompting := true;
        device.log := device.log + [DialogShown(DIALOG_TITLE, false)];
      } else {
        prompting := false;
        device.log := device.log + [ActivityFinished];
      }
    }

    /** The Confirm button. The uninstall is re-requested, with the original URI, only for the
        right password; either way the activity finishes, so there is no second attempt. */
    method Confirm(input: string)
      requires prompting
      modifies this, device`log
      ensures !prompting
      ensures PasswordAccepted(input) ==>
        device.log == old(device.log) + [ActivityStarted(UninstallRequest(data, true)),
                                         ToastShown("Password correct, uninstalling..."), ActivityFinished]
      ensures !PasswordAccepted(input) ==> device.log == old(device.log) + [ToastShown("Incorrect password"), ActivityFinished]
    {
      if input == PASSWORD {
        device.log := device.log + [ActivityStarted(UninstallRequest(data, true))];
        device.log := device.log + [ToastShown("Password correct, uninstalling...")];
      } else {
        device.log := device.log + [ToastShown("Incorrect password")];
      }
      device.log := device.log + [ActivityFinished];
      prompting := false;
    }

    /** The Cancel button. */
    method Cancel()
      requires prompting
      modifies this, device`log
      ensures !prompting
      ensures device.log == old(device.log) + [ToastShown("Uninstall cancelled"), ActivityFinished]
    {
      device.log := device.log + [ToastShown("Uninstall cancelled")];
      device.log := device.log + [ActivityFinished];
      prompting := false;
    }

    /** The back key reaches the dialog, which `setCancelable(false)` makes ignore it. */
    method Back()
      requires prompting
      ensures prompting && device.log == old(device.log)
    {
    }
  }

  /** An uninstall request is re-issued only through the right password: whatever the intent,
      a wrong password or a cancel never starts an activity. */
  method WrongPasswordNeverUninstalls(device: Device, action: Option<string>, data: Option<string>,
                                      packageName: string, input: string, cancel: bool)
    requires !PasswordAccepted(input)
    modifies device`log
    ensures forall i :: |old(device.log)| <= i < |device.log| ==> !device.log[i].ActivityStarted?
  {
    var activity := new UninstallProtectionActivity(device, action, data, packageName);
    activity.OnCreate();
    if activity.prompting {
      if cancel {
        activity.Cancel();
      } else {
        activity.Confirm(input);
      }
    }
  }
}
