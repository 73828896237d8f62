/** PasswordPromptActivity.kt: a full-width, title-less dialog asking for the admin password.
    Unlike UninstallProtectionActivity it lets the user retry after a wrong password, and a
    correct password does nothing more than Cancel does. */
module PasswordPrompt {
  import opened Platform

  const ADMIN_PASSWORD := "secure123"

  /** The state of the `Dialog` the activity builds in `showPasswordDialog`. */
  datatype Dialog = Dialog(showing: bool, cancelable: bool, canceledOnTouchOutside: bool)

  class PasswordPromptActivity {
    const device: Device
    /** The `lateinit var dialog`: `None` until `onCreate` assigns it. */
    var dialog: Option<Dialog>

    constructor (device: Device)
      ensures this.device == device && dialog.None?
    {
      this.device := device;
      dialog := None;
    }

    /** The dialog is up and its buttons can be pressed. */
    predicate Prompting()
      reads this
    {
      dialog.Some? && dialog.value.showing
    }

    /** `onCreate` and `showPasswordDialog`: neither back nor a touch outside can cancel the
        dialog. */
    method OnCreate()
      modifies this, device`log
      ensures dialog == Some(Dialog(true, false, false)) && Prompting()
      ensures device.log == old(device.log) + [DialogShown("", false)]
    {
      dialog := Some(Dialog(false, false, false));
      dialog := Some(dialog.value.(showing := true));
      device.log := device.log + [DialogShown("", false)];
    }

    /** `dialog.dismiss()` followed by `finish()`. */
    method DismissAndFinish()
      requires dialog.Some?
      modifies this, device`log
      ensures dialog == Some(old(dialog).value.(showing := false))
      ensures device.log == old(device.log) + [DialogDismissed, ActivityFinished]
    {
      dialog := Some(dialog.value.(showing := false));
      device.log := device.log + [DialogDismissed];
      device.log := device.log + [ActivityFinished];
    }

    /** The submit button: the right password closes everything; a wrong one shows a toast and
        leaves the dialog up for another try. */
    method Submit(entered: string)
      requires Prompting()
      modifies this, device`log
      ensures Prompting() <==> entered != ADMIN_PASSWORD
      ensures entered != ADMIN_PASSWORD ==>
        dialog == old(dialog) && device.log == old(device.log) + [ToastShown("Incorrect password")]
      ensures entered == ADMIN_PASSWORD ==>
        dialog == Some(old(dialog).value.(showing := false))
        && device.log == old(device.log) + [DialogDismissed, ActivityFinished]
    {
      if entered == ADMIN_PASSWORD {
        DismissAndFinish();
      } else {
        device.log := device.log + [ToastShown("Incorrect password")];
      }
    }

    /** The cancel button. */
    method Cancel()
      requires Prompting()
      modifies this, device`log
      ensures !Prompting()
      ensures dialog == Some(old(dialog).value.(showing := false))
      ensures device.log == old(device.log) + [DialogDismissed, ActivityFinished]
    {
      DismissAndFinish();
    }

    /** `onBackPressed`, overridden to dismiss and finish. The activity receives the back key
        only while the dialog is not showing; while it shows, the key goes to the dialog. */
    method OnBackPressed()
      requires dialog.Some? && !Prompting()
      modifies this, device`log
      ensures !Prompting()
      ensures dialog == Some(old(dialog).value.(showing := false))
      ensures device.log == old(device.log) + [DialogDismissed, ActivityFinished]
    {
      DismissAndFinish();
    }

    /** The back key while the dialog shows: `Dialog.onBackPressed` cancels it only when it is
        cancelable, which `setCancelable(false)` ruled out, so the dialog stays up. */
    method Back()
      requires Prompting()
      modifies this, device`log
      ensures old(dialog).value.cancelable ==> !Prompting() && device.log == old(device.log) + [DialogDismissed]
      ensures !old(dialog).value.cancelable ==> dialog == old(dialog) && device.log == old(device.log)
    {
      if dialog.value.cancelable {
        dialog := Some(dialog.value.(showing := false));
        device.log := device.log + [DialogDismissed];
      }
    }

    /** A touch outside the showing dialog dismisses it only when `setCanceledOnTouchOutside`
        allowed it. */
    method TouchOutside()
      requires Prompting()
      modifies this, device`log
      ensures old(dialog).value.canceledOnTouchOutside ==> !Prompting() && device.log == old(device.log) + [DialogDismissed]
      ensures !old(dialog).value.canceledOnTouchOutside ==> dialog == old(dialog) && device.log == old(device.log)
    {
      if dialog.value.canceledOnTouchOutside {
        dialog := Some(dialog.value.(showing := false));
        device.log := device.log + [DialogDismissed];
      }
    }
  }

  /** After `onCreate`, neither the back key nor a touch outside takes the dialog down: only its
      two buttons can. */
  method PromptSurvivesBackAndTouch(a: PasswordPromptActivity)
    modifies a, a.device`log
    ensures a.Prompting() && a.dialog == Some(Dialog(true, false, false))
    ensures a.device.log == old(a.device.log) + [DialogShown("", false)]
  {
    a.OnCreate();
    a.Back();
    a.TouchOutside();
    a.Back();
  }

  /** Two prompts in the same state end in the same state, with the same effects, whether one
      gets the right password and the other Cancel: a correct password unlocks nothing. */
  method CorrectPasswordIsCancel(a: PasswordPromptActivity, b: PasswordPromptActivity)
    requires a != b && a.device != b.device
    requires a.Prompting() && a.dialog == b.dialog && a.device.log == b.device.log
    modifies a, b, a.device`log, b.device`log
    ensures a.dialog == b.dialog && a.device.log == b.device.log
  {
    a.Submit(ADMIN_PASSWORD);
    b.Cancel();
  }
}
