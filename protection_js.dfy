/** constants/UninstallProtection.js: the JavaScript wrappers around the UninstallProtection
    native module. Each is an async function of the platform and of how the native promises
    settle; it never throws, turning every failure into `false`. */
module ProtectionJs {
  import opened Platform

  const ANDROID := "android"

  /** How an awaited native promise settles. */
  datatype Answer<T> = Resolves(value: T) | Rejects(error: Message)

  /** The native methods the wrappers call, in the order they call them. */
  datatype NativeCall = ActivateAdminCall | IsAdminActiveCall | SetPasswordCall(password: string)

  /** What a wrapper did and what its returned promise resolves with. */
  datatype Run = Run(calls: seq<NativeCall>, result: bool)

  /** The answer the bridge hands to JavaScript for the effects of one native call: the last
      settlement they contain. A call whose effects settle nothing leaves the promise pending,
      which this model, like the wrappers' callers, never observes. */
  function AnswerOf(effects: seq<Effect>): (a: Option<Answer<bool>>)
    ensures effects != [] && effects[|effects| - 1] == PromiseResolved(JsBool(true)) ==> a == Some(Resolves(true))
    ensures effects != [] && effects[|effects| - 1] == PromiseResolved(JsBool(false)) ==> a == Some(Resolves(false))
    ensures effects != [] && effects[|effects| - 1].PromiseRejected? ==> a == Some(Rejects(effects[|effects| - 1].message))
    ensures effects == [] ==> a.None?
  {
    if effects == [] then None
    else match effects[|effects| - 1]
      case PromiseResolved(JsBool(b)) => Some(Resolves(b))
      case PromiseRejected(_, m) => Some(Rejects(m))
      case _ => AnswerOf(effects[..|effects| - 1])
  }

  /** `activateUninstallProtection`. */
  function ActivateUninstallProtection(os: string, activate: Answer<bool>): (r: Run)
    ensures os != ANDROID ==> r == Run([], false)
    ensures os == ANDROID ==> r.calls == [ActivateAdminCall]
    ensures r.result <==> os == ANDROID && activate == Resolves(true)
  {
    if os == ANDROID then
      match activate
      case Resolves(result) => Run([ActivateAdminCall], result)
      case Rejects(_) => Run([ActivateAdminCall], false)
    else Run([], false)
  }

  /** `setUninstallPassword`: `setPassword` is called only once `isAdminActive` has resolved
      true; the result is true exactly when that call resolves too. */
  function SetUninstallPassword(os: string, password: string, isActive: Answer<bool>, setPassword: Answer<bool>): (r: Run)
    ensures os != ANDROID ==> r == Run([], false)
    ensures os == ANDROID && isActive != Resolves(true) ==> r == Run([IsAdminActiveCall], false)
    ensures os == ANDROID && isActive == Resolves(true) ==> r.calls == [IsAdminActiveCall, SetPasswordCall(password)]
    ensures r.result <==> os == ANDROID && isActive == Resolves(true) && setPassword.Resolves?
  {
    if os != ANDROID then Run([], false)
    else match isActive
      case Rejects(_) => Run([IsAdminActiveCall], false)
      case Resolves(active) =>
        if !active then Run([IsAdminActiveCall], false)
        else match setPassword
          case Resolves(_) => Run([IsAdminActiveCall, SetPasswordCall(password)], true)
          case Rejects(_) => Run([IsAdminActiveCall, SetPasswordCall(password)], false)
  }
}
