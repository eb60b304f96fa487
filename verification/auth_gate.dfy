/**
 The branch on the signed-in user: with a user the composer is shown (the
 user's id only feeds the avatar), without one a call to action with a login
 and a register button, each of which opens its own modal and nothing else.
 */
module AuthGate {
  import opened Types

  datatype View = ComposerView(avatarId: string) | CallToAction

  datatype CtaButton = LoginButton | RegisterButton

  /** Which view is rendered for the current user. */
  function Gate(user: Option<User>): (v: View)
    ensures v.ComposerView? <==> user.Some?
    ensures v.CallToAction? <==> user.None?
    ensures v.ComposerView? ==> v.avatarId == user.value.id
  {
    match user
    case Some(u) => ComposerView(u.id)
    case None => CallToAction
  }

  /** The single effect a call-to-action button performs when clicked. */
  function Press(b: CtaButton): (e: Effect)
    ensures e == OpenLogin <==> b == LoginButton
    ensures e == OpenRegister <==> b == RegisterButton
  {
    match b
    case LoginButton => OpenLogin
    case RegisterButton => OpenRegister
  }
}
