/** The Login component's own state: the form fields, the sign-up toggle, and
    the `loading` and `error` flags that its two handlers drive. The
    authentication provider is not modelled: each handler returns the call it
    makes and receives the provider's reply as an input. */
module LoginForm {
  import opened Wrappers

  /** The provider calls the form can make. */
  datatype AuthCall =
    | SignUp(email: string, password: string)
    | SignInWithPassword(email: string, password: string)
    | SignInWithOAuth(provider: string)

  /** The provider's reply: no error, or an error whose `message` may be
      missing (undefined) or empty. */
  datatype AuthReply = AuthOk | AuthError(message: Option<string>)

  const AuthFailedMessage := "Authentication failed"

  /** `err.message || 'Authentication failed'`: the provider's message when it
      is a non-empty string, the fixed fallback otherwise. */
  function AuthErrorText(message: Option<string>): (text: string)
    ensures text != ""
    ensures message.Some? && message.value != "" ==> text == message.value
    ensures text != AuthFailedMessage ==> message == Some(text)
  {
    if message.Some? && message.value != "" then message.value else AuthFailedMessage
  }

  class Login {
    var email: string
    var password: string
    var isSignUp: bool
    var loading: bool
    var error: Option<string>

    constructor ()
      ensures email == "" && password == "" && !isSignUp && !loading && error == None
    {
      email, password, isSignUp := "", "", false;
      loading, error := false, None;
    }

    /** The email input's onChange. */
    method EditEmail(value: string)
      modifies this
      ensures email == value
      ensures password == old(password) && isSignUp == old(isSignUp)
      ensures loading == old(loading) && error == old(error)
    {
      email := value;
    }

    /** The password input's onChange. */
    method EditPassword(value: string)
      modifies this
      ensures password == value
      ensures email == old(email) && isSignUp == old(isSignUp)
      ensures loading == old(loading) && error == old(error)
    {
      password := value;
    }

    /** The "Sign Up" / "Log In" link under the form. */
    method ToggleSignUp()
      modifies this
      ensures isSignUp == !old(isSignUp)
      ensures email == old(email) && password == old(password)
      ensures loading == old(loading) && error == old(error)
    {
      isSignUp := !isSignUp;
    }

    /** handleAuth up to its await: raise `loading`, clear `error`, and pick
        sign-up or password sign-in from the toggle. */
    method BeginAuth() returns (call: AuthCall)
      modifies this
      ensures loading && error == None
      ensures call == if isSignUp then SignUp(email, password) else SignInWithPassword(email, password)
      ensures email == old(email) && password == old(password) && isSignUp == old(isSignUp)
    {
      loading := true;
      error := None;
      if isSignUp {
        call := SignUp(email, password);
      } else {
        call := SignInWithPassword(email, password);
      }
    }

    /** handleAuth after its await: on an error reply show its text (or the
        fallback), and in every case lower `loading`. A successful reply leaves
        `error` as it is. */
    method FinishAuth(reply: AuthReply)
      modifies this
      ensures !loading
      ensures error == if reply.AuthError? then Some(AuthErrorText(reply.message)) else old(error)
      ensures email == old(email) && password == old(password) && isSignUp == old(isSignUp)
    {
      if reply.AuthError? {
        error := Some(AuthErrorText(reply.message));
      }
      loading := false;
    }

    /** The whole of handleAuth when nothing else runs during the await. */
    method HandleAuth(reply: AuthReply) returns (call: AuthCall)
      modifies this
      ensures call == if isSignUp then SignUp(email, password) else SignInWithPassword(email, password)
      ensures !loading
      ensures error == if reply.AuthOk? then None else Some(AuthErrorText(reply.message))
      ensures reply.AuthError? ==> error.Some? && error.value != ""
      ensures email == old(email) && password == old(password) && isSignUp == old(isSignUp)
    {
      call := BeginAuth();
      FinishAuth(reply);
    }

    /** handleGoogleLogin: an OAuth sign-in; an error reply sets `error` to its
        message as it is, with no fallback, and `loading` is never touched. */
    method GoogleLogin(reply: AuthReply) returns (call: AuthCall)
      modifies this
      ensures call == SignInWithOAuth("google")
      ensures error == if reply.AuthError? then reply.message else old(error)
      ensures loading == old(loading)
      ensures email == old(email) && password == old(password) && isSignUp == old(isSignUp)
    {
      call := SignInWithOAuth("google");
      if reply.AuthError? {
        error := reply.message;
      }
    }
  }
}
