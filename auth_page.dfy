/**
 * The sign-in / sign-up screen (frontend/src/pages/Auth.jsx): its mode, the
 * ordered validation guards of the signup form, and where a submit leads.
 */
module AuthPage {
  import opened Wrappers
  import opened Text
  import opened AuthContext

  const NameError := "Please enter a name."
  const PinError := "PIN must be at least 4 digits."
  const LoginError := "Incorrect PIN. Please try again."
  const Dashboard := "/dashboard"
  /** `maxLength={4}` on the PIN field. */
  const MaxPinLength := 4

  /**
   * The signup guards in order: a trimmed name shorter than 2 first, then a
   * PIN shorter than 4, both lengths in UTF-16 code units as `.length`
   * counts them; none means the signup goes ahead.
   */
  function SignupError(name: string, pin: string): (e: Option<string>)
    ensures e.None? <==> Utf16Length(Trim(name)) >= 2 && Utf16Length(pin) >= 4
    ensures Utf16Length(Trim(name)) < 2 ==> e == Some(NameError)
    ensures Utf16Length(Trim(name)) >= 2 && Utf16Length(pin) < 4 ==> e == Some(PinError)
  {
    if Utf16Length(Trim(name)) < 2 then Some(NameError)
    else if Utf16Length(pin) < 4 then Some(PinError)
    else None
  }

  /** A one-character name above U+FFFF has length 2 and passes the name guard; one letter does not. */
  lemma OneEmojiNamePasses()
    ensures |Trim("\U{1F600}")| == 1 && SignupError("\U{1F600}", "1234").None?
    ensures SignupError("A", "1234") == Some(NameError)
  {
    assert Trim("\U{1F600}") == "\U{1F600}" by {
      assert !IsSpace('\U{1F600}');
    }
    assert Trim("A") == "A" by {
      assert !IsSpace('A');
    }
    assert Utf16Length("1234") == 4;
  }

  /** A name of spaces only is refused before the PIN is looked at. */
  lemma BlankNameIsCheckedFirst(name: string, pin: string)
    requires IsBlank(name)
    ensures SignupError(name, pin) == Some(NameError)
  {
  }

  /** What the browser puts in the PIN field for typed or pasted text `s`. */
  function CapPin(s: string): (r: string)
    ensures |r| <= MaxPinLength && |r| <= |s|
    ensures r == s[..|r|]
    ensures |s| <= MaxPinLength ==> r == s
  {
    if |s| <= MaxPinLength then s else s[..MaxPinLength]
  }

  predicate IsDigit(c: char) {
    '0' <= c <= '9'
  }

  /**
   * The form fires its submit handler only when the button is enabled
   * (`disabled={!pin}`) and the PIN matches `pattern="[0-9]*"`.
   */
  predicate Submits(pin: string) {
    pin != [] && forall k :: 0 <= k < |pin| ==> IsDigit(pin[k])
  }

  /**
   * A PIN that passes the form's own checks is 1 to 4 digits, measured alike
   * in characters and code units, so for any name past the name guard the
   * PIN guard fires exactly when fewer than 4 digits were typed.
   */
  lemma SubmittedPinShape(name: string, s: string)
    requires Submits(CapPin(s))
    ensures 1 <= |CapPin(s)| <= 4 && Utf16Length(CapPin(s)) == |CapPin(s)|
    ensures Utf16Length(Trim(name)) >= 2 ==>
      (SignupError(name, CapPin(s)) == Some(PinError) <==> |CapPin(s)| < 4)
  {
    var p := CapPin(s);
    assert forall k :: 0 <= k < |p| ==> p[k] <= '\U{FFFF}' by {
      forall k | 0 <= k < |p| ensures p[k] <= '\U{FFFF}' {
        assert IsDigit(p[k]);
      }
    }
  }

  class AuthScreen {
    const auth: AuthProvider
    var isLoginMode: bool
    var name: string
    var pin: string
    var error: string
    /** The last `navigate` target, if any. */
    var navigatedTo: Option<string>

    /** Login mode exactly when a record is stored; a signed-in user is sent on to the dashboard. */
    constructor (auth: AuthProvider)
      ensures this.auth == auth
      ensures isLoginMode == auth.UserExists()
      ensures name == "" && pin == "" && error == ""
      ensures navigatedTo == if auth.user.Some? then Some(Dashboard) else None
    {
      this.auth := auth;
      isLoginMode := auth.stored.Some?;
      name := "";
      pin := "";
      error := "";
      navigatedTo := if auth.user.Some? then Some(Dashboard) else None;
    }

    method ChangeName(s: string)
      modifies this`name
      ensures name == s
    {
      name := s;
    }

    method ChangePin(s: string)
      modifies this`pin
      ensures pin == CapPin(s)
    {
      pin := CapPin(s);
    }

    /**
     * `handleSubmit`, when the form lets it run: clear the error; in login
     * mode try the PIN; in signup mode run the guards and sign up with the
     * name as typed.
     */
    method Submit(now: string)
      modifies this`error, this`navigatedTo, auth
      ensures isLoginMode ==>
        && auth.stored == old(auth.stored)
        && (if old(auth.stored).Some? && old(auth.stored).value.pin == pin
            then error == "" && navigatedTo == Some(Dashboard) && auth.user == auth.stored
            else error == LoginError && navigatedTo == old(navigatedTo) && auth.user == old(auth.user))
      ensures !isLoginMode ==>
        match SignupError(name, pin)
        case Some(e) =>
          error == e && navigatedTo == old(navigatedTo)
          && auth.user == old(auth.user) && auth.stored == old(auth.stored)
        case None =>
          error == "" && navigatedTo == Some(Dashboard)
          && auth.stored == Some(User(name, pin, now)) && auth.user == auth.stored
    {
      error := "";
      if isLoginMode {
        var ok := auth.Login(pin);
        if ok {
          navigatedTo := Some(Dashboard);
        } else {
          error := LoginError;
        }
      } else {
        var problem := SignupError(name, pin);
        if problem.Some? {
          error := problem.value;
          return;
        }
        var _ := auth.Signup(name, pin, now);
        navigatedTo := Some(Dashboard);
      }
    }
  }
}
