/**
 * The local sign-in state (frontend/src/context/AuthContext.jsx): the
 * current `user` and the record stored under `mlh_user`. There is no server:
 * signing up writes the record, logging in compares a PIN with it, and
 * logging out forgets only the current user.
 */
module AuthContext {
  import opened Wrappers

  /** The stored profile; `joinDate` is the ISO timestamp of the signup, a parameter here. */
  datatype User = User(name: string, pin: string, joinDate: string)

  class AuthProvider {
    /** The signed-in user, or null. */
    var user: Option<User>
    /** The record under `mlh_user`, or none. */
    var stored: Option<User>
    /** The provider never sets its loading flag. */
    const loading: bool

    /** The first render reads the stored record as the current user. */
    constructor (stored: Option<User>)
      ensures this.stored == stored && user == stored && !loading
    {
      this.stored := stored;
      user := stored;
      loading := false;
    }

    /** `userExists`: a record is stored, whether or not anyone is signed in. */
    predicate UserExists()
      reads this`stored
    {
      stored.Some?
    }

    /** `signup`: store a new record, make it the current user, report success. */
    method Signup(name: string, pin: string, now: string) returns (ok: bool)
      modifies this`user, this`stored
      ensures stored == Some(User(name, pin, now)) && user == stored
      ensures ok
    {
      stored := Some(User(name, pin, now));
      user := stored;
      ok := true;
    }

    /** `login`: succeeds exactly when a record is stored with an equal PIN. */
    method Login(pin: string) returns (ok: bool)
      modifies this`user
      ensures ok <==> stored.Some? && stored.value.pin == pin
      ensures ok ==> user == stored
      ensures !ok ==> user == old(user)
    {
      if stored.Some? && stored.value.pin == pin {
        user := stored;
        ok := true;
      } else {
        ok := false;
      }
    }

    /** `logout`: the stored record stays, so the next visit asks for the PIN. */
    method Logout()
      modifies this`user
      ensures user == None
      ensures UserExists() == old(UserExists())
    {
      user := None;
    }
  }

  /**
   * After a signup and a logout, another PIN is refused and the PIN chosen
   * at signup signs the same user back in.
   */
  method SignupLogoutLogin(auth: AuthProvider, name: string, pin: string, other: string, now: string)
      returns (wrong: bool, right: bool)
    requires other != pin
    modifies auth
    ensures !wrong && right
    ensures auth.user == Some(User(name, pin, now)) && auth.UserExists()
  {
    var _ := auth.Signup(name, pin, now);
    auth.Logout();
    wrong := auth.Login(other);
    assert auth.user == None;
    right := auth.Login(pin);
  }
}
