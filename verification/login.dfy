/**
 * The sign-in dialog: a name field, an optional email field, "Start
 * Learning" (which signs in) and "Continue as Guest" (which only closes).
 * Calls to the `onLogin` callback are recorded, in order, in `logins`, and
 * calls to `onClose` are counted in `closeCalls`.
 */
module Login {
  import opened JsString

  /** The guard of `handleLogin`: a name is accepted when it has a character that `trim` keeps. */
  function NameAccepted(name: string): (accepted: bool)
    ensures accepted <==> exists i :: 0 <= i < |name| && !IsWhitespace(name[i])
  {
    !IsBlank(name)
  }

  /** Whitespace before a name and whitespace after it, each of any length, do not change the verdict. */
  lemma NameAcceptedIgnoresPadding(pre: string, name: string, post: string)
    requires forall i :: 0 <= i < |pre| ==> IsWhitespace(pre[i])
    requires forall i :: 0 <= i < |post| ==> IsWhitespace(post[i])
    ensures NameAccepted(pre + name + post) == NameAccepted(name)
  {
    var s := pre + name + post;
    if NameAccepted(name) {
      var i :| 0 <= i < |name| && !IsWhitespace(name[i]);
      assert s[|pre| + i] == name[i];
    }
    if NameAccepted(s) {
      var j :| 0 <= j < |s| && !IsWhitespace(s[j]);
      assert |pre| <= j < |pre| + |name| && s[j] == name[j - |pre|];
    }
  }

  class LoginModal {
    var name: string
    var email: string
    /** The names passed to `onLogin`, in call order. */
    var logins: seq<string>
    /** How many times `onClose` has been called. */
    var closeCalls: nat

    constructor ()
      ensures name == "" && email == "" && logins == [] && closeCalls == 0
    {
      name := "";
      email := "";
      logins := [];
      closeCalls := 0;
    }

    /** Typing in the name field. */
    method SetName(text: string)
      modifies this
      ensures name == text
      ensures email == old(email) && logins == old(logins) && closeCalls == old(closeCalls)
    {
      name := text;
    }

    /** Typing in the email field. */
    method SetEmail(text: string)
      modifies this
      ensures email == text
      ensures name == old(name) && logins == old(logins) && closeCalls == old(closeCalls)
    {
      email := text;
    }

    /**
     * `handleLogin`: a blank name changes nothing and calls no callback;
     * otherwise the name, exactly as typed, goes to `onLogin` once, the
     * dialog is closed and both fields are cleared. The email is neither
     * checked nor passed on.
     */
    method HandleLogin() returns (accepted: bool)
      modifies this
      ensures accepted == NameAccepted(old(name))
      ensures !accepted ==>
        name == old(name) && email == old(email) && logins == old(logins) && closeCalls == old(closeCalls)
      ensures accepted ==>
        && logins == old(logins) + [old(name)] && closeCalls == old(closeCalls) + 1
        && name == "" && email == ""
    {
      accepted := NameAccepted(name);
      if !accepted {
        return;
      }
      logins := logins + [name];
      closeCalls := closeCalls + 1;
      name := "";
      email := "";
    }

    /** "Continue as Guest", or dismissing the dialog: `onClose` only; the fields keep their text. */
    method ContinueAsGuest()
      modifies this
      ensures closeCalls == old(closeCalls) + 1
      ensures name == old(name) && email == old(email) && logins == old(logins)
    {
      closeCalls := closeCalls + 1;
    }
  }
}
