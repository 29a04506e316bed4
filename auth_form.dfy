/** `validateForm` of components/AuthForm.tsx: the checks run in a fixed
    order and the first that fails names the error the form shows. */
module AuthForm {
  import opened Wrappers
  import opened JsText

  datatype Mode = SignInMode | SignUpMode

  /** `[^\s@]+`: a non-empty run of characters that are neither white space nor `@`. */
  predicate Segment(s: string) {
    |s| > 0 && forall k :: 0 <= k < |s| ==> !IsJsSpace(s[k]) && s[k] != '@'
  }

  /** `/^[^\s@]+@[^\s@]+\.[^\s@]+$/.test(s)`: a segment, `@`, a segment,
      `.`, a segment, and nothing else. */
  predicate EmailPattern(s: string) {
    exists i, j | 0 <= i < j < |s| ::
      s[i] == '@' && s[j] == '.' && Segment(s[..i]) && Segment(s[i + 1..j]) && Segment(s[j + 1..])
  }

  /** The same test in plain terms: no white space anywhere, a single `@`
      that is not the first character, and after it a `.` that is neither
      the first nor the last character of what follows the `@`. */
  predicate EmailShape(s: string) {
    && (forall k :: 0 <= k < |s| ==> !IsJsSpace(s[k]))
    && exists i | 0 < i < |s| ::
         && s[i] == '@'
         && (forall k :: 0 <= k < |s| && k != i ==> s[k] != '@')
         && exists j | i + 1 < j < |s| - 1 :: s[j] == '.'
  }

  lemma PatternHasShape(s: string)
    requires EmailPattern(s)
    ensures EmailShape(s)
  {
    var i, j :| 0 <= i < j < |s| && s[i] == '@' && s[j] == '.'
                && Segment(s[..i]) && Segment(s[i + 1..j]) && Segment(s[j + 1..]);
    forall k | 0 <= k < |s|
      ensures !IsJsSpace(s[k]) && (k != i ==> s[k] != '@')
    {
      if k < i {
        assert s[k] == s[..i][k];
      } else if i < k < j {
        assert s[k] == s[i + 1..j][k - i - 1];
      } else if j < k {
        assert s[k] == s[j + 1..][k - j - 1];
      } else if k == i {
        assert s[k] == '@';
      } else {
        assert s[k] == '.';
      }
    }
    assert |s[..i]| > 0 && |s[i + 1..j]| > 0 && |s[j + 1..]| > 0;
    assert 0 < i && i + 1 < j < |s| - 1 && s[j] == '.';
  }

  lemma ShapeHasPattern(s: string)
    requires EmailShape(s)
    ensures EmailPattern(s)
  {
    var i :| 0 < i < |s| && s[i] == '@' && (forall k :: 0 <= k < |s| && k != i ==> s[k] != '@')
             && exists j | i + 1 < j < |s| - 1 :: s[j] == '.';
    var j :| i + 1 < j < |s| - 1 && s[j] == '.';
    assert Segment(s[..i]) by {
      assert forall k :: 0 <= k < i ==> s[..i][k] == s[k];
    }
    assert Segment(s[i + 1..j]) by {
      assert forall k :: i + 1 <= k < j ==> s[i + 1..j][k - i - 1] == s[k];
    }
    assert Segment(s[j + 1..]) by {
      assert forall k :: j + 1 <= k < |s| ==> s[j + 1..][k - j - 1] == s[k];
    }
  }

  /** The pattern and the plain description accept the same strings. */
  lemma EmailPatternShape(s: string)
    ensures EmailPattern(s) <==> EmailShape(s)
  {
    if EmailPattern(s) {
      PatternHasShape(s);
    }
    if EmailShape(s) {
      ShapeHasPattern(s);
    }
  }

  /** The pattern is applied to the untrimmed input, so leading or
      trailing white space fails it. */
  lemma SurroundingSpaceFails(s: string)
    requires |s| > 0 && (IsJsSpace(s[0]) || IsJsSpace(s[|s| - 1]))
    ensures !EmailPattern(s)
  {
    EmailPatternShape(s);
  }

  /** The message of the first failing check, or none when the form is valid. */
  function FormError(mode: Mode, email: string, password: string, name: string): (r: Option<string>)
    ensures r == Some("Email is required") <==> AllSpace(email)
    ensures r == Some("Please enter a valid email address") <==> !AllSpace(email) && !EmailShape(email)
    ensures r == Some("Password is required") <==> EmailShape(email) && AllSpace(password)
    ensures r == Some("Password must be at least 6 characters") <==>
              EmailShape(email) && !AllSpace(password) && |password| < 6
    ensures r == Some("Name is required") <==>
              EmailShape(email) && !AllSpace(password) && |password| >= 6 && mode == SignUpMode && AllSpace(name)
    ensures r.None? <==>
              EmailShape(email) && !AllSpace(password) && |password| >= 6 && (mode == SignUpMode ==> !AllSpace(name))
  {
    EmailPatternShape(email);
    if Trim(email) == "" then Some("Email is required")
    else if !EmailPattern(email) then Some("Please enter a valid email address")
    else if Trim(password) == "" then Some("Password is required")
    else if |password| < 6 then Some("Password must be at least 6 characters")
    else if mode == SignUpMode && Trim(name) == "" then Some("Name is required")
    else None
  }

  /** The inputs of the form and the error it shows. */
  class FormState {
    var email: string
    var password: string
    var name: string
    var formError: Option<string>

    constructor()
      ensures email == "" && password == "" && name == "" && formError.None?
    {
      email, password, name := "", "", "";
      formError := None;
    }

    /** `validateForm`: clear the error, then report the first failing check. */
    method ValidateForm(mode: Mode) returns (ok: bool)
      modifies this
      ensures email == old(email) && password == old(password) && name == old(name)
      ensures formError == FormError(mode, email, password, name)
      ensures ok <==> formError.None?
    {
      formError := None;
      if Trim(email) == "" {
        formError := Some("Email is required");
        return false;
      }
      if !EmailPattern(email) {
        formError := Some("Please enter a valid email address");
        return false;
      }
      if Trim(password) == "" {
        formError := Some("Password is required");
        return false;
      }
      if |password| < 6 {
        formError := Some("Password must be at least 6 characters");
        return false;
      }
      if mode == SignUpMode && Trim(name) == "" {
        formError := Some("Name is required");
        return false;
      }
      return true;
    }
  }

  /** Only sign-up asks for a name: whatever fails on sign-in fails the
      same way on sign-up, and the two differ only by the missing name. */
  lemma NameOnlyForSignUp(email: string, password: string, name: string)
    ensures FormError(SignInMode, email, password, name).Some? ==>
              FormError(SignUpMode, email, password, name) == FormError(SignInMode, email, password, name)
    ensures FormError(SignInMode, email, password, name) != FormError(SignUpMode, email, password, name) <==>
              FormError(SignInMode, email, password, name).None? && AllSpace(name)
  {
  }
}
