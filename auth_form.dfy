/**
 * The sign-in / sign-up form of the home page: the field checks, the
 * validation gate in front of the auth client, and the clearing of error
 * messages on tab switch and on edit.
 */
module AuthForm {
  import opened Wrappers

  const EmailRequired := "Email is required"
  const EmailInvalid := "Please enter a valid email address"
  const PasswordRequired := "Password is required"
  const PasswordTooShort := "Password must be at least 6 characters"
  const NameRequired := "Name is required"
  const MinPasswordLength := 6

  /** The error record: a field is absent when it has no error. */
  datatype FormErrors = FormErrors(email: Option<string>, password: Option<string>, name: Option<string>)

  const NoErrors := FormErrors(None, None, None)

  /** What the page hands to the auth client. */
  datatype AuthRequest =
    | SignUp(email: string, password: string, name: string)
    | SignIn(email: string, password: string)

  /** The characters JavaScript's `\s` and `String.prototype.trim` treat as white space. */
  predicate IsWhitespace(c: char)
  {
    || c == '\t' || c == '\n' || c == '\U{000B}' || c == '\U{000C}' || c == '\r' || c == ' '
    || c == '\U{00A0}' || c == '\U{1680}' || ('\U{2000}' <= c <= '\U{200A}')
    || c == '\U{2028}' || c == '\U{2029}' || c == '\U{202F}' || c == '\U{205F}'
    || c == '\U{3000}' || c == '\U{FEFF}'
  }

  // ---------------------------------------------------------------- email

  /** A character of the regex's class `[^\s@]`. */
  predicate EmailChar(c: char)
  {
    c != '@' && !IsWhitespace(c)
  }

  /** A run matched by `[^\s@]+`. */
  predicate EmailPart(s: string)
  {
    |s| > 0 && forall k :: 0 <= k < |s| ==> EmailChar(s[k])
  }

  /** The language of `^[^\s@]+@[^\s@]+\.[^\s@]+$`, read off the pattern. */
  ghost predicate RegexAccepts(s: string)
  {
    exists a, b, c :: EmailPart(a) && EmailPart(b) && EmailPart(c) && s == a + "@" + b + "." + c
  }

  /**
   * The email shape checked position by position: no white space, exactly
   * one '@' with something before it, and a '.' after the character that
   * follows the '@' and before the last character.
   */
  predicate IsValidEmail(s: string)
  {
    && (forall k :: 0 <= k < |s| ==> !IsWhitespace(s[k]))
    && exists i :: 0 < i < |s| && s[i] == '@'
         && (forall k :: 0 <= k < |s| && k != i ==> s[k] != '@')
         && (exists j :: i + 1 < j < |s| - 1 && s[j] == '.')
  }

  /** A string passing the positional check splits into the regex's three runs. */
  lemma ValidEmailMatches(s: string)
    requires IsValidEmail(s)
    ensures RegexAccepts(s)
  {
    var i :| 0 < i < |s| && s[i] == '@'
       && (forall k :: 0 <= k < |s| && k != i ==> s[k] != '@')
       && (exists j :: i + 1 < j < |s| - 1 && s[j] == '.');
    var j :| i + 1 < j < |s| - 1 && s[j] == '.';
    var a, b, c := s[..i], s[i + 1..j], s[j + 1..];
    assert EmailPart(a) by {
      assert forall k :: 0 <= k < |a| ==> a[k] == s[k];
    }
    assert EmailPart(b) by {
      assert forall k :: 0 <= k < |b| ==> b[k] == s[i + 1 + k];
    }
    assert EmailPart(c) by {
      assert forall k :: 0 <= k < |c| ==> c[k] == s[j + 1 + k];
    }
    assert s == a + "@" + b + "." + c;
  }

  /** A string the regex matches passes the positional check. */
  lemma MatchIsValidEmail(s: string)
    requires RegexAccepts(s)
    ensures IsValidEmail(s)
  {
    var a, b, c :| EmailPart(a) && EmailPart(b) && EmailPart(c) && s == a + "@" + b + "." + c;
    var i, j := |a|, |a| + 1 + |b|;
    assert s[i] == '@' && s[j] == '.';
    forall k | 0 <= k < |s|
      ensures !IsWhitespace(s[k]) && (k != i ==> s[k] != '@')
    {
      if k < i {
        assert s[k] == a[k];
      } else if i < k < j {
        assert s[k] == b[k - i - 1];
      } else if j < k {
        assert s[k] == c[k - j - 1];
      }
    }
  }

  /** The positional check accepts exactly the strings the regex matches. */
  lemma EmailRegexEquivalence(s: string)
    ensures IsValidEmail(s) <==> RegexAccepts(s)
  {
    if IsValidEmail(s) {
      ValidEmailMatches(s);
    }
    if RegexAccepts(s) {
      MatchIsValidEmail(s);
    }
  }

  /** The email field's error. */
  function EmailError(email: string): (r: Option<string>)
    ensures r == Some(EmailRequired) <==> email == ""
    ensures r == Some(EmailInvalid) <==> email != "" && !RegexAccepts(email)
    ensures r == None <==> RegexAccepts(email)
  {
    EmailRegexEquivalence(email);
    if email == "" then Some(EmailRequired)
    else if !IsValidEmail(email) then Some(EmailInvalid)
    else None
  }

  // ------------------------------------------------------------- password

  /** `String.prototype.length`: characters outside the basic plane take two UTF-16 units. */
  function Utf16Length(s: string): (n: nat)
    ensures |s| <= n <= 2 * |s|
  {
    if s == [] then 0 else Utf16Length(s[..|s| - 1]) + (if s[|s| - 1] as int >= 0x1_0000 then 2 else 1)
  }

  /** The password field's error. */
  function PasswordError(password: string): (r: Option<string>)
    ensures r == Some(PasswordRequired) <==> password == ""
    ensures r == Some(PasswordTooShort) <==> password != "" && Utf16Length(password) < MinPasswordLength
    ensures r == None <==> Utf16Length(password) >= MinPasswordLength
  {
    if password == "" then Some(PasswordRequired)
    else if Utf16Length(password) < MinPasswordLength then Some(PasswordTooShort)
    else None
  }

  /** Six characters always pass the length check; fewer than three never do. */
  lemma PasswordLengthBounds(password: string)
    ensures |password| >= MinPasswordLength ==> PasswordError(password) == None
    ensures |password| < MinPasswordLength / 2 ==> PasswordError(password).Some?
  {
  }

  // ----------------------------------------------------------------- name

  /** `trim`'s leading half. */
  function TrimStart(s: string): (r: string)
    ensures |r| <= |s| && r == s[|s| - |r|..]
    ensures r != [] ==> !IsWhitespace(r[0])
    ensures forall k :: 0 <= k < |s| - |r| ==> IsWhitespace(s[k])
  {
    if s != [] && IsWhitespace(s[0]) then TrimStart(s[1..]) else s
  }

  /** Trimming the start leaves nothing exactly when the string is all white space. */
  lemma TrimStartEmpty(s: string)
    ensures TrimStart(s) == [] <==> forall k :: 0 <= k < |s| ==> IsWhitespace(s[k])
  {
  }

  /** `trim`'s trailing half. */
  function TrimEnd(s: string): (r: string)
    ensures |r| <= |s| && r == s[..|r|]
    ensures r != [] ==> !IsWhitespace(r[|r| - 1])
    ensures forall k :: |r| <= k < |s| ==> IsWhitespace(s[k])
  {
    if s != [] && IsWhitespace(s[|s| - 1]) then TrimEnd(s[..|s| - 1]) else s
  }

  /** Trimming the end leaves nothing exactly when the string is all white space. */
  lemma TrimEndEmpty(s: string)
    ensures TrimEnd(s) == [] <==> forall k :: 0 <= k < |s| ==> IsWhitespace(s[k])
  {
  }

  /** `String.prototype.trim`: the leading half, then the trailing half. */
  function Trim(s: string): (r: string)
    ensures r == [] <==> forall k :: 0 <= k < |s| ==> IsWhitespace(s[k])
    ensures r != [] ==> !IsWhitespace(r[0]) && !IsWhitespace(r[|r| - 1])
  {
    var t := TrimStart(s);
    var r := TrimEnd(t);
    assert r != [] ==> r[0] == t[0];
    r
  }

  /** The name field's error: only in sign-up mode, for a blank name. */
  function NameError(isSignUp: bool, name: string): (r: Option<string>)
    ensures r.Some? ==> r == Some(NameRequired)
    ensures r.Some? <==> isSignUp && forall k :: 0 <= k < |name| ==> IsWhitespace(name[k])
  {
    if isSignUp && Trim(name) == "" then Some(NameRequired) else None
  }

  // ----------------------------------------------------------------- form

  /** The error record `validateForm` stores for the current fields. */
  function Validate(email: string, password: string, name: string, isSignUp: bool): FormErrors
  {
    FormErrors(EmailError(email), PasswordError(password), NameError(isSignUp, name))
  }

  /** A form passes exactly when the email matches, the password is long enough and, in sign-up mode, the name is not blank. */
  lemma ValidIff(email: string, password: string, name: string, isSignUp: bool)
    ensures Validate(email, password, name, isSignUp) == NoErrors <==>
      && RegexAccepts(email)
      && Utf16Length(password) >= MinPasswordLength
      && (isSignUp ==> exists k :: 0 <= k < |name| && !IsWhitespace(name[k]))
  {
  }

  /** In sign-in mode the name is never checked. */
  lemma SignInIgnoresName(email: string, password: string, name: string, other: string)
    ensures Validate(email, password, name, false) == Validate(email, password, other, false)
  {
  }

  /** The page's form state. */
  class AuthPage {
    var email: string
    var password: string
    var name: string
    var isSignUp: bool
    var isLoadingAuth: bool
    var errors: FormErrors
    /** The requests handed to the auth client, oldest first. */
    var requests: seq<AuthRequest>

    constructor ()
      ensures email == "" && password == "" && name == "" && !isSignUp && !isLoadingAuth
      ensures errors == NoErrors && requests == []
    {
      email, password, name := "", "", "";
      isSignUp, isLoadingAuth := false, false;
      errors := NoErrors;
      requests := [];
    }

    /** Fills a fresh error record field by field, stores it, and reports whether it is empty. */
    method ValidateForm() returns (ok: bool)
      modifies this`errors
      ensures errors == Validate(email, password, name, isSignUp)
      ensures ok <==> errors == NoErrors
    {
      var newErrors := NoErrors;
      if email == "" {
        newErrors := newErrors.(email := Some(EmailRequired));
      } else if !IsValidEmail(email) {
        newErrors := newErrors.(email := Some(EmailInvalid));
      }
      if password == "" {
        newErrors := newErrors.(password := Some(PasswordRequired));
      } else if Utf16Length(password) < MinPasswordLength {
        newErrors := newErrors.(password := Some(PasswordTooShort));
      }
      if isSignUp && Trim(name) == "" {
        newErrors := newErrors.(name := Some(NameRequired));
      }
      errors := newErrors;
      ok := newErrors == NoErrors;
    }

    /**
     * The submit button (disabled while a request is in flight): validate,
     * and only when the form passes, raise the loading flag and hand the
     * request for the current mode to the auth client.
     */
    method HandleAuth() returns (request: Option<AuthRequest>)
      requires !isLoadingAuth
      modifies this`errors, this`isLoadingAuth, this`requests
      ensures errors == Validate(email, password, name, isSignUp)
      ensures request.Some? <==> errors == NoErrors
      ensures request.Some? ==>
        && request.value == (if isSignUp then SignUp(email, password, name) else SignIn(email, password))
        && isLoadingAuth
        && requests == old(requests) + [request.value]
      ensures request.None? ==> !isLoadingAuth && requests == old(requests)
    {
      errors := NoErrors;
      var ok := ValidateForm();
      if !ok {
        return None;
      }
      isLoadingAuth := true;
      var r := if isSignUp then SignUp(email, password, name) else SignIn(email, password);
      requests := requests + [r];
      request := Some(r);
    }

    /**
     * The auth call settles. A return and a throw are handled alike: an
     * error is only logged, and the `finally` drops the loading flag.
     */
    method AuthSettled()
      requires isLoadingAuth
      modifies this`isLoadingAuth
      ensures !isLoadingAuth
    {
      isLoadingAuth := false;
    }

    /** A tab button: set the mode and clear every error. */
    method SelectTab(signUp: bool)
      modifies this`isSignUp, this`errors
      ensures isSignUp == signUp && errors == NoErrors
    {
      isSignUp := signUp;
      errors := NoErrors;
    }

    /** Editing the email clears the email error only. */
    method EditEmail(value: string)
      modifies this`email, this`errors
      ensures email == value && errors == old(errors).(email := None)
    {
      email := value;
      if errors.email.Some? {
        errors := errors.(email := None);
      }
    }

    /** Editing the password clears the password error only. */
    method EditPassword(value: string)
      modifies this`password, this`errors
      ensures password == value && errors == old(errors).(password := None)
    {
      password := value;
      if errors.password.Some? {
        errors := errors.(password := None);
      }
    }

    /** Editing the name clears the name error only. */
    method EditName(value: string)
      modifies this`name, this`errors
      ensures name == value && errors == old(errors).(name := None)
    {
      name := value;
      if errors.name.Some? {
        errors := errors.(name := None);
      }
    }
  }
}
