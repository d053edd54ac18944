/**
 * The registration form handler: on a POST it trims the username and runs
 * three checks in a fixed order (all fields present, passwords equal,
 * password at least 8 bytes), reporting only the first that fails; when
 * all pass it sets the success message and clears the username field.
 */
module Signup {
  import opened Wrappers
  import opened PhpStrings
  import opened Forms

  /** The request: its method and the three posted fields, `None` when not posted. */
  datatype Request = Request(requestMethod: string, username: Option<string>, password: Option<string>,
                             confirmPassword: Option<string>)

  /** The script-level variables the page renders from. */
  datatype Page = Page(errorMessage: string, successMessage: string, username: string)

  const RequiredError := "All fields are required for registration."
  const MismatchError := "Passwords do not match."
  const LengthError := "Password must be at least 8 characters long."
  const SuccessMessage := "Registration successful! You can now log in. (In a real app, the user would be created and redirected.)"
  const MinPasswordLength := 8

  /** The username as the handler uses it: the posted value, trimmed. */
  function PostedUsername(req: Request): string {
    TrimmedField(req.username)
  }

  /** The password as posted, untrimmed. */
  function PostedPassword(req: Request): string {
    Field(req.password)
  }

  /** The confirmation as posted, untrimmed. */
  function PostedConfirmation(req: Request): string {
    Field(req.confirmPassword)
  }

  /** Some field is missing in PHP's sense of `empty`. */
  predicate MissingField(req: Request) {
    IsEmpty(PostedUsername(req)) || IsEmpty(PostedPassword(req)) || IsEmpty(PostedConfirmation(req))
  }

  /** The page state after the script's validation chain. */
  function Handle(req: Request): (p: Page)
    ensures !IsPost(req.requestMethod) ==> p == Page("", "", "")
    ensures IsPost(req.requestMethod) ==> (p.errorMessage == "" <==> p.successMessage != "")
    ensures p.errorMessage == RequiredError <==> IsPost(req.requestMethod) && MissingField(req)
    ensures p.errorMessage == MismatchError
            <==> IsPost(req.requestMethod) && !MissingField(req) && PostedPassword(req) != PostedConfirmation(req)
    ensures p.errorMessage == LengthError
            <==> IsPost(req.requestMethod) && !MissingField(req) && PostedPassword(req) == PostedConfirmation(req)
                 && |PostedPassword(req)| < MinPasswordLength
    ensures p.successMessage != ""
            <==> IsPost(req.requestMethod) && !MissingField(req) && PostedPassword(req) == PostedConfirmation(req)
                 && |PostedPassword(req)| >= MinPasswordLength
    ensures p.successMessage != "" ==> p.successMessage == SuccessMessage && p.username == ""
    ensures p.errorMessage != "" ==> p.username == PostedUsername(req)
  {
    if !IsPost(req.requestMethod) then Page("", "", "")
    else Validate(PostedUsername(req), PostedPassword(req), PostedConfirmation(req))
  }

  /** The validation chain of a POST, on the trimmed username and the posted passwords. */
  function Validate(username: string, password: string, confirmPassword: string): Page {
    if IsEmpty(username) || IsEmpty(password) || IsEmpty(confirmPassword) then
      Page(RequiredError, "", username)
    else if password != confirmPassword then
      Page(MismatchError, "", username)
    else if |password| < MinPasswordLength then
      Page(LengthError, "", username)
    else
      Page("", SuccessMessage, "")
  }

  /**
   * A mismatched confirmation or a password under 8 bytes is rejected
   * whatever the username; the message names the mismatch or the length
   * only once every field is present.
   */
  lemma WeakOrMismatchedPasswordRejected(req: Request)
    requires IsPost(req.requestMethod)
    requires PostedPassword(req) != PostedConfirmation(req) || |PostedPassword(req)| < MinPasswordLength
    ensures Handle(req).successMessage == ""
    ensures Handle(req).errorMessage in {RequiredError, MismatchError, LengthError}
  {
  }

  /** The username "0" is empty to PHP, so it is reported as a missing field even with a valid password. */
  lemma ZeroUsernameIsMissing(password: string)
    requires |password| >= MinPasswordLength
    ensures Handle(Request("POST", Some("0"), Some(password), Some(password)))
              .errorMessage == RequiredError
  {
    TrimKeepsTrimmed("0");
  }

  /** Whitespace around the username does not change the outcome; the username kept on error is trimmed. */
  lemma UsernamePaddingIgnored(req: Request, before: string, name: string, after: string)
    requires AllTrimChars(before) && AllTrimChars(after) && IsTrimmed(name)
    requires req.username == Some(before + name + after)
    ensures Handle(req) == Handle(req.(username := Some(name)))
  {
    assert PostedUsername(req) == name by {
      TrimRemovesPadding(before, name, after);
    }
    TrimmedUsernameSuffices(req);
  }

  /** Posting the username already trimmed gives the same outcome as posting it as typed. */
  lemma TrimmedUsernameSuffices(req: Request)
    ensures Handle(req) == Handle(req.(username := Some(PostedUsername(req))))
  {
    var plain := req.(username := Some(PostedUsername(req)));
    assert PostedUsername(plain) == PostedUsername(req) by {
      TrimIdempotent(Field(req.username));
    }
    SamePostedValues(req, plain);
  }

  /** The outcome depends only on the request method and the values the handler reads. */
  lemma SamePostedValues(req: Request, other: Request)
    requires req.requestMethod == other.requestMethod
    requires PostedUsername(req) == PostedUsername(other)
    requires PostedPassword(req) == PostedPassword(other)
    requires PostedConfirmation(req) == PostedConfirmation(other)
    ensures Handle(req) == Handle(other)
  {
  }

  /** The password is compared as posted: padding on one side only makes the passwords differ. */
  lemma PasswordNotTrimmed(username: string, password: string)
    requires !IsEmpty(Trim(username)) && |password| >= MinPasswordLength
    ensures Handle(Request("POST", Some(username), Some(password + " "), Some(password))).errorMessage
            == MismatchError
  {
    var req := Request("POST", Some(username), Some(password + " "), Some(password));
    assert PostedPassword(req) == password + " " && PostedConfirmation(req) == password;
    assert |password + " "| != |password|;
    assert !IsEmpty(password) && !IsEmpty(password + " ");
    assert !MissingField(req);
  }
}
