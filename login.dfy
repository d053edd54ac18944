/**
 * The simulated login handler: on a POST it trims the username, requires
 * both fields, and accepts exactly one hard-coded credential pair.
 */
module Login {
  import opened Wrappers
  import opened PhpStrings
  import opened Forms

  /** The request: its method and the two posted fields, `None` when not posted. */
  datatype Request = Request(requestMethod: string, username: Option<string>, password: Option<string>)

  /**
   * The script-level variables the page renders: the two messages and the
   * username echoed into the form (`$username ?? ''`, so '' when the script
   * never set it).
   */
  datatype Page = Page(errorMessage: string, successMessage: string, username: string)

  const MissingError := "Please enter both username and password."
  const InvalidError := "Invalid username or password. Please try again."
  const KnownUsername := "user@example.com"
  const KnownPassword := "password123"

  /** The greeting for a signed-in user. */
  function Welcome(username: string): string {
    "Login successful! Welcome, " + username + ". (In a real app, you would be redirected.)"
  }

  /** The username as the handler uses it: the posted value, trimmed. */
  function PostedUsername(req: Request): string {
    TrimmedField(req.username)
  }

  /** The password as posted, untrimmed. */
  function PostedPassword(req: Request): string {
    Field(req.password)
  }

  /** The posted pair is the known credential, compared strictly. */
  predicate KnownCredentials(req: Request) {
    PostedUsername(req) == KnownUsername && PostedPassword(req) == KnownPassword
  }

  /** The page state after the script's validation. */
  function Handle(req: Request): (p: Page)
    ensures !IsPost(req.requestMethod) ==> p == Page("", "", "")
    ensures IsPost(req.requestMethod) ==> p.username == PostedUsername(req)
    ensures IsPost(req.requestMethod) ==> (p.errorMessage == "" <==> p.successMessage != "")
    ensures p.errorMessage == MissingError
            <==> IsPost(req.requestMethod) && (IsEmpty(PostedUsername(req)) || IsEmpty(PostedPassword(req)))
    ensures p.successMessage != "" <==> IsPost(req.requestMethod) && KnownCredentials(req)
    ensures p.successMessage != "" ==> p.successMessage == Welcome(KnownUsername)
    ensures p.errorMessage == InvalidError
            <==> IsPost(req.requestMethod) && !IsEmpty(PostedUsername(req)) && !IsEmpty(PostedPassword(req))
                 && !KnownCredentials(req)
  {
    if !IsPost(req.requestMethod) then Page("", "", "")
    else
      var username := PostedUsername(req);
      var password := PostedPassword(req);
      if IsEmpty(username) || IsEmpty(password) then
        Page(MissingError, "", username)
      else if username == KnownUsername && password == KnownPassword then
        Page("", Welcome(username), username)
      else
        Page(InvalidError, "", username)
  }

  /** The known username is accepted with whitespace around it. */
  lemma PaddedUsernameAccepted(before: string, after: string)
    requires AllTrimChars(before) && AllTrimChars(after)
    ensures Handle(Request("POST", Some(before + KnownUsername + after), Some(KnownPassword))).successMessage
            == Welcome(KnownUsername)
  {
    TrimRemovesPadding(before, KnownUsername, after);
  }

  /** The password is not trimmed: the known password with a trailing space is refused. */
  lemma PaddedPasswordRefused(username: string)
    ensures Handle(Request("POST", Some(username), Some(KnownPassword + " "))).successMessage == ""
  {
    assert |KnownPassword + " "| != |KnownPassword|;
  }
}
