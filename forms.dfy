/**
 * What the two form handlers share: the request-method test and the two
 * ways they read a posted field.
 */
module Forms {
  import opened Wrappers
  import opened PhpStrings

  /** `$_SERVER['REQUEST_METHOD'] === 'POST'`. */
  predicate IsPost(requestMethod: string) {
    requestMethod == "POST"
  }

  /** `$_POST[key] ?? ''`, given the posted value, `None` when the field was not posted. */
  function Field(posted: Option<string>): string {
    posted.GetOr("")
  }

  /** `trim($_POST[key] ?? '')`. */
  function TrimmedField(posted: Option<string>): string {
    Trim(Field(posted))
  }
}
