# School report portal: score evaluators and form validators

This project models the decision logic of a small PHP school-report portal.
Its users submit subject scores; each score is a continuous-assessment mark
(`ca`, out of 30), a `test` mark (out of 20) and an `exam` mark (out of 50).
A report page turns a stored report into per-subject totals, percentages and
letter grades, an overall percentage and an overall status. The portal
contains three diverging copies of that score evaluator, and each is modelled
as written:

- `MysqlService` (`mysql_service.php`, `calculate_results`). It gives a
  'No Data' result when the results payload is not an array. A missing
  component counts as 0. The overall percentage is the summed totals over the
  summed maxima (100 per subject), times 100. The status has three tiers:
  Excellent, Pass and Fail.
- `InsertView` (`resources/views/insert.blade.php`, `getLetterGrade` and
  `calculate_results`). It copies the student details and has no guard for a
  non-array payload. The overall figure is the plain mean of the totals, and
  the status is binary: PROMOTED at 65 or more, REFERRED below.
- `WelcomeView` (`resources/views/welcome.blade.php`, `getLetterGrade` and
  `calculateResults`). It takes the entries directly and keeps per-subject
  percentages numeric. It uses the same binary status.

`CrossCopy` proves what the three copies share. They give the same totals and
grades, the same subject count and the same overall percentage, which is the
mean subject total. It also proves where they differ: the status tiers, and
the result for a non-array payload.

The two form handlers are modelled as functions from a request to the page
state the script leaves behind:

- `Signup` (`signup.php`): the registration checks. The username is trimmed.
  The checks run in order: all fields present, then the passwords match, then
  the password is at least 8 bytes. Only the first failure is reported.
- `Login` (`resources/views/login.blade.php`): both fields are required, then
  one hard-coded credential pair is accepted.

`Forms` holds what both handlers share: the POST test and the two ways they
read a posted field, `$_POST[key] ?? ''` as posted or trimmed. Each handler's
request carries the fields that form posts, `None` for a field not posted.

`PhpStrings` models PHP's `trim` (default character list) and `empty` on
strings. `Scores` holds the shared data model: entries, letters, the grading
scale, and the sum and mean of the totals.

Modelling choices:

- Percentages are exact `real`s, and PHP's floating point is not modelled.
- `Pct.Formatted(x)` stands for the text `number_format(x, 2)` produces.
- A PHP string is a byte string, and one `char` here stands for one byte.
- The decoded `results_json` payload is `Option<seq<Entry>>`. `None` means it
  did not decode to a PHP array.

Three behaviours of the code worth knowing:

- With an empty JSON list, the database-backed copy gives zero subjects, an
  overall of 0 and the status 'Fail'. It does not give 'No Data'.
  `CrossCopy.EmptyListIsFail` proves this.
- Its "divide by 100 per subject, then multiply by 100" formula is exactly the
  mean of the totals. `MysqlService.ScaledShareIsMean` proves this.
- The entry page's copy has no 'No Data' case. A non-array payload gives zero
  subjects and REFERRED. `CrossCopy.NonArrayPayloadDiverges` proves this.

## Model

| member | source | states |
|---|---|---|
| `Scores.BestLetterIsMaximal` | resources/views/welcome.blade.php:325-330 | a best letter is earned by the percentage and no higher letter on the grading key is |
| `Scores.BestLetterUnique` | resources/views/welcome.blade.php:325-330 | the grading key gives at most one best letter for any percentage |
| `Scores.BestLetterMonotone` | resources/views/insert.blade.php:35-41 | a higher percentage never gets a worse letter |
| `Scores.TotalWithinHundred` | resources/views/insert.blade.php:391-397 | an entry within the form's caps (CA 0-30, test 0-20, exam 0-50) totals 0 to 100 |
| `Scores.SumTotalsBounds` | mysql_service.php:114-115 | within the caps, the summed totals are at most the summed maxima of 100 per subject |
| `Scores.MeanBounds` | mysql_service.php:118-121 | within the caps, the overall percentage lies between 0 and 100 |
| `Scores.FullMarksSum` | mysql_service.php:114-115 | subjects that all total 100 sum to 100 per subject |
| `Scores.FullMarksMean` | mysql_service.php:118-121 | subjects that all total 100 have a mean of exactly 100 |
| `MysqlService.SubjectPercentage` | mysql_service.php:93 | `(total / 100.0) * 100` equals the total |
| `MysqlService.SubjectGrade` | mysql_service.php:95-106 | the letter is the best one the percentage earns on the 90/80/70/60 scale |
| `MysqlService.ProcessEntry` | mysql_service.php:92-112 | the merged entry keeps subject and components, and sets `total` to ca+test+exam (missing as 0), the percentage to the formatted total, and the best letter |
| `MysqlService.OverallStanding` | mysql_service.php:125-133 | Excellent iff the overall is at least 90, Pass iff 65 to 90, Fail iff below 65; the colour is green, indigo or red to match |
| `MysqlService.ScaledShareIsMean` | mysql_service.php:121 | summed totals over 100 per subject, times 100, equals the mean total |
| `MysqlService.Evaluate` | mysql_service.php:79-143 | `studentData` is the report unchanged; a non-array payload gives no entries, 0 subjects, 0.00 and 'No Data' in grey; otherwise the entries are processed in order, one per input, `totalSubjects` is their count, the overall is the formatted mean and the status follows `OverallStanding` of the mean |
| `MysqlService.CalculateResults` | mysql_service.php:79-143 | the accumulating loop returns exactly `Evaluate(report)` |
| `InsertView.GetLetterGrade` | resources/views/insert.blade.php:35-41 | the letter is the best one the percentage earns on the 90/80/70/60 scale |
| `InsertView.ProcessEntry` | resources/views/insert.blade.php:56-64 | the rewritten entry keeps subject and components, and sets `total` to ca+test+exam, the percentage to the formatted total, and the best letter for the total |
| `InsertView.Evaluate` | resources/views/insert.blade.php:43-81 | the student details are copied and the photo defaults to ''; a non-array payload gives 0 subjects; entries are processed in order, the overall is the formatted mean (0 for none), PROMOTED iff the mean is at least 65, else REFERRED, indigo or red to match |
| `InsertView.CalculateResults` | resources/views/insert.blade.php:43-81 | the rewriting loop returns exactly `Evaluate(report)` |
| `InsertView.MockRowsSum` | resources/views/insert.blade.php:24-31 | the mock rows' totals sum to 501 |
| `InsertView.MockReportRecomputes` | resources/views/insert.blade.php:17-31 | the mock rows recompute to their stored totals, percentages and grades (92 A, 88 B, 95 A, 55 F, 73 C, 98 A); the average is 83.5 and the status PROMOTED |
| `WelcomeView.GetLetterGrade` | resources/views/welcome.blade.php:30-36 | the letter is the best one the percentage earns on the 90/80/70/60 scale |
| `WelcomeView.ProcessEntry` | resources/views/welcome.blade.php:53-61 | the rewritten entry keeps subject and components, and sets `total` to ca+test+exam, a numeric percentage equal to the total, and the best letter |
| `WelcomeView.Evaluate` | resources/views/welcome.blade.php:46-80 | `total_subjects` is the input count and the number of processed entries; entries are processed in order; the overall is the formatted mean (0 for none); PROMOTED iff the mean is at least 65, else REFERRED, indigo or red to match |
| `WelcomeView.CalculateResults` | resources/views/welcome.blade.php:46-80 | counting first and then looping returns exactly `Evaluate(results)` |
| `WelcomeView.SampleResultsSum` | resources/views/welcome.blade.php:14-21 | the sample totals sum to 501 |
| `WelcomeView.SampleResultsReport` | resources/views/welcome.blade.php:14-21 | the sample subjects total 92, 88, 95, 55, 73, 98 with grades A, B, A, F, C, A as the comments say; six subjects, average 83.5, PROMOTED |
| `CrossCopy.SameLetterGrade` | resources/views/insert.blade.php:35-41 | the three copies choose the same letter for every percentage |
| `CrossCopy.SameProcessedEntry` | mysql_service.php:92-112 | the database-backed and entry-page copies process an entry identically; the sample page differs only in keeping the percentage numeric |
| `CrossCopy.SameOverall` | mysql_service.php:118-122 | for an array payload all three copies report the same count and the same formatted overall, the mean total |
| `CrossCopy.SameProcessedResults` | mysql_service.php:90-116 | for an array payload the database-backed and entry-page copies produce the same processed entries |
| `CrossCopy.SamePassMark` | mysql_service.php:125-133 | for an array payload, Fail iff REFERRED, Excellent or Pass iff PROMOTED, and both binary copies agree |
| `CrossCopy.PoliciesDifferAtTopTier` | mysql_service.php:125-133 | a mean of 90 or more is Excellent in green versus PROMOTED in indigo; 65 to 90 is Pass, with the same indigo |
| `CrossCopy.NonArrayPayloadDiverges` | mysql_service.php:81-84 | a non-array payload is 'No Data' with 0.00 on the database-backed page but REFERRED with a formatted 0 on the entry page |
| `CrossCopy.EmptyListIsFail` | mysql_service.php:118-133 | an empty list payload gives 0 subjects, overall 0 and Fail, not 'No Data' |
| `CrossCopy.FullMarksTopTier` | mysql_service.php:114-133 | subjects all totalling 100 give an overall of 100: Excellent and PROMOTED |
| `PhpStrings.TrimStart` | signup.php:9 | the result is a suffix of the input, the removed prefix is all trim bytes, and it does not start with one |
| `PhpStrings.TrimEnd` | signup.php:9 | the result is a prefix of the input, the removed suffix is all trim bytes, and it does not end with one |
| `PhpStrings.Trim` | signup.php:9 | the result neither begins nor ends with a trim byte and is no longer than the input |
| `PhpStrings.TrimStartSkips` | signup.php:9 | leading trim bytes do not change what remains after the leading strip |
| `PhpStrings.TrimEndSkips` | signup.php:9 | trailing trim bytes do not change what remains after the trailing strip |
| `PhpStrings.TrimKeepsTrimmed` | signup.php:9 | text without leading or trailing trim bytes is unchanged |
| `PhpStrings.TrimRemovesPadding` | signup.php:9 | trimming padded text gives exactly the text |
| `PhpStrings.TrimIdempotent` | signup.php:9 | trimming twice is trimming once |
| `Signup.Handle` | signup.php:3-38 | non-POST leaves all three values ''; on POST exactly one message is set; required error iff a field is `empty`; mismatch error iff filled and unequal; length error iff filled, equal and under 8 bytes; success iff all pass, and then the username is cleared; on error the trimmed username is kept |
| `Signup.WeakOrMismatchedPasswordRejected` | signup.php:14-24 | a mismatched or short password is never accepted, whatever the username |
| `Signup.ZeroUsernameIsMissing` | signup.php:14-15 | the username "0" counts as missing even with a valid password |
| `Signup.UsernamePaddingIgnored` | signup.php:9-36 | whitespace around the username does not change the outcome |
| `Signup.TrimmedUsernameSuffices` | signup.php:9-36 | posting the username already trimmed gives the same outcome as posting it as typed |
| `Signup.SamePostedValues` | signup.php:8-38 | the outcome depends only on the method and the trimmed username, password and confirmation |
| `Signup.PasswordNotTrimmed` | signup.php:10-19 | the password is compared as posted, so a trailing space is a mismatch |
| `Login.Handle` | resources/views/login.blade.php:3-30 | non-POST sets no message and the form (line 94) echoes an empty username; on POST exactly one message is set and the form echoes the trimmed username, on success too; the missing-field error iff either field is `empty`; success iff the trimmed username is user@example.com and the password is password123, with a welcome naming that user; otherwise the invalid-credentials error |
| `Login.PaddedUsernameAccepted` | resources/views/login.blade.php:8-24 | the known username padded with whitespace is still accepted |
| `Login.PaddedPasswordRefused` | resources/views/login.blade.php:9-27 | the known password with a trailing space is refused |

## Left out

- json_decode: the decoded payload is an input (`RawReport.results`). A JSON object decodes to a PHP array and is iterated by value; `Some(entries)` stands for its values in order.
- Floating point: percentages and averages are exact reals. PHP computes `(total / 100.0) * 100` and the overall figure in doubles, whose last bit can differ from the exact value.
- Number and date formatting: `number_format` is the `Formatted` tag, not a string. `date` and `strtotime` become a parameter (`MockReport(today)`).
- The `id` and `timestamp` columns of a stored row are not fields of `RawReport`. The database-backed copy passes the whole row through unchanged, and the model states that for the fields it has.
- Entry keys other than `subject`, `ca`, `test`, `exam`, `total`, `percentage` and `grade` are not represented. Component values other than integers or absent ones are not represented, and neither are stored grades other than the five letters.
- List items that are not JSON objects are not represented. On an item such as `5` or `"x"`, `array_merge` (mysql_service.php:108) or `$item[...] =` (insert.blade.php:61) raises a fatal error, and on the entry page a `null` item becomes an empty entry. Every `Entry` is a record.
- Totals beyond PHP's integer range are not represented: there PHP turns the sum into a float, while `int` here is unbounded.
- PHP warnings: the entry and sample pages read a missing component or a missing report key with a warning. The model counts a missing component as 0, the value PHP then uses.
- Database access (`connect_db`, `initialize_db`, `get_latest_report`): MySQL I/O and SQL text. Also the entry page's mock `connect_db`, whose mock report is used only as a test vector.
- HTML rendering (`render_db_error`, `render_report`, every template body), `htmlspecialchars`, photo upload, routing (routes/web.php) and the static home page: presentation, with no decisions to model.
- Array-valued form fields (`username[]=...`), which make `trim` raise an error: out of scope for a string model.
