# Safe Start: scam scanner, registration, community board and sign-in

Safe Start is a React front end that helps students spot fake internship
offers. This project models, in Dafny, the four page handlers that hold its
decision logic:

- **Scan wizard** (`src/pages/ScanInternship.tsx`). A four-step form: the
  offer text, the company contact, five questions each answered "Yes",
  "No" or "Not Sure", then the result.
  The analysis pushes red flags for answers that trip fixed substring rules
  and for a webmail recruiter address. It pushes a green flag for a
  professional ".com" address. It scores `min(100, 20 * #red + jitter)` and
  sorts the score into Low, Medium or High.
- **Registration** (`src/pages/Register.tsx`). Pick an account type
  (general, company, admin), then submit a form checked by an ordered chain
  of guards.
- **Community board** (`src/pages/Community.tsx`). A fixed list of scam
  reports under a case-insensitive search box, a draft form for new
  reports, and vote buttons.
- **Sign-in** (`src/pages/Login.tsx`). A non-blank check on two fields and
  a loading flag.

Modules:

- `JsStrings` (`js_strings.dfy`) models the JavaScript string built-ins the
  handlers use: `trim` with the ECMAScript whitespace and line-terminator
  set, `toLowerCase`, and `includes`.
- `Ui` (`ui.dfy`) holds the toast and navigation results and the
  subsequence relation.
- `ScanInternship`, `Register`, `Community` and `Login` hold one page each.

Page state that the handlers update is a `class` whose methods carry
`modifies` clauses. The questionnaire answers are an `array` updated in
place. The pure checks are functions, with lemmas that state what they
decide.

Some consequences of the code that the model makes explicit:

- The recruiter-email checks are case-sensitive, so "hr@Gmail.com" earns the
  "Professional email domain" green flag
  (`ScanInternship.MixedCaseWebmailLooksProfessional`).
- Answers [Yes, No, Yes, No, No] with "hr@gmail.com" raise exactly two red
  flags: "Money requested" and "Personal email domain used". Question 1's
  "No" does not fire, and question 2's "Yes" does not fire. So the score is
  40–49 and the tier is always Medium
  (`ScanInternship.MoneyAndGmailExample`).
- "Not Sure" on question 2 raises "Not found on company website", because
  "not sure" contains "no" (`ScanInternship.OptionsAgainstRules`).
- Registration never checks the company name, although the form marks it
  as required (`Register.CompanyDetailsUnchecked`).

## Model

| member | source | states |
|---|---|---|
| JsStrings.BlankIff | src/pages/Login.tsx:28 | `!s.trim()` holds exactly when `s` has no character that `trim` keeps, i.e. it is empty or whitespace-only |
| JsStrings.Trim | src/pages/Register.tsx:89 | `trim` is the leading-whitespace removal followed by the trailing-whitespace removal |
| JsStrings.IsBlank | src/pages/Register.tsx:89 | `!s.trim()`: the trimmed string is empty |
| JsStrings.BlankExamples | src/pages/Login.tsx:28 | "" and " \t\n" are blank, " a " is not |
| JsStrings.TrimStart | src/pages/Register.tsx:89 | the result is a suffix of the input, everything removed is whitespace, and the result does not start with whitespace |
| JsStrings.TrimEnd | src/pages/Register.tsx:89 | the result is a prefix of the input, everything removed is whitespace, and the result does not end with whitespace |
| JsStrings.ToLower | src/pages/Community.tsx:111 | the lower-cased string has the input's length, and each character is the input's character lower-cased |
| JsStrings.ToLowerIdempotent | src/pages/Community.tsx:111-113 | lower-casing twice is the same as lower-casing once |
| JsStrings.Includes | src/pages/ScanInternship.tsx:56 | `s.includes(t)`: `t` occurs in `s` at some index |
| JsStrings.IncludesTransitive | src/pages/Community.tsx:111-113 | a string that contains `u` contains every substring of `u` |
| JsStrings.MissingCharExcludes | src/pages/ScanInternship.tsx:56-70 | a string that lacks one of `t`'s characters does not include `t` |
| Ui.SubsequenceElements | src/pages/Community.tsx:110 | a subsequence is no longer than its source, and its elements come from the source |
| ScanInternship.MessagesDistinct | src/pages/ScanInternship.tsx:57-75 | distinct flags push distinct message strings, so a flag value stands for exactly one message |
| ScanInternship.QuestionFlag | src/pages/ScanInternship.tsx:56-70 | question k's flag is the k-th entry of the fixed red-flag order, and distinct questions have distinct flags |
| ScanInternship.Tripped | src/pages/ScanInternship.tsx:56-70 | entry k says whether question k's rule fires: the lower-cased answer contains "no" for question 2 and "yes" for the others |
| ScanInternship.CheckAnswer | src/pages/ScanInternship.tsx:56-70 | one question's check appends that question's flag exactly when its rule fires |
| ScanInternship.FiveChecks | src/pages/ScanInternship.tsx:56-70 | the five checks, each appending its question's piece in turn, leave exactly the flags of all five questions |
| ScanInternship.CheckQuestions | src/pages/ScanInternship.tsx:53-70 | the five questionnaire checks, run from no flags, push exactly the questionnaire's flags in question order |
| ScanInternship.CheckEmail | src/pages/ScanInternship.tsx:72-76 | the webmail test appends the red flag; only when it fails can the green test append the professional flag |
| ScanInternship.CollectFlags | src/pages/ScanInternship.tsx:53-76 | the pushed red flags are the questionnaire's flags in question order, then the webmail flag; the green flag comes from the email check |
| ScanInternship.QuestionFlagsUnrolled | src/pages/ScanInternship.tsx:56-70 | the questionnaire's flags are the five per-question pieces joined in order |
| ScanInternship.QuestionFlagsRange | src/pages/ScanInternship.tsx:56-70 | questions k..4 raise at most 5-k flags, and only flags that belong to those questions |
| ScanInternship.QuestionFlagsOrdered | src/pages/ScanInternship.tsx:53-76 | the flags of questions k..4, followed by the email's red flag when it is raised, keep the fixed order from position k on |
| ScanInternship.FlagCounts | src/pages/ScanInternship.tsx:53-76 | an analysis raises at most six red flags and at most one green flag |
| ScanInternship.RedFlagsInOrder | src/pages/ScanInternship.tsx:53-76 | the red flags are a subsequence of the fixed order: questions 0 to 4, then the email |
| ScanInternship.QuestionFlagIffFrom | src/pages/ScanInternship.tsx:56-70 | question k's flag is among questions m..4's flags exactly when m <= k and k's rule fires |
| ScanInternship.QuestionFlagsIff | src/pages/ScanInternship.tsx:56-70 | each question's flag is among the questionnaire's flags exactly when its rule fires |
| ScanInternship.EmailRaisesRedFlag | src/pages/ScanInternship.tsx:72 | the email contains "@gmail.com" or "@yahoo.com", compared case-sensitively |
| ScanInternship.EmailRaisesGreenFlag | src/pages/ScanInternship.tsx:74 | the red email check failed, and the email contains ".com" but not "gmail" |
| ScanInternship.RedFlags | src/pages/ScanInternship.tsx:53-73 | question k's flag is raised exactly when its rule fires on answer k, and the webmail flag exactly when the red email check fires |
| ScanInternship.GreenFlags | src/pages/ScanInternship.tsx:74-76 | the green flags are empty or just "Professional email domain", which is raised exactly when the green email check fires |
| ScanInternship.EmailFlags | src/pages/ScanInternship.tsx:72-76 | the webmail red flag is raised exactly on "@gmail.com" or "@yahoo.com"; otherwise the green flag is raised exactly on ".com" without "gmail"; the two never occur together |
| ScanInternship.MixedCaseWebmailLooksProfessional | src/pages/ScanInternship.tsx:72-76 | the email checks are case-sensitive: "hr@Gmail.com" raises no red flag and does raise the green flag |
| ScanInternship.RiskScore | src/pages/ScanInternship.tsx:78 | the score is at most 100; it is 100 from five red flags on, and otherwise between 20·n and 20·n+9 |
| ScanInternship.ScoreAndTier | src/pages/ScanInternship.tsx:78-88 | computes the capped score and the tier and colour that go with it: above 60 High (red), above 30 Medium (orange), otherwise Low (green) |
| ScanInternship.Tier | src/pages/ScanInternship.tsx:80-88 | High exactly above 60, Medium exactly in 31..60, Low exactly at 30 or below |
| ScanInternship.LevelNamesDistinct | src/pages/ScanInternship.tsx:80-87 | the three tier names "Low", "Medium" and "High" are distinct |
| ScanInternship.TierMonotone | src/pages/ScanInternship.tsx:80-88 | a higher score never gets a lower tier |
| ScanInternship.TierByRedCount | src/pages/ScanInternship.tsx:78-88 | for every jitter, 0 or 1 red flags give Low, 2 give Medium, 3 give Medium exactly when the jitter is 0 (High otherwise), and 4 or more give High |
| ScanInternship.Assess | src/pages/ScanInternship.tsx:52-100 | every result has a score in 0..100, at most six red flags in the fixed order, at most one green flag and never with the webmail flag, the tier and colour of its score, and counters in range |
| ScanInternship.PerformScamAnalysis | src/pages/ScanInternship.tsx:52-100 | the analysis result is the assessment of the answers, the email and the random draws, and it is consistent |
| ScanInternship.YesOption | src/pages/ScanInternship.tsx:310 | the "Yes" option contains "yes" and not "no" once lower-cased |
| ScanInternship.NoOption | src/pages/ScanInternship.tsx:310 | the "No" option contains "no" and not "yes" once lower-cased |
| ScanInternship.NotSureOption | src/pages/ScanInternship.tsx:310 | the "Not Sure" option contains "no" and not "yes" once lower-cased |
| ScanInternship.OptionsAgainstRules | src/pages/ScanInternship.tsx:56-70 | with the three radio options, questions 0, 1, 3 and 4 fire only on "Yes"; question 2 fires on "No" and on "Not Sure" |
| ScanInternship.AllRiskyAnswersAreHigh | src/pages/ScanInternship.tsx:53-88 | the risky answer to every question scores 100 and is High, whatever the email |
| ScanInternship.SafeAnswersAreLow | src/pages/ScanInternship.tsx:53-88 | the safe answer to every question, with a non-webmail address, raises no red flag, scores below 10 and is Low |
| ScanInternship.MoneyAndGmailExample | src/pages/ScanInternship.tsx:53-88 | [Yes, No, Yes, No, No] with "hr@gmail.com" raises the money flag and the webmail flag only, so it scores 40–49 and is Medium |
| ScanInternship.ScanWizard.constructor | src/pages/ScanInternship.tsx:16-32 | the wizard starts on step 1 with an empty form, five empty answers and no result |
| ScanInternship.ScanWizard.HandleInputChange | src/pages/ScanInternship.tsx:34-36 | one form field takes the raw value and the others keep theirs |
| ScanInternship.ScanWizard.HandleAIQuestionAnswer | src/pages/ScanInternship.tsx:46-50 | only answer `index` changes |
| ScanInternship.ScanWizard.HandleNext | src/pages/ScanInternship.tsx:102-127 | step 1 advances only with non-blank offer text; step 2 only with non-blank company name and recruiter email; step 3 only with all five answers non-blank, and then it stores the analysis and moves to step 4; step 4 stays; a failed gate raises its error toast and changes nothing; the step stays in 1..4 |
| ScanInternship.ScanWizard.HandleBack | src/pages/ScanInternship.tsx:129-135 | the step goes down by one above step 1; on step 1 it stays and the page goes home |
| ScanInternship.ScanWizard.RestartScan | src/pages/ScanInternship.tsx:137-148 | back to step 1 with an empty form and no result; the questionnaire answers are left as they were |
| Register.Validate | src/pages/Register.tsx:87-113 | a submission is accepted exactly when name, email and password are non-blank, the password equals its confirmation, a company account's email has an '@', and an admin account's code is "SAFESTART2024"; a rejection carries one of the four error messages |
| Register.IncludesCharIff | src/pages/Register.tsx:99 | `includes` of a one-character string is membership of that character |
| Register.RequiredFieldsFirst | src/pages/Register.tsx:89-92 | a blank name, email or password is the error reported, whatever else is wrong |
| Register.MismatchBeforeAccountChecks | src/pages/Register.tsx:94-97 | with the required fields filled in, a password mismatch is reported before any account-type check |
| Register.AcceptedConfirmationFilled | src/pages/Register.tsx:89-97 | an accepted form has a non-blank password confirmation |
| Register.PasswordComparedUntrimmed | src/pages/Register.tsx:94-97 | a confirmation that differs from the password by a trailing space is refused, and the exact password is accepted |
| Register.CompanyEmailNeedsAt | src/pages/Register.tsx:99-102 | past the common checks, a company account is accepted exactly when its company email contains '@' |
| Register.AdminCodeExact | src/pages/Register.tsx:104-107 | past the common checks, an admin account is accepted exactly with the code "SAFESTART2024" |
| Register.GeneralAcceptedIff | src/pages/Register.tsx:87-113 | a general account is accepted exactly when the two common checks pass |
| Register.CompanyDetailsUnchecked | src/pages/Register.tsx:87-113 | the company name, website, registration and job title never change the outcome |
| Register.RegisterPage.constructor | src/pages/Register.tsx:16-31 | the page starts on step 1 with no account type and an empty form |
| Register.RegisterPage.HandleInputChange | src/pages/Register.tsx:78-80 | one form field takes the raw value and the others keep theirs |
| Register.RegisterPage.HandleAccountTypeSelect | src/pages/Register.tsx:82-85 | the chosen type is stored and the page moves to step 2 |
| Register.RegisterPage.GoBack | src/pages/Register.tsx:115-121 | from step 2 back to step 1; on step 1 the step stays and the page goes home |
| Register.RegisterPage.HandleSubmit | src/pages/Register.tsx:87-113 | a rejected form raises its error toast and stays; an accepted one raises the success toast and goes to the dashboard |
| Community.MatchesSearch | src/pages/Community.tsx:111-113 | the lower-cased term occurs in the lower-cased title, company or description |
| Community.FilterReports | src/pages/Community.tsx:110-114 | the kept reports are an order-preserving subsequence of the reports; a report is kept exactly when its lower-cased title, company or description contains the lower-cased term, and then as many times as it occurs in the input |
| Community.FilterNeverGrows | src/pages/Community.tsx:110-114 | the filtered list is never longer than the board's and holds only reports on the board |
| Community.EmptySearchKeepsAll | src/pages/Community.tsx:110-114 | an empty search term keeps every report |
| Community.SearchIgnoresEmailAndType | src/pages/Community.tsx:110-114 | a report's recruiter email and scam type never affect whether it matches |
| Community.SearchIsCaseInsensitive | src/pages/Community.tsx:110-114 | searching for the lower-cased term gives the same list as the term itself |
| Community.NarrowingSearch | src/pages/Community.tsx:110-114 | every report kept for a term is also kept for any part of that term |
| Community.CommunityPage.constructor | src/pages/Community.tsx:14-71 | the page starts with the three fixed reports, an empty search, the form closed and an empty draft of type "money-request" |
| Community.CommunityPage.FilteredReports | src/pages/Community.tsx:110-114 | the rendered list is the page's reports that match the current search term, in their order and with their multiplicity |
| Community.CommunityPage.SetSearchTerm | src/pages/Community.tsx:228-229 | the search box stores the raw value |
| Community.CommunityPage.OpenReportForm | src/pages/Community.tsx:141 | opens the form and keeps the draft |
| Community.CommunityPage.CancelReportForm | src/pages/Community.tsx:462 | closes the form and keeps the draft |
| Community.CommunityPage.EditDraft | src/pages/Community.tsx:404-443 | one draft field takes the raw value and the others keep theirs |
| Community.CommunityPage.HandleReportSubmit | src/pages/Community.tsx:89-104 | a blank title or description raises the error toast and changes nothing; otherwise the form closes and the draft resets to empty with type "money-request"; the company, email and type are never checked |
| Community.CommunityPage.HandleVote | src/pages/Community.tsx:106-108 | a vote only raises "Vote up recorded!" or "Vote down recorded!"; no report changes |
| Login.CanSubmit | src/pages/Login.tsx:28-31 | submission may go ahead exactly when both email and password hold a character that `trim` keeps |
| Login.WhitespaceOnlyRefused | src/pages/Login.tsx:28-31 | an email or password made only of whitespace is refused |
| Login.PaddedInputAccepted | src/pages/Login.tsx:21-28 | surrounding spaces do not make an acceptable email unacceptable, because only the check trims |
| Login.LoginPage.constructor | src/pages/Login.tsx:15-19 | the page starts with an empty form and not loading |
| Login.LoginPage.HandleInputChange | src/pages/Login.tsx:21-23 | a field stores the raw, untrimmed value |
| Login.LoginPage.HandleSubmit | src/pages/Login.tsx:25-34 | a blank field raises the error toast and leaves the loading flag unchanged; otherwise loading starts |
| Login.LoginPage.CompleteLogin | src/pages/Login.tsx:36-40 | the delayed completion clears the loading flag, raises the welcome toast and goes to the dashboard |
| Login.SubmitThenComplete | src/pages/Login.tsx:33-40 | an accepted submission sets the loading flag, and its completion clears it again |

## Left out

- `Math.random`: the jitter, the two counters (`communityReports`, `similarScams`) and `companyVerified` are a `Draws` parameter; the jitter and the counters have the ranges that `Math.floor(Math.random() * n)` yields, and `companyVerified` is a free boolean.
- `setTimeout`: each delayed callback is one atomic transition. The scan's analysis happens inside `HandleNext`; the sign-in completion is `CompleteLogin`; registration's delayed navigation is the `navigateTo` result. Clicks made while a timer is pending are not modelled.
- Toasts and `navigate` calls are return values (`Toast`, `Option<string>`), not effects.
- The offer-letter file upload (`handleFileUpload`) and the `offerLetter` form field are browser I/O and are not part of this model.
- JSX rendering, CSS classes other than the risk colour, progress-bar percentages, the community tabs (`activeTab`), the leaderboard and the scam-type statistics are presentation only.
- The analysis result holds `Flag` and `RiskLevel` values where the page stores the message and tier strings. `Message` and `LevelName` give the strings, and `MessagesDistinct` and `LevelNamesDistinct` show the mapping loses nothing. The question prompt texts are display only.
- JavaScript strings are sequences of UTF-16 code units. Here they are Dafny strings of characters, so surrogate pairs and code-unit indexing are not modelled.
- JsStrings.ToLower: maps only the ASCII letters A–Z; the full Unicode case mapping of `toLowerCase` is not modelled.
- The other pages and components (Dashboard, About, Index, Navbar, PageHeader, Layout, Footer) hold only static data and routing and are not part of this model.
- Login's submit button is disabled while loading; the model lets `HandleSubmit` run in any state, as the handler itself has no guard.
