/**
 * The form schemas of `src/lib/validations.ts`. Parsing a form with a schema
 * yields the list of issues it finds, field by field in the schema's order,
 * each with the field's path and the schema's message; the form is accepted
 * exactly when the list is empty. String lengths are JavaScript lengths
 * (UTF-16 code units). The e-mail and URL formats are predicates the model
 * takes as parameters.
 */
module Validations {
  import opened Wrappers
  import opened Domain
  import opened Text

  /** The form fields the schemas check. */
  datatype Path =
    | EmailPath | PasswordPath | NamePath | ConfirmPasswordPath
    | TitlePath | DescriptionPath | ColorPath | ScreenPath | TypePath | SeverityPath | StatusPath
    | RecommendationPath | FigmaUrlPath

  /** The field's key in the form object. */
  function PathName(p: Path): string {
    match p
    case EmailPath => "email"
    case PasswordPath => "password"
    case NamePath => "name"
    case ConfirmPasswordPath => "confirmPassword"
    case TitlePath => "title"
    case DescriptionPath => "description"
    case ColorPath => "color"
    case ScreenPath => "screen"
    case TypePath => "type"
    case SeverityPath => "severity"
    case StatusPath => "status"
    case RecommendationPath => "recommendation"
    case FigmaUrlPath => "figmaUrl"
  }

  /** The messages the schemas attach to their checks. */
  datatype Message =
    | InvalidEmail | ShortPassword | ShortName | PasswordsDiffer
    | ProjectTitleRequired | TitleTooLong | DescriptionRequired | DescriptionTooLong | ColorRequired
    | TitleRequired | ScreenRequired | ScreenTooLong | RecommendationRequired | RecommendationTooLong
    | InvalidUrl

  /** The text the user sees. */
  function MessageText(m: Message): string {
    match m
    case InvalidEmail => "Please enter a valid email address"
    case ShortPassword => "Password must be at least 6 characters"
    case ShortName => "Name must be at least 2 characters"
    case PasswordsDiffer => "Passwords don't match"
    case ProjectTitleRequired => "Project title is required"
    case TitleTooLong => "Title too long"
    case DescriptionRequired => "Description is required"
    case DescriptionTooLong => "Description too long"
    case ColorRequired => "Please select a color"
    case TitleRequired => "Title is required"
    case ScreenRequired => "Screen/Component is required"
    case ScreenTooLong => "Screen name too long"
    case RecommendationRequired => "Recommendation is required"
    case RecommendationTooLong => "Recommendation too long"
    case InvalidUrl => "Please enter a valid URL"
  }

  /** One problem reported by a schema: a failed check with its message, or a value outside an enumeration. */
  datatype Issue = Issue(path: Path, message: Message) | NotAnOption(path: Path)

  /** `.min(n, message)` */
  function AtLeast(path: Path, s: string, n: nat, message: Message): (r: seq<Issue>)
    ensures r == [] <==> Utf16Length(s) >= n
    ensures r != [] ==> r == [Issue(path, message)]
  {
    if Utf16Length(s) < n then [Issue(path, message)] else []
  }

  /** `.max(n, message)` */
  function AtMost(path: Path, s: string, n: nat, message: Message): (r: seq<Issue>)
    ensures r == [] <==> Utf16Length(s) <= n
    ensures r != [] ==> r == [Issue(path, message)]
  {
    if Utf16Length(s) > n then [Issue(path, message)] else []
  }

  /** A check that holds or reports `message` at `path`. */
  function Check(path: Path, ok: bool, message: Message): (r: seq<Issue>)
    ensures r == [] <==> ok
    ensures r != [] ==> r == [Issue(path, message)]
  {
    if ok then [] else [Issue(path, message)]
  }

  /** `z.enum([...])` */
  function OneOf(path: Path, ok: bool): (r: seq<Issue>)
    ensures r == [] <==> ok
    ensures r != [] ==> r == [NotAnOption(path)]
  {
    if ok then [] else [NotAnOption(path)]
  }

  /**
   * `.min(low, tooShort).max(high, tooLong)`: at most one of the two messages,
   * each exactly when its bound is broken.
   */
  function Bounded(path: Path, s: string, low: nat, high: nat, tooShort: Message, tooLong: Message): (r: seq<Issue>)
    requires low <= high && tooShort != tooLong
    ensures r == [] <==> low <= Utf16Length(s) <= high
    ensures forall x :: x in r ==> x.Issue? && x.path == path
    ensures Issue(path, tooShort) in r <==> Utf16Length(s) < low
    ensures Issue(path, tooLong) in r <==> Utf16Length(s) > high
  {
    AtLeast(path, s, low, tooShort) + AtMost(path, s, high, tooLong)
  }

  /** A text has at least one UTF-16 code unit exactly when it is not empty. */
  lemma NonEmptyLength(s: string)
    ensures Utf16Length(s) >= 1 <==> s != ""
  {
  }

  datatype LoginForm = LoginForm(email: string, password: string)

  /** `loginSchema` */
  function LoginIssues(f: LoginForm, isEmail: string -> bool): (r: seq<Issue>)
    ensures r == [] <==> isEmail(f.email) && Utf16Length(f.password) >= 6
    ensures Issue(EmailPath, InvalidEmail) in r <==> !isEmail(f.email)
    ensures Issue(PasswordPath, ShortPassword) in r <==> Utf16Length(f.password) < 6
  {
    Check(EmailPath, isEmail(f.email), InvalidEmail) + AtLeast(PasswordPath, f.password, 6, ShortPassword)
  }

  datatype SignupForm = SignupForm(name: string, email: string, password: string, confirmPassword: string)

  /**
   * `signupSchema`: the field checks, then the refinement that the two
   * passwords agree, reported on `confirmPassword`. A failed length check does
   * not stop the refinement from running.
   */
  function SignupIssues(f: SignupForm, isEmail: string -> bool): (r: seq<Issue>)
    ensures r == []
      <==> Utf16Length(f.name) >= 2 && isEmail(f.email) && Utf16Length(f.password) >= 6 && f.password == f.confirmPassword
    ensures Issue(NamePath, ShortName) in r <==> Utf16Length(f.name) < 2
    ensures Issue(EmailPath, InvalidEmail) in r <==> !isEmail(f.email)
    ensures Issue(PasswordPath, ShortPassword) in r <==> Utf16Length(f.password) < 6
    ensures Issue(ConfirmPasswordPath, PasswordsDiffer) in r <==> f.password != f.confirmPassword
  {
    AtLeast(NamePath, f.name, 2, ShortName)
    + Check(EmailPath, isEmail(f.email), InvalidEmail)
    + AtLeast(PasswordPath, f.password, 6, ShortPassword)
    + Check(ConfirmPasswordPath, f.password == f.confirmPassword, PasswordsDiffer)
  }

  /** A mismatch is the last issue, on `confirmPassword`, however the rest is filled in. */
  lemma MismatchOnConfirm(f: SignupForm, isEmail: string -> bool)
    requires f.password != f.confirmPassword
    ensures SignupIssues(f, isEmail) != []
    ensures SignupIssues(f, isEmail)[|SignupIssues(f, isEmail)| - 1] == Issue(ConfirmPasswordPath, PasswordsDiffer)
  {
  }

  datatype ProjectForm = ProjectForm(title: string, description: string, color: string)

  /** `projectSchema` */
  function ProjectIssues(f: ProjectForm): (r: seq<Issue>)
    ensures r == []
      <==> 1 <= Utf16Length(f.title) <= 100 && 1 <= Utf16Length(f.description) <= 500 && f.color != ""
    ensures Issue(TitlePath, ProjectTitleRequired) in r <==> f.title == ""
    ensures Issue(TitlePath, TitleTooLong) in r <==> Utf16Length(f.title) > 100
    ensures Issue(DescriptionPath, DescriptionRequired) in r <==> f.description == ""
    ensures Issue(DescriptionPath, DescriptionTooLong) in r <==> Utf16Length(f.description) > 500
    ensures Issue(ColorPath, ColorRequired) in r <==> f.color == ""
  {
    NonEmptyLength(f.title);
    NonEmptyLength(f.description);
    NonEmptyLength(f.color);
    Bounded(TitlePath, f.title, 1, 100, ProjectTitleRequired, TitleTooLong)
    + Bounded(DescriptionPath, f.description, 1, 500, DescriptionRequired, DescriptionTooLong)
    + AtLeast(ColorPath, f.color, 1, ColorRequired)
  }

  /** The issue form's fields, as the form holds them (the enumerations as text). */
  datatype DebtForm = DebtForm(
    title: string, screen: string, debtType: string, severity: string, status: string,
    description: string, recommendation: string, assignee: Option<string>, figmaUrl: Option<string>)

  /** The three `z.enum` checks: each text must be one of its enumeration's names. */
  function EnumIssues(debtType: string, severity: string, status: string): (r: seq<Issue>)
    ensures forall x :: x in r ==> x.NotAnOption?
    ensures NotAnOption(TypePath) in r <==> forall t :: TypeName(t) != debtType
    ensures NotAnOption(SeverityPath) in r <==> forall v :: SeverityName(v) != severity
    ensures NotAnOption(StatusPath) in r <==> forall v :: StatusName(v) != status
  {
    OneOf(TypePath, ParseType(debtType).Some?)
    + OneOf(SeverityPath, ParseSeverity(severity).Some?)
    + OneOf(StatusPath, ParseStatus(status).Some?)
  }

  /** `.url(message).optional().or(z.literal(''))`: absent, empty or a URL. */
  predicate LinkAccepted(link: Option<string>, isUrl: string -> bool) {
    link.None? || link.value == "" || isUrl(link.value)
  }

  /** The title and screen checks of `uxDebtSchema`. */
  function HeadIssues(f: DebtForm): (r: seq<Issue>)
    ensures r == [] <==> 1 <= Utf16Length(f.title) <= 200 && 1 <= Utf16Length(f.screen) <= 100
    ensures forall x :: x in r ==> x.Issue? && (x.path == TitlePath || x.path == ScreenPath)
    ensures Issue(TitlePath, TitleRequired) in r <==> f.title == ""
    ensures Issue(TitlePath, TitleTooLong) in r <==> Utf16Length(f.title) > 200
    ensures Issue(ScreenPath, ScreenRequired) in r <==> f.screen == ""
    ensures Issue(ScreenPath, ScreenTooLong) in r <==> Utf16Length(f.screen) > 100
  {
    NonEmptyLength(f.title);
    NonEmptyLength(f.screen);
    Bounded(TitlePath, f.title, 1, 200, TitleRequired, TitleTooLong)
    + Bounded(ScreenPath, f.screen, 1, 100, ScreenRequired, ScreenTooLong)
  }

  /** The description, recommendation and link checks of `uxDebtSchema`. */
  function TailIssues(f: DebtForm, isUrl: string -> bool): (r: seq<Issue>)
    ensures r == []
      <==> 1 <= Utf16Length(f.description) <= 1000 && 1 <= Utf16Length(f.recommendation) <= 1000
           && LinkAccepted(f.figmaUrl, isUrl)
    ensures forall x :: x in r ==> x.Issue? && x.path != TitlePath && x.path != ScreenPath
    ensures Issue(FigmaUrlPath, InvalidUrl) in r <==> !LinkAccepted(f.figmaUrl, isUrl)
  {
    var link := Check(FigmaUrlPath, LinkAccepted(f.figmaUrl, isUrl), InvalidUrl);
    assert forall x :: x in link ==> x == Issue(FigmaUrlPath, InvalidUrl);
    TextIssues(f) + link
  }

  /** The description and recommendation checks of `uxDebtSchema`. */
  function TextIssues(f: DebtForm): (r: seq<Issue>)
    ensures r == [] <==> 1 <= Utf16Length(f.description) <= 1000 && 1 <= Utf16Length(f.recommendation) <= 1000
    ensures forall x :: x in r ==> x.Issue? && (x.path == DescriptionPath || x.path == RecommendationPath)
  {
    Bounded(DescriptionPath, f.description, 1, 1000, DescriptionRequired, DescriptionTooLong)
    + Bounded(RecommendationPath, f.recommendation, 1, 1000, RecommendationRequired, RecommendationTooLong)
  }

  /** `uxDebtSchema`, field by field in its order; the assignee is optional and never reported. */
  function DebtIssues(f: DebtForm, isUrl: string -> bool): (r: seq<Issue>)
    ensures r == []
      <==> && 1 <= Utf16Length(f.title) <= 200 && 1 <= Utf16Length(f.screen) <= 100
           && EnumIssues(f.debtType, f.severity, f.status) == []
           && 1 <= Utf16Length(f.description) <= 1000 && 1 <= Utf16Length(f.recommendation) <= 1000
           && LinkAccepted(f.figmaUrl, isUrl)
  {
    HeadIssues(f) + EnumIssues(f.debtType, f.severity, f.status) + TailIssues(f, isUrl)
  }

  /** The enumeration issues of the whole form are those of the three `z.enum` checks. */
  lemma DebtEnumMessages(f: DebtForm, isUrl: string -> bool)
    ensures forall x: Issue :: x.NotAnOption? ==> (x in DebtIssues(f, isUrl) <==> x in EnumIssues(f.debtType, f.severity, f.status))
  {
  }

  /** The title's and the screen's messages appear exactly when their rule is broken. */
  lemma DebtMessages(f: DebtForm, isUrl: string -> bool)
    ensures Issue(TitlePath, TitleRequired) in DebtIssues(f, isUrl) <==> f.title == ""
    ensures Issue(TitlePath, TitleTooLong) in DebtIssues(f, isUrl) <==> Utf16Length(f.title) > 200
    ensures Issue(ScreenPath, ScreenRequired) in DebtIssues(f, isUrl) <==> f.screen == ""
    ensures Issue(ScreenPath, ScreenTooLong) in DebtIssues(f, isUrl) <==> Utf16Length(f.screen) > 100
  {
  }

  /** The link's message appears exactly when the link is neither absent, empty nor a URL. */
  lemma DebtLinkMessage(f: DebtForm, isUrl: string -> bool)
    ensures Issue(FigmaUrlPath, InvalidUrl) in DebtIssues(f, isUrl) <==> !LinkAccepted(f.figmaUrl, isUrl)
  {
  }

  /** An accepted form's enumeration texts are column values, so they parse back to the enumerations. */
  lemma AcceptedEnumsParse(f: DebtForm, isUrl: string -> bool)
    requires DebtIssues(f, isUrl) == []
    ensures TypeName(ParseType(f.debtType).value) == f.debtType
    ensures SeverityName(ParseSeverity(f.severity).value) == f.severity
    ensures StatusName(ParseStatus(f.status).value) == f.status
  {
    DebtEnumMessages(f, isUrl);
    assert NotAnOption(TypePath) !in DebtIssues(f, isUrl);
    assert NotAnOption(SeverityPath) !in DebtIssues(f, isUrl);
    assert NotAnOption(StatusPath) !in DebtIssues(f, isUrl);
  }

  /** A stored row's enumeration columns always pass the enumeration checks. */
  lemma RowEnumsPass(r: DebtRow)
    ensures EnumIssues(TypeName(r.debtType), SeverityName(r.severity), StatusName(r.status)) == []
  {
  }

  /**
   * The schema counts white space as content, unlike the edit dialog's
   * trimmed check: a blank but non-empty title is not reported as missing.
   */
  lemma BlankTitlePasses(f: DebtForm, isUrl: string -> bool)
    requires f.title != "" && Trim(f.title) == ""
    ensures Issue(TitlePath, TitleRequired) !in DebtIssues(f, isUrl)
  {
    DebtMessages(f, isUrl);
  }
}
