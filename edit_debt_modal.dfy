/**
 * The issue edit dialog (`src/components/EditDebtModal.tsx`): a form
 * initialised from the issue, edited one field at a time, valid when its four
 * required texts are non-blank, and submitted as a trimmed partial update to
 * the store's `updateUXDebt`.
 */
module EditDebtModal {
  import opened Wrappers
  import opened Domain
  import opened Js
  import opened Text
  import opened ProjectStore

  /** The dialog's `formData`: every field is the text its input shows. */
  datatype FormData = FormData(
    title: string, screen: string, debtType: string, severity: string, status: string,
    description: string, recommendation: string, figmaUrl: string, assignee: string)

  /** The keys `handleInputChange` is called with, one per input. */
  datatype FormField =
    | TitleField | ScreenField | TypeField | SeverityField | StatusField
    | DescriptionField | RecommendationField | FigmaUrlField | AssigneeField

  /** `formData[field]` */
  function Read(f: FormData, field: FormField): string {
    match field
    case TitleField => f.title
    case ScreenField => f.screen
    case TypeField => f.debtType
    case SeverityField => f.severity
    case StatusField => f.status
    case DescriptionField => f.description
    case RecommendationField => f.recommendation
    case FigmaUrlField => f.figmaUrl
    case AssigneeField => f.assignee
  }

  /** `{ ...prev, [field]: value }`: the one field takes the value, every other keeps its own. */
  function With(f: FormData, field: FormField, v: string): (r: FormData)
    ensures Read(r, field) == v
    ensures forall g :: g != field ==> Read(r, g) == Read(f, g)
  {
    match field
    case TitleField => f.(title := v)
    case ScreenField => f.(screen := v)
    case TypeField => f.(debtType := v)
    case SeverityField => f.(severity := v)
    case StatusField => f.(status := v)
    case DescriptionField => f.(description := v)
    case RecommendationField => f.(recommendation := v)
    case FigmaUrlField => f.(figmaUrl := v)
    case AssigneeField => f.(assignee := v)
  }

  /**
   * The initial `formData`: the issue's columns as text; a missing (or empty)
   * Figma link or assignee shows as the empty string.
   */
  function Initial(debt: UXDebt): (r: FormData)
    ensures r.title == debt.row.title && r.screen == debt.row.screen
    ensures r.description == debt.row.description && r.recommendation == debt.row.recommendation
    ensures ParseType(r.debtType) == Some(debt.row.debtType)
    ensures ParseSeverity(r.severity) == Some(debt.row.severity)
    ensures ParseStatus(r.status) == Some(debt.row.status)
    ensures r.figmaUrl == "" <==> debt.row.figma_url.None? || debt.row.figma_url == Some("")
    ensures r.assignee == "" <==> debt.row.assignee.None? || debt.row.assignee == Some("")
    ensures r.figmaUrl != "" ==> debt.row.figma_url == Some(r.figmaUrl)
    ensures r.assignee != "" ==> debt.row.assignee == Some(r.assignee)
  {
    FormData(debt.row.title, debt.row.screen, TypeName(debt.row.debtType), SeverityName(debt.row.severity),
      StatusName(debt.row.status), debt.row.description, debt.row.recommendation,
      debt.row.figma_url.GetOr(""), debt.row.assignee.GetOr(""))
  }

  /** The text has a character that is not white space. */
  predicate HasText(s: string) {
    exists k :: 0 <= k < |s| && !IsSpace(s[k])
  }

  /** `isFormValid`: the trimmed title, screen, description and recommendation are all non-empty. */
  predicate IsFormValid(f: FormData) {
    Trim(f.title) != "" && Trim(f.screen) != "" && Trim(f.description) != "" && Trim(f.recommendation) != ""
  }

  /** The form is valid exactly when each required text has a non-space character. */
  lemma FormValidIff(f: FormData)
    ensures IsFormValid(f)
      <==> HasText(f.title) && HasText(f.screen) && HasText(f.description) && HasText(f.recommendation)
  {
    TrimEmptyIffAllSpace(f.title);
    TrimEmptyIffAllSpace(f.screen);
    TrimEmptyIffAllSpace(f.description);
    TrimEmptyIffAllSpace(f.recommendation);
  }

  /** `s || undefined` for a string `s`. */
  function OrUndefined(s: string): (v: Value)
    ensures v.Undefined? <==> s == ""
    ensures v.Str? ==> v.s == s
  {
    if s == "" then Undefined else Str(s)
  }

  /** The column an optional text of the form becomes: set to the trimmed text, or left out. */
  function OptionalColumn(s: string): (r: Option<Value>)
    ensures r.None? <==> !HasText(s)
    ensures r.Some? ==> r.value == Str(Trim(s))
  {
    TrimEmptyIffAllSpace(s);
    if Trim(s) == "" then None else Some(Str(Trim(s)))
  }

  /** The values `handleSubmit` sends, once trimmed. */
  datatype Cleaned = Cleaned(
    title: string, screen: string, debtType: string, severity: string, status: string,
    description: string, recommendation: string, assignee: Value, figmaUrl: Value)

  /** Every text trimmed; a blank assignee or Figma link becomes `undefined`. */
  function Clean(f: FormData): Cleaned {
    Cleaned(Trim(f.title), Trim(f.screen), f.debtType, f.severity, f.status,
      Trim(f.description), Trim(f.recommendation), OrUndefined(Trim(f.assignee)), OrUndefined(Trim(f.figmaUrl)))
  }

  /** The object literal of `handleSubmit`, with the Figma link under the key `figmaKey`. */
  function PayloadOf(v: Cleaned, figmaKey: string): map<string, Value> {
    map[
      "title" := Str(v.title), "screen" := Str(v.screen),
      "type" := Str(v.debtType), "severity" := Str(v.severity), "status" := Str(v.status),
      "description" := Str(v.description), "recommendation" := Str(v.recommendation),
      "assignee" := v.assignee, figmaKey := v.figmaUrl]
  }

  /** The object passed to `updateUXDebt`, with the Figma link under the key the store reads. */
  function SubmitPayload(f: FormData): map<string, Value> {
    PayloadOf(Clean(f), "figmaUrl")
  }

  /** The object as the dialog writes it: the Figma link goes under `figma_url`. */
  function SubmitPayloadAsWritten(f: FormData): map<string, Value> {
    PayloadOf(Clean(f), "figma_url")
  }

  /** A value as a patch column: left out when undefined. */
  function PatchValue(x: Value): Option<Value> {
    if x.Undefined? then None else Some(x)
  }

  /** The patch a cleaned object with either key produces. */
  lemma PatchOf(v: Cleaned, figmaKey: string, now: string)
    requires figmaKey == "figmaUrl" || figmaKey == "figma_url"
    ensures UpdatePatch(PayloadOf(v, figmaKey), now) == DebtColumns(
      None, Some(Str(v.title)), Some(Str(v.screen)), Some(Str(v.debtType)),
      Some(Str(v.severity)), Some(Str(v.status)), PatchValue(v.assignee), None,
      Some(Str(v.description)), Some(Str(v.recommendation)),
      if figmaKey == "figmaUrl" then PatchValue(v.figmaUrl) else None,
      None, Some(Str(now)))
  {
  }

  /**
   * The patch of the corrected payload, with the Figma link under the key the
   * store reads: the time stamp, every text trimmed, the enum texts as chosen,
   * and the assignee and Figma link only when non-blank; the project id,
   * author and screenshot are never touched.
   */
  lemma SubmittedPatch(f: FormData, now: string)
    ensures UpdatePatch(SubmitPayload(f), now) == DebtColumns(
      None, Some(Str(Trim(f.title))), Some(Str(Trim(f.screen))), Some(Str(f.debtType)),
      Some(Str(f.severity)), Some(Str(f.status)), OptionalColumn(f.assignee), None,
      Some(Str(Trim(f.description))), Some(Str(Trim(f.recommendation))), OptionalColumn(f.figmaUrl),
      None, Some(Str(now)))
  {
    PatchOf(Clean(f), "figmaUrl", now);
  }

  /**
   * The patch the dialog's submit produces as written: the time stamp, every
   * text trimmed, the enum texts as chosen and the assignee only when
   * non-blank; the Figma link column, like the project id, author and
   * screenshot, is never touched.
   */
  lemma SubmittedPatchAsWritten(f: FormData, now: string)
    ensures UpdatePatch(SubmitPayloadAsWritten(f), now) == DebtColumns(
      None, Some(Str(Trim(f.title))), Some(Str(Trim(f.screen))), Some(Str(f.debtType)),
      Some(Str(f.severity)), Some(Str(f.status)), OptionalColumn(f.assignee), None,
      Some(Str(Trim(f.description))), Some(Str(Trim(f.recommendation))), None,
      None, Some(Str(now)))
  {
    PatchOf(Clean(f), "figma_url", now);
  }

  /** A Figma link typed into the dialog is lost: the store never sees `figma_url`. */
  lemma FigmaEditDropped(f: FormData, now: string)
    ensures Get(SubmitPayloadAsWritten(f), "figma_url") == OrUndefined(Trim(f.figmaUrl))
    ensures UpdatePatch(SubmitPayloadAsWritten(f), now).figmaUrl == None
  {
    PatchOf(Clean(f), "figma_url", now);
  }

  /** For instance, a link `https://x` goes out under `figma_url` and the patch leaves the column alone. */
  lemma FigmaEditDroppedExample(now: string)
    ensures var f := FormData("t", "s", "Visual", "Low", "Open", "d", "r", "https://x", "");
      && Get(SubmitPayloadAsWritten(f), "figma_url") == Str("https://x")
      && UpdatePatch(SubmitPayloadAsWritten(f), now).figmaUrl == None
  {
    var f := FormData("t", "s", "Visual", "Low", "Open", "d", "r", "https://x", "");
    TrimNoSpace("https://x");
    FigmaEditDropped(f, now);
  }

  /** With the key the store reads, the link reaches the `figma_url` column whenever it is non-blank. */
  lemma FigmaEditSaved(f: FormData, now: string)
    ensures UpdatePatch(SubmitPayload(f), now).figmaUrl == OptionalColumn(f.figmaUrl)
  {
    SubmittedPatch(f, now);
  }

  /** Blanking the assignee cannot unassign: the patch leaves the old assignee in place. */
  lemma ClearedAssigneeKept(f: FormData, now: string)
    requires !HasText(f.assignee)
    ensures UpdatePatch(SubmitPayloadAsWritten(f), now).assignee == None
    ensures UpdatePatch(SubmitPayload(f), now).assignee == None
  {
    SubmittedPatchAsWritten(f, now);
    SubmittedPatch(f, now);
  }

  /** The dialog's state for one issue of one project. */
  class EditDebtForm {
    const debt: UXDebt
    const projectId: string
    var formData: FormData
    var loading: bool
    /** Whether `onClose` has been called. */
    var closed: bool

    constructor (debt: UXDebt, projectId: string)
      ensures this.debt == debt && this.projectId == projectId
      ensures formData == Initial(debt) && !loading && !closed
    {
      this.debt := debt;
      this.projectId := projectId;
      formData := Initial(debt);
      loading := false;
      closed := false;
    }

    /** `handleInputChange(field, value)` */
    method InputChange(field: FormField, value: string)
      modifies this
      ensures formData == With(old(formData), field, value)
      ensures loading == old(loading) && closed == old(closed)
    {
      formData := With(formData, field, value);
    }

    /**
     * `handleSubmit`: one patch of the trimmed form, with the Figma link under
     * `figma_url` as the dialog writes it, to the store, then
     * `onClose`. The store's `updateUXDebt` reports a failure itself and does
     * not throw, so the dialog closes in every case; `loading` is false again.
     */
    method HandleSubmit(store: Store, now: string, error: Option<string>, userId: Option<string>, b: Backend, parse: string -> Date)
      modifies this`loading, this`closed, store
      ensures store.writes == old(store.writes) + [PatchDebtRow(debt.row.id, UpdatePatch(SubmitPayloadAsWritten(old(formData)), now))]
      ensures store.Snapshot() == AfterWrite(old(store.Snapshot()), error, userId, b, parse)
      ensures !loading && closed
    {
      var payload := SubmitPayloadAsWritten(formData);
      loading := true;
      store.UpdateUxDebt(projectId, debt.row.id, payload, now, error, userId, b, parse);
      closed := true;
      loading := false;
    }

    /** The submit button: disabled while loading or while the form is invalid. */
    method SubmitClicked(store: Store, now: string, error: Option<string>, userId: Option<string>, b: Backend, parse: string -> Date)
      returns (sent: bool)
      modifies this`loading, this`closed, store
      ensures sent <==> !old(loading) && IsFormValid(old(formData))
      ensures sent ==> store.writes == old(store.writes) + [PatchDebtRow(debt.row.id, UpdatePatch(SubmitPayloadAsWritten(old(formData)), now))]
      ensures sent ==> store.Snapshot() == AfterWrite(old(store.Snapshot()), error, userId, b, parse) && closed
      ensures !sent ==> store.writes == old(store.writes) && store.Snapshot() == old(store.Snapshot()) && closed == old(closed)
      ensures loading == (old(loading) && !sent)
    {
      sent := !loading && IsFormValid(formData);
      if sent {
        HandleSubmit(store, now, error, userId, b, parse);
      }
    }
  }
}
