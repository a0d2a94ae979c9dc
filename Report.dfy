/**
 * The report form: a seven-field draft edited one field at a time, and a
 * submit that posts it, reports success or error, and clears the draft on
 * success (ReportPage.jsx).
 */
module Report {
  import Incidents

  datatype Field = IncidentId | DisasterType | Severity | Description | Timestamp | State | District

  /** The form state: every field is a string, "" when not yet filled in. */
  datatype Draft = Draft(
    incidentId: string,
    disasterType: string,
    severity: string,
    description: string,
    timestamp: string,
    state: string,
    district: string)
  {
    function Get(f: Field): string {
      match f
      case IncidentId => incidentId
      case DisasterType => disasterType
      case Severity => severity
      case Description => description
      case Timestamp => timestamp
      case State => state
      case District => district
    }

    /** `{ ...form, [name]: value }`: the named field takes the value, the other six keep theirs. */
    function With(f: Field, v: string): (d: Draft)
      ensures d.Get(f) == v
      ensures forall g :: g != f ==> d.Get(g) == Get(g)
    {
      match f
      case IncidentId => this.(incidentId := v)
      case DisasterType => this.(disasterType := v)
      case Severity => this.(severity := v)
      case Description => this.(description := v)
      case Timestamp => this.(timestamp := v)
      case State => this.(state := v)
      case District => this.(district := v)
    }
  }

  const EmptyDraft := Draft("", "", "", "", "", "", "")

  /** The options of the disaster-type select. */
  const DisasterTypeOptions: seq<string> :=
    ["Earthquake", "Flood", "Cyclone", "Landslide", "Drought", "Fire", "Tsunami", "Other"]

  /** The options of the severity select. */
  const SeverityOptions: seq<string> := ["1", "2", "3", "4", "5"]

  /** The options of the state select. */
  const StateOptions: seq<string> := [
    "Maharashtra", "Gujarat", "Delhi", "Odisha", "TamilNadu", "Karnataka",
    "Kerala", "WestBengal", "Rajasthan", "Bihar", "Assam"
  ]

  /** A value the field's control can produce: a select yields "" or one of its options. */
  predicate Admissible(f: Field, v: string) {
    match f
    case DisasterType => v == "" || v in DisasterTypeOptions
    case Severity => v == "" || v in SeverityOptions
    case State => v == "" || v in StateOptions
    case _ => true
  }

  predicate AdmissibleDraft(d: Draft) {
    forall f :: Admissible(f, d.Get(f))
  }

  /** Every field is `required`: the browser submits only a draft with no empty field. */
  predicate Complete(d: Draft) {
    forall f :: d.Get(f) != ""
  }

  /** The states offered are exactly the states that have a map position. */
  lemma StateOptionsAreMapKeys()
    ensures forall s :: s in StateOptions <==> s in Incidents.StateCoordKeys
  {
  }

  /** A submitted draft names a state with a map position and a severity with a style. */
  lemma SubmittedDraftIsPlaceable(d: Draft)
    requires AdmissibleDraft(d) && Complete(d)
    ensures d.state in Incidents.StateCoordKeys
    ensures exists level :: level in Incidents.SeverityTable && d.severity == SeverityOptions[level - 1]
  {
    assert Admissible(State, d.Get(State)) && d.Get(State) != "";
    assert Admissible(Severity, d.Get(Severity)) && d.Get(Severity) != "";
    StateOptionsAreMapKeys();
    var i :| 0 <= i < |SeverityOptions| && SeverityOptions[i] == d.severity;
    assert i + 1 in Incidents.SeverityTable;
  }

  /** `submitStatus`: null, "success" or "error". */
  datatype SubmitStatus = NoStatus | Success | Error

  /** How the POST settles: a 2xx response, another response, or a thrown error. */
  datatype Outcome = Ok | NotOk | Threw

  class ReportForm {
    var form: Draft
    var isSubmitting: bool
    var submitStatus: SubmitStatus
    /** Auto-hide callbacks scheduled and not yet run. */
    var pendingHides: nat

    ghost predicate Valid()
      reads this
    {
      && AdmissibleDraft(form)
      && (isSubmitting ==> submitStatus == NoStatus)
      && (submitStatus == Success ==> pendingHides > 0)
    }

    constructor ()
      ensures Valid()
      ensures form == EmptyDraft && !isSubmitting && submitStatus == NoStatus && pendingHides == 0
    {
      form := EmptyDraft;
      isSubmitting := false;
      submitStatus := NoStatus;
      pendingHides := 0;
    }

    /** handleChange: the named field takes the new value, nothing else changes. */
    method HandleChange(name: Field, value: string)
      requires Valid() && Admissible(name, value)
      modifies this`form
      ensures Valid()
      ensures form.Get(name) == value
      ensures forall g :: g != name ==> form.Get(g) == old(form).Get(g)
    {
      form := form.With(name, value);
    }

    /**
     * handleSubmit up to the request: the button is disabled while a
     * submission is in flight and the browser holds back an incomplete form.
     * Returns the body that is posted.
     */
    method SubmitBegin() returns (body: Draft)
      requires Valid() && !isSubmitting && Complete(form)
      modifies this`isSubmitting, this`submitStatus
      ensures Valid()
      ensures isSubmitting && submitStatus == NoStatus
      ensures body == form && Complete(body)
    {
      isSubmitting := true;
      submitStatus := NoStatus;
      body := form;
    }

    /**
     * handleSubmit after the request settles: success clears the draft and
     * schedules the auto-hide; a non-2xx response or a thrown error shows
     * the error and keeps the draft. The in-flight flag is released either way.
     */
    method SubmitSettle(outcome: Outcome)
      requires Valid() && isSubmitting
      modifies this`form, this`isSubmitting, this`submitStatus, this`pendingHides
      ensures Valid()
      ensures !isSubmitting
      ensures outcome == Ok ==> submitStatus == Success && form == EmptyDraft && pendingHides == old(pendingHides) + 1
      ensures outcome != Ok ==> submitStatus == Error && form == old(form) && pendingHides == old(pendingHides)
    {
      if outcome == Ok {
        submitStatus := Success;
        form := EmptyDraft;
        pendingHides := pendingHides + 1;
      } else {
        submitStatus := Error;
      }
      isSubmitting := false;
    }

    /** The 3-second timer fires: the status is cleared, whatever it is by then. */
    method AutoHide()
      requires Valid() && pendingHides > 0
      modifies this`submitStatus, this`pendingHides
      ensures Valid()
      ensures submitStatus == NoStatus && pendingHides == old(pendingHides) - 1
    {
      submitStatus := NoStatus;
      pendingHides := pendingHides - 1;
    }
  }

  /** The user fills in every field, one change event per field. */
  method FillIn(page: ReportForm, d: Draft)
    requires page.Valid() && AdmissibleDraft(d)
    modifies page`form
    ensures page.Valid() && page.form == d
  {
    assert Admissible(DisasterType, d.Get(DisasterType)) && Admissible(Severity, d.Get(Severity));
    assert Admissible(State, d.Get(State));
    page.HandleChange(IncidentId, d.incidentId);
    page.HandleChange(DisasterType, d.disasterType);
    page.HandleChange(Severity, d.severity);
    page.HandleChange(Description, d.description);
    page.HandleChange(Timestamp, d.timestamp);
    page.HandleChange(State, d.state);
    page.HandleChange(District, d.district);
    assert forall f :: page.form.Get(f) == d.Get(f);
  }

  /**
   * The auto-hide timer of an earlier success is not cancelled by a later
   * submission: when that submission fails within three seconds, the timer
   * clears its error message.
   */
  method ErrorClearedByEarlierTimer(filled: Draft) returns (shown: SubmitStatus, kept: Draft)
    requires AdmissibleDraft(filled) && Complete(filled)
    ensures shown == NoStatus && kept == filled
  {
    var page := new ReportForm();
    FillIn(page, filled);
    var first := page.SubmitBegin();
    page.SubmitSettle(Ok);
    assert page.form == EmptyDraft && page.pendingHides == 1;
    FillIn(page, filled);
    var second := page.SubmitBegin();
    page.SubmitSettle(NotOk);
    assert page.submitStatus == Error;
    page.AutoHide();
    shown, kept := page.submitStatus, page.form;
  }
}
