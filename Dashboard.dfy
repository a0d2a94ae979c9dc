/**
 * The dashboard's state: the incident list, the loading flag, the selected
 * incident and whether its resource panel is expanded (DashboardPage.jsx).
 */
module Dashboard {
  import opened Options
  import opened Incidents

  /** How the initial fetch settles: a parsed body, or a rejected promise. */
  datatype FetchOutcome = Received(body: Body) | Failed

  /** The popup state: the selected incident and the resource-panel flag. */
  datatype Popup = Popup(selected: Option<Incident>, showResources: bool)

  const Closed := Popup(None, false)

  // ---------------------------------------------------------------------
  // Which incident is "the selected one"
  // ---------------------------------------------------------------------

  /**
   * `selectedIncident?.incident_id === incident.incident_id` as written: with
   * nothing selected the left side is `undefined`, which equals the id of an
   * incident that has none.
   */
  predicate IsSelectedAsWritten(selected: Option<Incident>, inc: Incident) {
    (if selected.None? then None else selected.value.incidentId) == inc.incidentId
  }

  /** An incident is selected when there is a selection and it has the same id. */
  predicate IsSelected(selected: Option<Incident>, inc: Incident) {
    selected.Some? && selected.value.incidentId == inc.incidentId
  }

  /** The two comparisons differ only when nothing is selected. */
  lemma SelectionComparisons(selected: Option<Incident>, inc: Incident)
    ensures selected.Some? ==> (IsSelected(selected, inc) <==> IsSelectedAsWritten(selected, inc))
    ensures !IsSelected(None, inc)
    ensures IsSelected(Some(inc), inc)
  {
  }

  /** handleMarkerClick as written. */
  function ClickAsWritten(p: Popup, inc: Incident): (q: Popup)
    ensures !q.showResources
    ensures IsSelectedAsWritten(p.selected, inc) ==> q == Closed
    ensures !IsSelectedAsWritten(p.selected, inc) ==> q.selected == Some(inc)
  {
    if IsSelectedAsWritten(p.selected, inc) then Closed else Popup(Some(inc), false)
  }

  /**
   * As written, with nothing selected, an incident without an id shows its
   * popup, and clicking its marker leaves nothing selected: it can never be
   * opened.
   */
  lemma IdlessIncidentAsWritten(inc: Incident)
    requires inc.incidentId.None?
    ensures IsSelectedAsWritten(None, inc)
    ensures ClickAsWritten(Closed, inc) == Closed
  {
  }

  /**
   * As written, the popup drawn for an incident without an id while nothing
   * is selected has a working toggle: pressing it expands a panel with
   * nothing selected.
   */
  lemma IdlessPopupToggleAsWritten(inc: Incident)
    requires inc.incidentId.None?
    ensures IsSelectedAsWritten(Closed.selected, inc)
    ensures Toggle(Closed).showResources && Toggle(Closed).selected.None?
    ensures !Consistent(Toggle(Closed))
  {
  }

  /**
   * handleMarkerClick: clicking the selected incident closes the popup,
   * clicking any other selects it; either way the resource panel collapses.
   */
  function Click(p: Popup, inc: Incident): (q: Popup)
    ensures !q.showResources
    ensures IsSelected(p.selected, inc) ==> q == Closed
    ensures !IsSelected(p.selected, inc) ==> q.selected == Some(inc)
  {
    if IsSelected(p.selected, inc) then Closed else Popup(Some(inc), false)
  }

  /** Clicking any marker with nothing selected opens that incident's popup. */
  lemma ClickOpensWhenClosed(inc: Incident)
    ensures Click(Closed, inc) == Popup(Some(inc), false)
  {
  }

  /** Clicking the same marker twice closes its popup, unless it was open before. */
  lemma ClickTwice(p: Popup, inc: Incident)
    ensures Click(Click(p, inc), inc) ==
      if IsSelected(p.selected, inc) then Popup(Some(inc), false) else Closed
  {
  }

  /** toggleResources: flips the panel flag and keeps the selection. */
  function Toggle(p: Popup): (q: Popup)
    ensures q.selected == p.selected
    ensures q.showResources != p.showResources
  {
    Popup(p.selected, !p.showResources)
  }

  /** The panel is only expanded inside an open popup. */
  ghost predicate Consistent(p: Popup) {
    p.showResources ==> p.selected.Some?
  }

  /** Every transition keeps an expanded panel inside an open popup. */
  lemma TransitionsKeepConsistent(p: Popup, inc: Incident)
    requires Consistent(p)
    ensures Consistent(Click(p, inc))
    ensures Consistent(Closed)
    ensures p.selected.Some? ==> Consistent(Toggle(p))
  {
  }

  /** The popup of `inc` is drawn: its marker is on the map and it is the selected one. */
  predicate PopupShown(p: Popup, inc: Incident) {
    HasMarker(inc) && IsSelected(p.selected, inc)
  }

  /** After a click on a marker the clicked incident's popup is drawn, or no popup at all is. */
  lemma ClickShowsClickedOrNothing(p: Popup, inc: Incident, other: Incident)
    requires HasMarker(inc)
    ensures PopupShown(Click(p, inc), inc) || Click(p, inc).selected.None?
    ensures PopupShown(Click(p, inc), other) ==> other.incidentId == inc.incidentId
  {
  }

  class DashboardView {
    var incidents: seq<Incident>
    var loading: bool
    var selectedIncident: Option<Incident>
    var showResources: bool

    function State(): Popup
      reads this
    {
      Popup(selectedIncident, showResources)
    }

    ghost predicate Valid()
      reads this
    {
      Consistent(State())
    }

    constructor ()
      ensures Valid()
      ensures incidents == [] && loading && State() == Closed
    {
      incidents := [];
      loading := true;
      selectedIncident := None;
      showResources := false;
    }

    /**
     * The fetch callback: a body whose elements all normalise replaces the
     * list; a rejected fetch or a null element leaves it as it was. Loading
     * ends either way.
     */
    method SettleFetch(outcome: FetchOutcome)
      requires Valid()
      modifies this`incidents, this`loading
      ensures Valid()
      ensures !loading
      ensures outcome.Received? && NormalizeBody(outcome.body).Some? ==>
        incidents == NormalizeBody(outcome.body).value
      ensures outcome.Failed? || NormalizeBody(outcome.body).None? ==> incidents == old(incidents)
    {
      if outcome.Received? {
        var formatted := NormalizeBody(outcome.body);
        if formatted.Some? {
          incidents := formatted.value;
        }
      }
      loading := false;
    }

    method HandleMarkerClick(incident: Incident)
      requires Valid()
      modifies this`selectedIncident, this`showResources
      ensures Valid()
      ensures State() == Click(old(State()), incident)
    {
      if IsSelected(selectedIncident, incident) {
        selectedIncident := None;
        showResources := false;
      } else {
        selectedIncident := Some(incident);
        showResources := false;
      }
    }

    /** The toggle button only exists inside an open popup. */
    method ToggleResources()
      requires Valid() && selectedIncident.Some?
      modifies this`showResources
      ensures Valid()
      ensures State() == Toggle(old(State()))
    {
      showResources := !showResources;
    }

    /** The popup's close button. */
    method ClosePopup()
      requires Valid()
      modifies this`selectedIncident, this`showResources
      ensures Valid()
      ensures State() == Closed
    {
      selectedIncident := None;
      showResources := false;
    }
  }
}
