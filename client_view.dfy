/** What the results column of the prediction page shows, as a pure
    function of the page's three state fields: the spinner, the error line,
    the High/Low Risk panel and the placeholder, plus the submit button. */
module ClientView {
  import opened Wire

  /** The page's state fields besides the inputs. `result` holds `res.data`
      verbatim; JavaScript `null` is `NullBody`. `error` is `null` or a string. */
  datatype Snapshot = Snapshot(loading: bool, error: Option<string>, result: Body)

  /** The state when the page is mounted. */
  const INITIAL := Snapshot(false, None, NullBody)

  /** The state while a request is in flight: nothing stale survives. */
  const SUBMITTING := Snapshot(true, None, NullBody)

  /** JavaScript truthiness of a response body kept as `result`. */
  predicate Truthy(b: Body)
  {
    !(b.NullBody? || b == TextBody(""))
  }

  /** JavaScript truthiness of the `error` field. */
  predicate ErrorTruthy(e: Option<string>)
  {
    e.Some? && e.value != ""
  }

  datatype Risk = HighRisk | LowRisk

  function RiskText(r: Risk): string
  {
    match r
    case HighRisk => "High Risk"
    case LowRisk => "Low Risk"
  }

  /** The result panel: the risk bucket and the raw `probability_percent`
      behind the two-decimal text and the bar width (`None` where the body
      has no such field). */
  datatype Panel = Panel(risk: Risk, probabilityPercent: Option<real>)

  /** `result.prediction === 1 ? "High Risk" : "Low Risk"`: only a body
      whose `prediction` is exactly 1 is high risk. */
  function PanelOf(b: Body): (p: Panel)
    ensures p.risk == HighRisk <==> b.PredictionBody? && b.prediction == 1
    ensures p.probabilityPercent.Some? <==> b.PredictionBody?
    ensures b.PredictionBody? ==> p.probabilityPercent.value == b.probabilityPercent
  {
    match b
    case PredictionBody(prediction, percent) =>
      Panel(if prediction == 1 then HighRisk else LowRisk, Some(percent))
    case _ => Panel(LowRisk, None)
  }

  datatype View = View(
    buttonDisabled: bool,
    buttonText: string,
    spinner: bool,
    errorText: Option<string>,
    panel: Option<Panel>,
    placeholder: bool)

  /** The JSX conditionals of the results column and the submit button. */
  function Project(s: Snapshot): (v: View)
    ensures v.buttonDisabled <==> s.loading
    ensures v.panel.Some? <==> Truthy(s.result) && !s.loading
    ensures v.placeholder <==> !Truthy(s.result) && !s.loading && !ErrorTruthy(s.error)
  {
    View(
      s.loading,
      if s.loading then "Analyzing..." else "Predict Risk",
      s.loading,
      if ErrorTruthy(s.error) then s.error else None,
      if Truthy(s.result) && !s.loading then Some(PanelOf(s.result)) else None,
      !Truthy(s.result) && !s.loading && !ErrorTruthy(s.error))
  }

  /** Number of the four result-column elements a view shows. */
  function Shown(v: View): nat
  {
    (if v.spinner then 1 else 0) + (if v.errorText.Some? then 1 else 0)
    + (if v.panel.Some? then 1 else 0) + (if v.placeholder then 1 else 0)
  }

  /** The placeholder appears exactly when none of the other three does,
      in every state, reachable or not. */
  lemma PlaceholderIffNothingElse(s: Snapshot)
    ensures Project(s).placeholder <==>
            !Project(s).spinner && Project(s).errorText.None? && Project(s).panel.None?
  {
  }

  /** High Risk exactly for a prediction body whose label is 1. */
  lemma RiskBucket(b: Body)
    ensures RiskText(PanelOf(b).risk) == (if b.PredictionBody? && b.prediction == 1 then "High Risk" else "Low Risk")
  {
  }

  // ---- The lifecycle as a tagged variant ----

  datatype Phase = Idle | Loading | Succeeded(data: Body) | Failed(message: string)

  /** The states the page can reach: nothing is kept while loading, an error
      and a result are never held together, and error texts are non-empty. */
  ghost predicate Consistent(s: Snapshot)
  {
    && (s.loading ==> s.error.None? && s.result == NullBody)
    && (s.error.Some? ==> s.error.value != "" && s.result == NullBody)
  }

  /** Which lifecycle phase a consistent state is in. */
  function PhaseOf(s: Snapshot): Phase
  {
    if s.loading then Loading
    else if s.error.Some? then Failed(s.error.value)
    else if Truthy(s.result) then Succeeded(s.result)
    else Idle
  }

  /** Reference view of each phase: exactly one result-column element. */
  function PhaseView(p: Phase): View
  {
    match p
    case Idle => View(false, "Predict Risk", false, None, None, true)
    case Loading => View(true, "Analyzing...", true, None, None, false)
    case Succeeded(data) => View(false, "Predict Risk", false, None, Some(PanelOf(data)), false)
    case Failed(message) => View(false, "Predict Risk", false, Some(message), None, false)
  }

  /** In every reachable state the JSX conditionals show what the phase
      calls for, so exactly one of spinner, error, result and placeholder is
      on screen and the button is disabled only while loading. */
  lemma ProjectionFollowsPhase(s: Snapshot)
    requires Consistent(s)
    ensures Project(s) == PhaseView(PhaseOf(s))
    ensures Shown(Project(s)) == 1
  {
  }
}
