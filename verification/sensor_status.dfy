/** The dashboard's status panel: it runs the refresh cycle and hands its
    state to the error panel, the alarm card or the all-clear card. */
module SensorStatus {
  import opened Common
  import opened Alerts
  import opened AlertFeed
  import AlertCard
  import SafeStatusCard

  /** Which component the panel renders, with the props it passes. */
  datatype View =
    | ErrorView
    | AlertCardView(alertasActivas: seq<Alerta>, loading: bool)
    | SafeStatusView(ultimaAlertaResuelta: Option<Alerta>, loading: bool)

  /** An error wins over any alert list; otherwise any active alert selects
      the alarm card and none selects the all-clear card. */
  function SelectView(s: Feed): (v: View)
    ensures v.ErrorView? <==> Truthy(s.error)
    ensures v.AlertCardView? <==> !Truthy(s.error) && |s.alertasActivas| > 0
    ensures v.AlertCardView? ==> v.alertasActivas == s.alertasActivas && v.loading == s.loading
    ensures v.SafeStatusView? ==> v.ultimaAlertaResuelta == s.ultimaAlertaResuelta && v.loading == s.loading
  {
    if Truthy(s.error) then ErrorView
    else if |s.alertasActivas| > 0 then AlertCardView(s.alertasActivas, s.loading)
    else SafeStatusView(s.ultimaAlertaResuelta, s.loading)
  }

  /** Everything the panel can put on screen. */
  datatype Screen =
    | ErrorPanel
    | Alarm(alarm: AlertCard.Screen)
    | Safe(safe: SafeStatusCard.Screen)

  /** The selected component, rendered with the props the panel passes it. */
  function Render(s: Feed): (r: Screen)
    ensures r.ErrorPanel? <==> Truthy(s.error)
    ensures r.Alarm? <==> !Truthy(s.error) && s.alertasActivas != []
    ensures r.Alarm? ==> r.alarm == AlertCard.Render(s.alertasActivas, s.loading)
    ensures r.Safe? ==> r.safe == SafeStatusCard.Render(s.ultimaAlertaResuelta, s.loading)
  {
    match SelectView(s)
    case ErrorView => ErrorPanel
    case AlertCardView(list, loading) => Alarm(AlertCard.Render(list, loading))
    case SafeStatusView(last, loading) => Safe(SafeStatusCard.Render(last, loading))
  }

  /** On mount nothing has been fetched: the all-clear card shows its spinner. */
  lemma InitialScreen()
    ensures Initial.alertasActivas == [] && Initial.ultimaAlertaResuelta.None?
    ensures Initial.loading && Initial.error.None?
    ensures Render(Initial) == Safe(SafeStatusCard.Loading)
  {
  }

  /** After a cycle whose active fetch failed the error panel shows, whatever
      the resolved fetch returned. */
  lemma FailedActiveShowsError(s: Feed, resolved: Remote<seq<Alerta>>, msg: Option<string>)
    ensures Render(CargarDatos(s, Fail(msg), resolved)) == ErrorPanel
  {
  }

  /** A failed resolved fetch is not fatal: with no active alerts the
      all-clear card shows, without a resolved block. */
  lemma FailedResolvedDegradesToSafe(s: Feed, msg: Option<string>)
    ensures Render(CargarDatos(s, Ok([]), Fail(msg))) == Safe(SafeStatusCard.Normal(None))
  {
  }

  /** After a completed cycle with active alerts the alarm card lists them all. */
  lemma ActiveAlertsShowAlarm(s: Feed, list: seq<Alerta>, resolved: Remote<seq<Alerta>>)
    requires list != []
    ensures var v := Render(CargarDatos(s, Ok(list), resolved));
      v.Alarm? && v.alarm.Listing? && v.alarm.count == |list|
  {
  }

  /** A refresh started from the error panel keeps the error panel (not a
      spinner) until the active fetch settles. */
  lemma RefreshFromErrorKeepsErrorPanel(s: Feed)
    requires Truthy(s.error)
    ensures Render(BeginActive(s)) == ErrorPanel
  {
  }

  /** A refresh started from the alarm card shows the alarm card's spinner. */
  lemma RefreshFromAlarmShowsSpinner(s: Feed)
    requires !Truthy(s.error) && s.alertasActivas != []
    ensures Render(BeginActive(s)) == Alarm(AlertCard.Loading)
  {
  }
}
