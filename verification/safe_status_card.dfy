/** The all-clear card: shown while no alert is active, optionally with the
    last resolved alert. Its tables are copies of the alarm card's, except
    that the medium tier is painted '#fffb16ff' here. */
module SafeStatusCard {
  import opened Common
  import opened Severity
  import opened JsObject
  import opened Alerts
  import AlertCard

  const Iconos: map<string, string> := map[
    "ALTO" := "🔴", "MEDIO" := "🟡", "BAJO" := "🟢",
    "ALERTA_ROJA" := "🔴", "ALERTA_AMARILLA" := "🟡", "ALERTA_VERDE" := "🟢",
    "RED" := "🔴", "YELLOW" := "🟡", "GREEN" := "🟢"]

  const Colores: map<string, string> := map[
    "ALTO" := "#dc2626", "MEDIO" := "#fffb16ff", "BAJO" := "#16a34a",
    "ALERTA_ROJA" := "#dc2626", "ALERTA_AMARILLA" := "#fffb16ff", "ALERTA_VERDE" := "#16a34a",
    "RED" := "#dc2626", "YELLOW" := "#fffb16ff", "GREEN" := "#16a34a"]

  const Textos: map<string, string> := map[
    "ALTO" := "ALTO", "MEDIO" := "MEDIO", "BAJO" := "BAJO",
    "ALERTA_ROJA" := "ALTO", "ALERTA_AMARILLA" := "MEDIO", "ALERTA_VERDE" := "BAJO",
    "RED" := "ALTO", "YELLOW" := "MEDIO", "GREEN" := "BAJO"]

  /** This card's colour for each tier. */
  function TierColor(t: Tier): string {
    match t
    case Alto => "#dc2626"
    case Medio => "#fffb16ff"
    case Bajo => "#16a34a"
  }

  function IconoTipo(tipo: string): (r: string)
    ensures TierOf(tipo).Some? ==> r == TierIcon(TierOf(tipo).value)
    ensures TierOf(tipo).None? ==> r == UnknownIcon
  {
    OwnOr(Iconos, tipo, UnknownIcon)
  }

  function ColorTipo(tipo: string): (r: string)
    ensures TierOf(tipo).Some? ==> r == TierColor(TierOf(tipo).value)
    ensures TierOf(tipo).None? ==> r == UnknownColor
  {
    OwnOr(Colores, tipo, UnknownColor)
  }

  function TextoTipo(tipo: string): (r: string)
    ensures TierOf(tipo).Some? ==> r == ShortForm(TierOf(tipo).value)
    ensures TierOf(tipo).None? ==> r == tipo
  {
    OwnOr(Textos, tipo, tipo)
  }

  /** The icon table is the alarm card's on every input. */
  lemma IconAgreesWithAlertCard(tipo: string)
    ensures IconoTipo(tipo) == AlertCard.IconoTipo(tipo)
  {
  }

  /** The label table is the alarm card's on every input, hence idempotent too. */
  lemma TextAgreesWithAlertCard(tipo: string)
    ensures TextoTipo(tipo) == AlertCard.TextoTipo(tipo)
    ensures TextoTipo(TextoTipo(tipo)) == TextoTipo(tipo)
  {
    AlertCard.TextoIdempotent(tipo);
  }

  /** The colour tables agree everywhere except on the medium tier, where the
      two cards paint the same alert differently. */
  lemma ColorDivergesOnlyOnMedio(tipo: string)
    ensures TierOf(tipo) != Some(Medio) ==> ColorTipo(tipo) == AlertCard.ColorTipo(tipo)
    ensures TierOf(tipo) == Some(Medio) ==>
      ColorTipo(tipo) == "#fffb16ff" && AlertCard.ColorTipo(tipo) == "#d97706"
  {
  }

  /** This card's `iconos[tipo] || '⚪'` as JavaScript evaluates it. */
  function IconoTipoAsWritten(tipo: string): (v: Value)
    ensures tipo !in PrototypeMembers ==> v == Str(IconoTipo(tipo))
    ensures tipo in PrototypeMembers ==> v == Inherited(tipo)
  {
    ReadOr(Iconos, tipo, UnknownIcon)
  }

  /** This card's `colores[tipo] || '#6b7280'` as JavaScript evaluates it. */
  function ColorTipoAsWritten(tipo: string): (v: Value)
    ensures tipo !in PrototypeMembers ==> v == Str(ColorTipo(tipo))
    ensures tipo in PrototypeMembers ==> v == Inherited(tipo)
  {
    ReadOr(Colores, tipo, UnknownColor)
  }

  /** This card's `textos[tipo] || tipo` as JavaScript evaluates it. */
  function TextoTipoAsWritten(tipo: string): (v: Value)
    ensures tipo !in PrototypeMembers ==> v == Str(TextoTipo(tipo))
    ensures tipo in PrototypeMembers ==> v == Inherited(tipo)
  {
    ReadOr(Textos, tipo, tipo)
  }

  /** As on the alarm card, 'valueOf' reaches an inherited method through all
      three tables, where the intended lookups fall back. */
  lemma AsWrittenMissesFallback()
    ensures TierOf("valueOf").None?
    ensures IconoTipoAsWritten("valueOf") == Inherited("valueOf")
    ensures ColorTipoAsWritten("valueOf") == Inherited("valueOf")
    ensures TextoTipoAsWritten("valueOf") == Inherited("valueOf")
    ensures IconoTipo("valueOf") == UnknownIcon && ColorTipo("valueOf") == UnknownColor
    ensures TextoTipo("valueOf") == "valueOf"
  {
    assert "valueOf" in PrototypeMembers;
  }

  /** The block describing the last resolved alert. */
  datatype Resolved = Resolved(
    icon: string,
    titleColor: string,
    title: string,
    descripcion: string,
    fechaResolucion: int,
    badge: bool)

  /** What the card renders: the loading placeholder, or the all-clear panel
      with the resolved block when there is a resolved alert. */
  datatype Screen = Loading | Normal(resolved: Option<Resolved>)

  function RenderResolved(a: Alerta): (b: Resolved)
    ensures b.icon == IconoTipo(a.tipo) && b.titleColor == ColorTipo(a.tipo)
    ensures b.title == "Última alerta resuelta: " + TextoTipo(a.tipo)
    ensures b.descripcion == a.descripcion && b.fechaResolucion == a.fechaResolucion
    ensures b.badge <==> Truthy(a.observaciones)
  {
    Resolved(IconoTipo(a.tipo), ColorTipo(a.tipo), "Última alerta resuelta: " + TextoTipo(a.tipo),
             a.descripcion, a.fechaResolucion, Truthy(a.observaciones))
  }

  /** Loading hides everything else; otherwise the resolved block appears
      exactly when there is a last resolved alert, and describes that alert. */
  function Render(ultimaAlertaResuelta: Option<Alerta>, loading: bool): (v: Screen)
    ensures loading <==> v.Loading?
    ensures v.Normal? ==> (v.resolved.Some? <==> ultimaAlertaResuelta.Some?)
    ensures v.Normal? && v.resolved.Some? ==> v.resolved.value == RenderResolved(ultimaAlertaResuelta.value)
  {
    if loading then Loading
    else Normal(if ultimaAlertaResuelta.Some? then Some(RenderResolved(ultimaAlertaResuelta.value)) else None)
  }

  /** The 'Resuelta' badge shows exactly when the resolved alert has observations. */
  lemma BadgeIffObservations(a: Alerta)
    ensures var v := Render(Some(a), false);
      v.Normal? && v.resolved.Some? && (v.resolved.value.badge <==> Truthy(a.observaciones))
  {
  }
}
