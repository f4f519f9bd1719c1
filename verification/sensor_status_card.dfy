/** The older, self-contained status card. It runs the same refresh cycle as
    the status panel but renders everything itself, with tables that know only
    the short spellings and with the raw `tipo` as the alarm label. */
module SensorStatusCard {
  import opened Common
  import opened Severity
  import opened JsObject
  import opened Alerts
  import opened AlertFeed
  import AlertCard

  const Iconos: map<string, string> := map["ALTO" := "🔴", "MEDIO" := "🟡", "BAJO" := "🟢"]

  const Colores: map<string, string> := map["ALTO" := "#dc2626", "MEDIO" := "#d97706", "BAJO" := "#16a34a"]

  /** `tipo` is one of the three short spellings. */
  predicate IsShortForm(tipo: string) {
    tipo == ShortForm(Alto) || tipo == ShortForm(Medio) || tipo == ShortForm(Bajo)
  }

  /** `obtenerIconoTipo`: only the short spellings have an icon. */
  function IconoTipo(tipo: string): (r: string)
    ensures IsShortForm(tipo) ==> r == TierIcon(TierOf(tipo).value)
    ensures !IsShortForm(tipo) ==> r == UnknownIcon
  {
    OwnOr(Iconos, tipo, UnknownIcon)
  }

  /** `obtenerColorTipo`: only the short spellings have a colour. */
  function ColorTipo(tipo: string): (r: string)
    ensures IsShortForm(tipo) ==> r == AlertCard.TierColor(TierOf(tipo).value)
    ensures !IsShortForm(tipo) ==> r == UnknownColor
  {
    OwnOr(Colores, tipo, UnknownColor)
  }

  /** This card's `iconos[tipo] || '⚪'` as JavaScript evaluates it. */
  function IconoTipoAsWritten(tipo: string): (v: Value)
    ensures tipo !in PrototypeMembers ==> v == Str(IconoTipo(tipo))
    ensures tipo in PrototypeMembers ==> v == Inherited(tipo)
  {
    ReadOr(Iconos, tipo, UnknownIcon)
  }

  /** This card's `colores[tipo] || '#6b7280'` as JavaScript evaluates it. */
  function ColorTipoAsWritten(tipo: string): (v: Value)
    ensures tipo !in PrototypeMembers ==> v == Str(ColorTipo(tipo))
    ensures tipo in PrototypeMembers ==> v == Inherited(tipo)
  {
    ReadOr(Colores, tipo, UnknownColor)
  }

  /** 'constructor' reaches `Object.prototype.constructor` through both short
      tables, where the intended lookups fall back to the neutral icon and grey. */
  lemma AsWrittenMissesFallback()
    ensures !IsShortForm("constructor")
    ensures IconoTipoAsWritten("constructor") == Inherited("constructor")
    ensures ColorTipoAsWritten("constructor") == Inherited("constructor")
    ensures IconoTipo("constructor") == UnknownIcon && ColorTipo("constructor") == UnknownColor
  {
    assert "constructor" in PrototypeMembers;
  }

  /** On the short spellings this card agrees with the alarm card; on the
      backend and colour-name spellings it falls back to the neutral icon and
      grey, where the alarm card shows the tier. */
  lemma AgreesWithAlertCardOnShortFormsOnly(tipo: string)
    ensures IsShortForm(tipo) ==>
      IconoTipo(tipo) == AlertCard.IconoTipo(tipo) && ColorTipo(tipo) == AlertCard.ColorTipo(tipo)
    ensures TierOf(tipo).Some? && !IsShortForm(tipo) ==>
      IconoTipo(tipo) == UnknownIcon != AlertCard.IconoTipo(tipo)
      && ColorTipo(tipo) == UnknownColor != AlertCard.ColorTipo(tipo)
  {
  }

  /** One alarm row; its label and badge show the raw `tipo`. */
  datatype Item = Item(
    key: int,
    color: string,
    icon: string,
    title: string,
    descripcion: string,
    location: Option<string>,
    fechaCreacion: int,
    badgeText: string)

  /** The last-resolved block of the normal view. */
  datatype Resolved = Resolved(
    icon: string,
    descripcion: string,
    fechaResolucion: int,
    observaciones: Option<string>)

  datatype Screen =
    | LoadingPanel
    | ErrorPanel
    | Normal(resolved: Option<Resolved>)
    | Alarm(count: nat, items: seq<Item>)

  function RenderItem(a: Alerta): (it: Item)
    ensures it.title == "Nivel " + a.tipo && it.badgeText == a.tipo
    ensures it.key == a.id && it.icon == IconoTipo(a.tipo) && it.color == ColorTipo(a.tipo)
    ensures it.descripcion == a.descripcion && it.fechaCreacion == a.fechaCreacion
    ensures it.location.Some? <==> Truthy(a.ubicacion)
    ensures it.location.Some? ==> it.location == a.ubicacion
  {
    Item(a.id, ColorTipo(a.tipo), IconoTipo(a.tipo), "Nivel " + a.tipo, a.descripcion,
         if Truthy(a.ubicacion) then a.ubicacion else None, a.fechaCreacion, a.tipo)
  }

  function RenderResolved(a: Alerta): (b: Resolved)
    ensures b.icon == IconoTipo(a.tipo) && b.descripcion == a.descripcion
    ensures b.fechaResolucion == a.fechaResolucion
    ensures b.observaciones.Some? <==> Truthy(a.observaciones)
    ensures b.observaciones.Some? ==> b.observaciones == a.observaciones
  {
    Resolved(IconoTipo(a.tipo), a.descripcion, a.fechaResolucion,
             if Truthy(a.observaciones) then a.observaciones else None)
  }

  /** Loading first, then the error, then the all-clear view for an empty
      list, and only otherwise the alarm list. */
  function Render(s: Feed): (v: Screen)
    ensures v.LoadingPanel? <==> s.loading
    ensures v.ErrorPanel? <==> !s.loading && Truthy(s.error)
    ensures v.Normal? <==> !s.loading && !Truthy(s.error) && s.alertasActivas == []
    ensures v.Normal? ==> (v.resolved.Some? <==> s.ultimaAlertaResuelta.Some?)
    ensures v.Normal? && v.resolved.Some? ==> v.resolved.value == RenderResolved(s.ultimaAlertaResuelta.value)
    ensures v.Alarm? ==> v.count == |s.alertasActivas| == |v.items|
    ensures v.Alarm? ==> forall i :: 0 <= i < |v.items| ==> v.items[i] == RenderItem(s.alertasActivas[i])
  {
    if s.loading then LoadingPanel
    else if Truthy(s.error) then ErrorPanel
    else if |s.alertasActivas| == 0 then
      Normal(if s.ultimaAlertaResuelta.Some? then Some(RenderResolved(s.ultimaAlertaResuelta.value)) else None)
    else Alarm(|s.alertasActivas|,
               seq(|s.alertasActivas|, i requires 0 <= i < |s.alertasActivas| => RenderItem(s.alertasActivas[i])))
  }

  /** The legacy card and the status panel agree on which kind of view a
      settled state gets, except that the legacy card shows a spinner while
      loading even over an error, and the panel keeps its error panel. */
  lemma PrecedenceVersusPanel(s: Feed)
    ensures s.loading ==> Render(s) == LoadingPanel
    ensures !s.loading && Truthy(s.error) ==> Render(s) == ErrorPanel
    ensures !s.loading ==> (Render(s).Alarm? <==> s.alertasActivas != [] && !Truthy(s.error))
  {
  }

  /** On mount the card shows its spinner: the state starts out loading. */
  lemma InitialScreen()
    ensures Initial.alertasActivas == [] && Initial.ultimaAlertaResuelta.None?
    ensures Initial.loading && Initial.error.None?
    ensures Render(Initial) == LoadingPanel
  {
  }

  /** The alarm row is labelled with the raw `tipo`; the alarm card labels
      the same alert with its tier's short form, so the two labels agree on a
      known tier exactly when the alert already uses the short spelling. */
  lemma RawLabel(a: Alerta)
    ensures RenderItem(a).title == "Nivel " + a.tipo
    ensures TierOf(a.tipo).Some? ==>
      AlertCard.RenderItem(a).title == "Nivel " + ShortForm(TierOf(a.tipo).value)
    ensures TierOf(a.tipo).Some? ==>
      (RenderItem(a).title == AlertCard.RenderItem(a).title <==> IsShortForm(a.tipo))
  {
    var raw, norm := RenderItem(a).title, AlertCard.RenderItem(a).title;
    if TierOf(a.tipo).Some? && raw == norm {
      assert a.tipo == raw[6..] == norm[6..] == AlertCard.TextoTipo(a.tipo);
    }
  }
}
