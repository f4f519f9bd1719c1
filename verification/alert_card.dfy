/** The alarm card: the card shown while at least one alert is active. It
    carries its own copies of the icon, colour and label tables. */
module AlertCard {
  import opened Common
  import opened Severity
  import opened JsObject
  import opened Alerts

  const Iconos: map<string, string> := map[
    "ALTO" := "🔴", "MEDIO" := "🟡", "BAJO" := "🟢",
    "ALERTA_ROJA" := "🔴", "ALERTA_AMARILLA" := "🟡", "ALERTA_VERDE" := "🟢",
    "RED" := "🔴", "YELLOW" := "🟡", "GREEN" := "🟢"]

  const Colores: map<string, string> := map[
    "ALTO" := "#dc2626", "MEDIO" := "#d97706", "BAJO" := "#16a34a",
    "ALERTA_ROJA" := "#dc2626", "ALERTA_AMARILLA" := "#d97706", "ALERTA_VERDE" := "#16a34a",
    "RED" := "#dc2626", "YELLOW" := "#d97706", "GREEN" := "#16a34a"]

  const Textos: map<string, string> := map[
    "ALTO" := "ALTO", "MEDIO" := "MEDIO", "BAJO" := "BAJO",
    "ALERTA_ROJA" := "ALTO", "ALERTA_AMARILLA" := "MEDIO", "ALERTA_VERDE" := "BAJO",
    "RED" := "ALTO", "YELLOW" := "MEDIO", "GREEN" := "BAJO"]

  /** This card's colour for each tier. */
  function TierColor(t: Tier): string {
    match t
    case Alto => "#dc2626"
    case Medio => "#d97706"
    case Bajo => "#16a34a"
  }

  /** `obtenerIconoTipo`: the tier's icon for any of its three spellings, the
      neutral circle for anything else. */
  function IconoTipo(tipo: string): (r: string)
    ensures TierOf(tipo).Some? ==> r == TierIcon(TierOf(tipo).value)
    ensures TierOf(tipo).None? ==> r == UnknownIcon
  {
    OwnOr(Iconos, tipo, UnknownIcon)
  }

  /** `obtenerColorTipo`: the tier's colour, grey for anything else. */
  function ColorTipo(tipo: string): (r: string)
    ensures TierOf(tipo).Some? ==> r == TierColor(TierOf(tipo).value)
    ensures TierOf(tipo).None? ==> r == UnknownColor
  {
    OwnOr(Colores, tipo, UnknownColor)
  }

  /** `obtenerTextoTipo`: the tier's short form; an unknown `tipo` is shown as is. */
  function TextoTipo(tipo: string): (r: string)
    ensures TierOf(tipo).Some? ==> r == ShortForm(TierOf(tipo).value)
    ensures TierOf(tipo).None? ==> r == tipo
  {
    OwnOr(Textos, tipo, tipo)
  }

  /** Normalising twice is normalising once. */
  lemma TextoIdempotent(tipo: string)
    ensures TextoTipo(TextoTipo(tipo)) == TextoTipo(tipo)
  {
  }

  /** Icon and colour depend on `tipo` only through its normalised label. */
  lemma IconAndColorFactorThroughText(tipo: string)
    ensures IconoTipo(tipo) == IconoTipo(TextoTipo(tipo))
    ensures ColorTipo(tipo) == ColorTipo(TextoTipo(tipo))
  {
  }

  /** `obtenerIconoTipo` as JavaScript evaluates it: `iconos[tipo]` also finds
      the members the table inherits from `Object.prototype`. */
  function IconoTipoAsWritten(tipo: string): (v: Value)
    ensures tipo !in PrototypeMembers ==> v == Str(IconoTipo(tipo))
    ensures tipo in PrototypeMembers ==> v == Inherited(tipo)
  {
    ReadOr(Iconos, tipo, UnknownIcon)
  }

  /** `colores[tipo] || '#6b7280'` as JavaScript evaluates it. */
  function ColorTipoAsWritten(tipo: string): (v: Value)
    ensures tipo !in PrototypeMembers ==> v == Str(ColorTipo(tipo))
    ensures tipo in PrototypeMembers ==> v == Inherited(tipo)
  {
    ReadOr(Colores, tipo, UnknownColor)
  }

  /** `textos[tipo] || tipo` as JavaScript evaluates it. */
  function TextoTipoAsWritten(tipo: string): (v: Value)
    ensures tipo !in PrototypeMembers ==> v == Str(TextoTipo(tipo))
    ensures tipo in PrototypeMembers ==> v == Inherited(tipo)
  {
    ReadOr(Textos, tipo, tipo)
  }

  /** A `tipo` such as 'toString' is unknown to the taxonomy, yet each table as
      written yields the inherited method instead of its fallback. */
  lemma AsWrittenMissesFallback()
    ensures TierOf("toString").None?
    ensures IconoTipoAsWritten("toString") == Inherited("toString")
    ensures ColorTipoAsWritten("toString") == Inherited("toString")
    ensures TextoTipoAsWritten("toString") == Inherited("toString")
    ensures IconoTipo("toString") == UnknownIcon && ColorTipo("toString") == UnknownColor
    ensures TextoTipo("toString") == "toString"
  {
    assert "toString" in PrototypeMembers;
  }

  /** One rendered alert row. */
  datatype Item = Item(
    key: int,
    borderColor: string,
    icon: string,
    titleColor: string,
    title: string,
    descripcion: string,
    location: Option<string>,
    fechaCreacion: int,
    badgeColor: string,
    badgeText: string)

  /** What the card renders: the loading placeholder, or the active-alert count
      with one row per alert. */
  datatype Screen = Loading | Listing(count: nat, items: seq<Item>)

  function RenderItem(a: Alerta): (it: Item)
    ensures it.key == a.id && it.descripcion == a.descripcion && it.fechaCreacion == a.fechaCreacion
    ensures it.icon == IconoTipo(a.tipo)
    ensures it.borderColor == it.titleColor == it.badgeColor == ColorTipo(a.tipo)
    ensures it.title == "Nivel " + TextoTipo(a.tipo) && it.badgeText == TextoTipo(a.tipo)
    ensures it.location.Some? <==> Truthy(a.ubicacion)
    ensures it.location.Some? ==> it.location == a.ubicacion
  {
    Item(a.id, ColorTipo(a.tipo), IconoTipo(a.tipo), ColorTipo(a.tipo),
         "Nivel " + TextoTipo(a.tipo), a.descripcion,
         if Truthy(a.ubicacion) then a.ubicacion else None,
         a.fechaCreacion, ColorTipo(a.tipo), TextoTipo(a.tipo))
  }

  /** The card: loading wins over any list; otherwise the count is the number
      of active alerts and the rows follow them one for one, in order. */
  function Render(alertasActivas: seq<Alerta>, loading: bool): (v: Screen)
    ensures loading <==> v.Loading?
    ensures v.Listing? ==> v.count == |alertasActivas| == |v.items|
    ensures v.Listing? ==> forall i :: 0 <= i < |v.items| ==> v.items[i] == RenderItem(alertasActivas[i])
  {
    if loading then Loading
    else Listing(|alertasActivas|, seq(|alertasActivas|, i requires 0 <= i < |alertasActivas| => RenderItem(alertasActivas[i])))
  }

  /** No alert is dropped, duplicated or reordered: row keys list the alert ids in order. */
  lemma RowsFollowAlerts(alertasActivas: seq<Alerta>)
    ensures var v := Render(alertasActivas, false);
      v.Listing? && |v.items| == |alertasActivas|
      && forall i :: 0 <= i < |v.items| ==>
           (v.items[i].key == alertasActivas[i].id && v.items[i].icon == IconoTipo(alertasActivas[i].tipo))
  {
  }
}
