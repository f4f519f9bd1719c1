/** The alert-severity taxonomy the backend speaks in three spellings: a short
    Spanish form, a prefixed backend form and an English colour name. This
    module is the reference every display table is checked against. */
module Severity {
  import opened Common

  datatype Tier = Alto | Medio | Bajo

  /** 'ALTO' / 'MEDIO' / 'BAJO': also the label every table normalises to. */
  function ShortForm(t: Tier): string {
    match t
    case Alto => "ALTO"
    case Medio => "MEDIO"
    case Bajo => "BAJO"
  }

  function BackendForm(t: Tier): string {
    match t
    case Alto => "ALERTA_ROJA"
    case Medio => "ALERTA_AMARILLA"
    case Bajo => "ALERTA_VERDE"
  }

  function ColourName(t: Tier): string {
    match t
    case Alto => "RED"
    case Medio => "YELLOW"
    case Bajo => "GREEN"
  }

  /** `tipo` is one of the three spellings of tier `t`. */
  predicate Encodes(t: Tier, tipo: string) {
    tipo == ShortForm(t) || tipo == BackendForm(t) || tipo == ColourName(t)
  }

  /** The tier a raw `tipo` stands for, or `None` when it is none of the nine
      known spellings. */
  function TierOf(tipo: string): (r: Option<Tier>)
    ensures forall t :: r == Some(t) <==> Encodes(t, tipo)
  {
    if Encodes(Alto, tipo) then Some(Alto)
    else if Encodes(Medio, tipo) then Some(Medio)
    else if Encodes(Bajo, tipo) then Some(Bajo)
    else None
  }

  /** The traffic-light icon every card gives a tier. */
  function TierIcon(t: Tier): string {
    match t
    case Alto => "🔴"
    case Medio => "🟡"
    case Bajo => "🟢"
  }

  /** The icon and colour every card gives a `tipo` it does not recognise. */
  const UnknownIcon := "⚪"
  const UnknownColor := "#6b7280"
}
