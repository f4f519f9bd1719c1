/** The refresh cycle behind both status components: the state
    `(alertasActivas, ultimaAlertaResuelta, loading, error)` and the steps
    `cargarAlertasActivas`, `cargarUltimaAlertaResuelta` and `cargarDatos`,
    with every remote response supplied as a parameter. */
module AlertFeed {
  import opened Common
  import opened Alerts

  datatype Feed = Feed(
    alertasActivas: seq<Alerta>,
    ultimaAlertaResuelta: Option<Alerta>,
    loading: bool,
    error: Option<string>)

  /** The message set when the active alerts cannot be fetched. */
  const LoadError := "No se pudieron cargar las alertas"

  /** The state on mount: nothing fetched yet, and loading. */
  const Initial := Feed([], None, true, None)

  /** `setLoading(true)` at the start of `cargarAlertasActivas`, before the
      request is awaited. */
  function BeginActive(s: Feed): (s': Feed)
    ensures s'.loading
    ensures s'.alertasActivas == s.alertasActivas && s'.error == s.error
    ensures s'.ultimaAlertaResuelta == s.ultimaAlertaResuelta
  {
    s.(loading := true)
  }

  /** The rest of `cargarAlertasActivas` once the request settles: the
      `try` and `catch` branches, then `setLoading(false)` in `finally`. Every
      field of the result is fixed by the response and the resolved alert. */
  function FinishActive(s: Feed, response: Remote<seq<Alerta>>): (s': Feed)
    ensures response.Ok? ==> s'.alertasActivas == response.value && s'.error.None?
    ensures response.Fail? ==> s'.alertasActivas == [] && s'.error == Some(LoadError)
    ensures !s'.loading && s'.ultimaAlertaResuelta == s.ultimaAlertaResuelta
  {
    match response
    case Ok(list) => s.(alertasActivas := list, error := None, loading := false)
    case Fail(_) => s.(alertasActivas := [], error := Some(LoadError), loading := false)
  }

  /** `cargarAlertasActivas`: a response replaces the list and clears the
      error; a failure empties the list and sets the error. Either way loading
      ends, and the resolved alert is left alone. */
  function CargarAlertasActivas(s: Feed, response: Remote<seq<Alerta>>): (s': Feed)
    ensures response.Ok? ==> s'.alertasActivas == response.value && s'.error.None?
    ensures response.Fail? ==> s'.alertasActivas == [] && s'.error == Some(LoadError)
    ensures !s'.loading
    ensures s'.ultimaAlertaResuelta == s.ultimaAlertaResuelta
  {
    FinishActive(BeginActive(s), response)
  }

  /** `cargarUltimaAlertaResuelta`: a non-empty response selects its latest
      resolved alert, an empty one keeps the previous choice, a failure clears
      it. Nothing else in the state changes. */
  function CargarUltimaAlertaResuelta(s: Feed, response: Remote<seq<Alerta>>): (s': Feed)
    ensures response.Fail? ==> s'.ultimaAlertaResuelta.None?
    ensures response.Ok? && response.value == [] ==> s'.ultimaAlertaResuelta == s.ultimaAlertaResuelta
    ensures response.Ok? && response.value != [] ==>
      && s'.ultimaAlertaResuelta.Some?
      && s'.ultimaAlertaResuelta.value in response.value
      && (forall b :: b in response.value ==>
            b.fechaResolucion <= s'.ultimaAlertaResuelta.value.fechaResolucion)
      && s'.ultimaAlertaResuelta.value == response.value[LatestIndex(response.value)]
    ensures s'.alertasActivas == s.alertasActivas && s'.loading == s.loading && s'.error == s.error
  {
    match response
    case Ok(list) =>
      if |list| > 0 then s.(ultimaAlertaResuelta := Some(Latest(list))) else s
    case Fail(_) => s.(ultimaAlertaResuelta := None)
  }

  /** `cargarDatos`: the active step, then the resolved step, which runs
      whether or not the active step failed. */
  function CargarDatos(s: Feed, active: Remote<seq<Alerta>>, resolved: Remote<seq<Alerta>>): (s': Feed)
    ensures !s'.loading
    ensures s'.error.Some? <==> active.Fail?
  {
    CargarUltimaAlertaResuelta(CargarAlertasActivas(s, active), resolved)
  }

  /** The asymmetric failure policy: a cycle ends in error exactly when the
      active fetch failed, whatever the resolved fetch did; a failed resolved
      fetch only forgets the resolved alert. */
  lemma ErrorIffActiveFailed(s: Feed, active: Remote<seq<Alerta>>, resolved: Remote<seq<Alerta>>)
    ensures CargarDatos(s, active, resolved).error.Some? <==> active.Fail?
    ensures active.Ok? ==> CargarDatos(s, active, resolved).alertasActivas == active.value
    ensures active.Fail? ==> CargarDatos(s, active, resolved).alertasActivas == []
    ensures resolved.Fail? ==> CargarDatos(s, active, resolved).ultimaAlertaResuelta.None?
  {
  }

  /** Retry recovers: from any state, however many cycles failed before, a
      successful active fetch leaves no error behind. */
  lemma RetryClearsError(s: Feed, list: seq<Alerta>, resolved: Remote<seq<Alerta>>)
    ensures CargarDatos(s, Ok(list), resolved).error.None?
    ensures CargarDatos(s, Ok(list), resolved).alertasActivas == list
  {
  }

  /** One polling cycle's two responses. */
  datatype Cycle = Cycle(active: Remote<seq<Alerta>>, resolved: Remote<seq<Alerta>>)

  /** The state after the cycles `cs`, run one after the other from `s`: no
      cycle leaves nothing changed, and after at least one the panel has
      stopped loading and shows an error exactly when the last active fetch
      failed. */
  function Poll(s: Feed, cs: seq<Cycle>): (r: Feed)
    ensures cs == [] ==> r == s
    ensures cs != [] ==> !r.loading && (r.error.Some? <==> cs[|cs| - 1].active.Fail?)
    decreases |cs|
  {
    if cs == [] then s
    else Poll(CargarDatos(s, cs[0].active, cs[0].resolved), cs[1..])
  }

  /** The resolved response that last changed the choice: a failure or a
      non-empty list, the latest such among the cycles. */
  function LastInformative(cs: seq<Cycle>): (k: Option<nat>)
    ensures k.Some? ==> k.value < |cs| && !(cs[k.value].resolved.Ok? && cs[k.value].resolved.value == [])
    ensures k.Some? ==> forall j :: k.value < j < |cs| ==> cs[j].resolved.Ok? && cs[j].resolved.value == []
    ensures k.None? ==> forall j :: 0 <= j < |cs| ==> cs[j].resolved.Ok? && cs[j].resolved.value == []
    decreases |cs|
  {
    if cs == [] then None
    else if cs[|cs| - 1].resolved.Ok? && cs[|cs| - 1].resolved.value == [] then LastInformative(cs[..|cs| - 1])
    else Some(|cs| - 1)
  }

  /** What the cycles `cs` leave behind: the error and the active list are the
      last cycle's alone, and the resolved alert comes from the last resolved
      response that was not empty (cleared if that one failed), or is the
      starting one when every response was empty. */
  lemma {:induction false} PollOutcome(s: Feed, cs: seq<Cycle>)
    requires cs != []
    ensures var last := cs[|cs| - 1]; var s' := Poll(s, cs);
      && !s'.loading
      && (s'.error.Some? <==> last.active.Fail?)
      && s'.alertasActivas == (if last.active.Ok? then last.active.value else [])
      && s'.ultimaAlertaResuelta == (
           match LastInformative(cs)
           case None => s.ultimaAlertaResuelta
           case Some(k) =>
             if cs[k].resolved.Fail? then None else Some(Latest(cs[k].resolved.value)))
    decreases |cs|
  {
    var init := cs[..|cs| - 1];
    PollSnoc(s, init, cs[|cs| - 1]);
    assert cs == init + [cs[|cs| - 1]];
    if init != [] {
      PollOutcome(s, init);
      assert forall j :: 0 <= j < |init| ==> init[j] == cs[j];
    }
  }

  /** Running one more cycle after `cs` is one more `cargarDatos`. */
  lemma {:induction false} PollSnoc(s: Feed, cs: seq<Cycle>, c: Cycle)
    ensures Poll(s, cs + [c]) == CargarDatos(Poll(s, cs), c.active, c.resolved)
    decreases |cs|
  {
    if cs != [] {
      assert (cs + [c])[1..] == cs[1..] + [c];
      PollSnoc(CargarDatos(s, cs[0].active, cs[0].resolved), cs[1..], c);
    }
  }
}
