/** The alert records the dashboard receives and the choice of the most
    recently resolved one. */
module Alerts {
  import opened Common

  /** One alert as the backend sends it. Timestamps are integers (the source
      parses ISO strings with `new Date`). */
  datatype Alerta = Alerta(
    id: int,
    tipo: string,
    descripcion: string,
    ubicacion: Option<string>,
    fechaCreacion: int,
    fechaResolucion: int,
    observaciones: Option<string>)

  /** No alert of `xs` was resolved later than its predecessor. */
  ghost predicate ByResolutionDesc(xs: seq<Alerta>) {
    forall i, j :: 0 <= i < j < |xs| ==> xs[i].fechaResolucion >= xs[j].fechaResolucion
  }

  /** Inserts `x` into the descending `sorted` after every alert resolved at the
      same time or later, so that equal keys keep their input order. */
  function Insert(x: Alerta, sorted: seq<Alerta>): (r: seq<Alerta>)
    ensures multiset(r) == multiset(sorted) + multiset{x}
    ensures |r| == |sorted| + 1
    ensures r[0] == (if sorted != [] && sorted[0].fechaResolucion >= x.fechaResolucion then sorted[0] else x)
  {
    if sorted == [] then [x]
    else if sorted[0].fechaResolucion >= x.fechaResolucion then
      var rest := Insert(x, sorted[1..]);
      assert sorted == [sorted[0]] + sorted[1..];
      [sorted[0]] + rest
    else [x] + sorted
  }

  /** Inserting into a descending sequence keeps it descending. */
  lemma {:induction false} InsertKeepsOrder(x: Alerta, sorted: seq<Alerta>)
    requires ByResolutionDesc(sorted)
    ensures ByResolutionDesc(Insert(x, sorted))
  {
    if sorted != [] && sorted[0].fechaResolucion >= x.fechaResolucion {
      var tail := sorted[1..];
      assert ByResolutionDesc(tail) by {
        forall i, j | 0 <= i < j < |tail| ensures tail[i].fechaResolucion >= tail[j].fechaResolucion {
          assert tail[i] == sorted[i + 1] && tail[j] == sorted[j + 1];
        }
      }
      InsertKeepsOrder(x, tail);
      var rest := Insert(x, tail);
      assert tail != [] ==> tail[0] == sorted[1];
      assert rest[0].fechaResolucion <= sorted[0].fechaResolucion;
      var r := [sorted[0]] + rest;
      forall i, j | 0 <= i < j < |r| ensures r[i].fechaResolucion >= r[j].fechaResolucion {
        assert r[j] == rest[j - 1];
        if i > 0 {
          assert r[i] == rest[i - 1];
        } else if j > 1 {
          assert rest[0].fechaResolucion >= rest[j - 1].fechaResolucion;
        }
      }
    } else if sorted != [] {
      var r := [x] + sorted;
      forall i, j | 0 <= i < j < |r| ensures r[i].fechaResolucion >= r[j].fechaResolucion {
        assert r[j] == sorted[j - 1];
        if i > 0 {
          assert r[i] == sorted[i - 1];
        } else if j > 1 {
          assert sorted[0].fechaResolucion >= sorted[j - 1].fechaResolucion;
        }
      }
    }
  }

  /** `response.sort((a, b) => new Date(b.fechaResolucion) - new Date(a.fechaResolucion))`:
      a stable sort (as `Array.prototype.sort` is since ES2019), newest first. */
  function SortByResolution(xs: seq<Alerta>): (r: seq<Alerta>)
    ensures multiset(r) == multiset(xs)
    ensures |r| == |xs|
    ensures ByResolutionDesc(r)
  {
    if xs == [] then []
    else
      assert xs == xs[..|xs| - 1] + [xs[|xs| - 1]];
      InsertKeepsOrder(xs[|xs| - 1], SortByResolution(xs[..|xs| - 1]));
      Insert(xs[|xs| - 1], SortByResolution(xs[..|xs| - 1]))
  }

  /** The index of the first alert of `xs` whose resolution time is maximal. */
  function LatestIndex(xs: seq<Alerta>): (k: nat)
    requires xs != []
    ensures k < |xs|
    ensures forall j :: 0 <= j < |xs| ==> xs[j].fechaResolucion <= xs[k].fechaResolucion
    ensures forall j :: 0 <= j < k ==> xs[j].fechaResolucion < xs[k].fechaResolucion
  {
    if |xs| == 1 then 0
    else
      var k := LatestIndex(xs[..|xs| - 1]);
      if xs[|xs| - 1].fechaResolucion > xs[k].fechaResolucion then |xs| - 1 else k
  }

  /** `alertasOrdenadas[0]`: the head of the sorted response is the first alert,
      in response order, among those resolved last. */
  lemma {:induction false} SortHeadIsLatest(xs: seq<Alerta>)
    requires xs != []
    ensures SortByResolution(xs)[0] == xs[LatestIndex(xs)]
  {
    if |xs| > 1 {
      var init := xs[..|xs| - 1];
      SortHeadIsLatest(init);
      assert init[LatestIndex(init)] == xs[LatestIndex(init)];
    }
  }

  /** The alert the dashboard shows as last resolved, out of a non-empty response. */
  function Latest(xs: seq<Alerta>): (a: Alerta)
    requires xs != []
    ensures a in xs
    ensures forall b :: b in xs ==> b.fechaResolucion <= a.fechaResolucion
    ensures a == xs[LatestIndex(xs)]
  {
    SortHeadIsLatest(xs);
    var r := SortByResolution(xs);
    assert r[0] in multiset(xs);
    r[0]
  }

  /** Ties are broken by response order and by nothing else: of two alerts
      resolved at the same latest time, the earlier one in the response wins. */
  lemma LatestPrefersEarlierOnTies(xs: seq<Alerta>, i: nat, j: nat)
    requires i < j < |xs|
    requires xs[i].fechaResolucion == xs[j].fechaResolucion
    requires forall b :: b in xs ==> b.fechaResolucion <= xs[i].fechaResolucion
    ensures Latest(xs) == xs[LatestIndex(xs)] && LatestIndex(xs) <= i
  {
  }
}
