/**
 * The statistics of the reports page (app/reportes/page.tsx): totals, the
 * active and inactive head counts, and histograms of events by type and of
 * cattle by breed, sex and state, a missing value counted as 'Sin especificar'.
 */
module Reports {
  import opened Wrappers
  import opened Text
  import opened Domain
  import opened Lists
  import opened Histogram

  const Unspecified: string := "Sin especificar"
  const Active: string := "Activo"
  const Inactive: string := "Inactivo"

  /** `value || 'Sin especificar'`. */
  function Label(o: Option<string>): (l: string)
    ensures l != ""
    ensures Truthy(o) ==> l == o.value
  {
    OrElse(o, Unspecified)
  }

  /** Which column of a cattle row a histogram groups by. */
  datatype Column = Raza | Sexo | Estado

  function ColumnOf(b: Bovino, c: Column): Option<string> {
    match c
    case Raza => b.raza
    case Sexo => b.sexo
    case Estado => b.estado
  }

  /** The label of every row for one column, in list order. */
  function Labels(bs: seq<Bovino>, c: Column): (ls: seq<string>)
    ensures |ls| == |bs|
    ensures forall i :: 0 <= i < |bs| ==> ls[i] == Label(ColumnOf(bs[i], c))
  {
    seq(|bs|, i requires 0 <= i < |bs| => Label(ColumnOf(bs[i], c)))
  }

  function EventTypes(es: seq<EventRow>): (ls: seq<string>)
    ensures |ls| == |es|
    ensures forall i :: 0 <= i < |es| ==> ls[i] == es[i].tipo
  {
    seq(|es|, i requires 0 <= i < |es| => es[i].tipo)
  }

  predicate IsActive(b: Bovino) {
    b.estado == Some(Active)
  }

  predicate IsInactive(b: Bovino) {
    b.estado == Some(Inactive)
  }

  /** Everything the page computes from the three tables. */
  datatype Stats = Stats(
    totalBovinos: nat,
    bovinosActivos: nat,
    bovinosInactivos: nat,
    totalPropietarios: nat,
    totalEventos: nat,
    eventosPorTipo: seq<Bucket>,
    bovinosPorRaza: seq<Bucket>,
    bovinosPorSexo: seq<Bucket>,
    bovinosPorEstado: seq<Bucket>)

  /** `res.data || []`: a failed read shows as an empty table. */
  function OrEmpty<T>(data: Option<seq<T>>): seq<T> {
    if data.Some? then data.value else []
  }

  /** `cargarEstadisticas`, given what each of the three reads returned. */
  function Statistics(bovinos: Option<seq<Bovino>>, propietarios: Option<seq<OwnerRow>>, eventos: Option<seq<EventRow>>): (r: Stats)
    ensures r.totalBovinos == |OrEmpty(bovinos)| && r.totalPropietarios == |OrEmpty(propietarios)|
    ensures r.totalEventos == |OrEmpty(eventos)|
    ensures r.bovinosActivos + r.bovinosInactivos <= r.totalBovinos
    ensures Total(r.eventosPorTipo) == r.totalEventos
    ensures Total(r.bovinosPorRaza) == r.totalBovinos && Total(r.bovinosPorSexo) == r.totalBovinos
    ensures Total(r.bovinosPorEstado) == r.totalBovinos
    ensures "" !in Keys(r.bovinosPorRaza) + Keys(r.bovinosPorSexo) + Keys(r.bovinosPorEstado)
  {
    var bs := OrEmpty(bovinos);
    var es := OrEmpty(eventos);
    DisjointCounts(bs, IsActive, IsInactive);
    NoEmptyKey(bs, Raza);
    NoEmptyKey(bs, Sexo);
    NoEmptyKey(bs, Estado);
    Stats(
      |bs|,
      CountWhere(bs, IsActive),
      CountWhere(bs, IsInactive),
      |OrEmpty(propietarios)|,
      |es|,
      Tally(EventTypes(es)),
      Tally(Labels(bs, Raza)),
      Tally(Labels(bs, Sexo)),
      Tally(Labels(bs, Estado)))
  }

  /** No row is counted under an empty key. */
  lemma NoEmptyKey(bs: seq<Bovino>, c: Column)
    ensures "" !in Keys(Tally(Labels(bs, c)))
  {
  }

  /** Counting rows whose state is exactly k agrees with the bucket k of the
      state histogram, for any k that is neither empty nor the placeholder. */
  lemma {:induction false} StateCountIsBucket(bs: seq<Bovino>, k: string, p: Bovino -> bool)
    requires k != "" && k != Unspecified
    requires forall b :: p(b) <==> b.estado == Some(k)
    ensures CountWhere(bs, p) == multiset(Labels(bs, Estado))[k]
    decreases |bs|
  {
    if bs != [] {
      StateCountIsBucket(bs[1..], k, p);
      var ls := Labels(bs, Estado);
      assert ls[1..] == Labels(bs[1..], Estado);
      MultisetFirst(ls);
      assert ls[0] == k <==> p(bs[0]);
    }
  }

  /** A list's multiset is its first element plus the multiset of the rest. */
  lemma MultisetFirst(xs: seq<string>)
    requires xs != []
    ensures multiset(xs) == multiset{xs[0]} + multiset(xs[1..])
  {
    assert xs == [xs[0]] + xs[1..];
  }

  /** The active and inactive counts are the 'Activo' and 'Inactivo' buckets
      of the state histogram. */
  lemma ActiveCountsAreStateBuckets(bovinos: Option<seq<Bovino>>, propietarios: Option<seq<OwnerRow>>, eventos: Option<seq<EventRow>>)
    ensures var r := Statistics(bovinos, propietarios, eventos);
      && r.bovinosActivos == Get(r.bovinosPorEstado, Active)
      && r.bovinosInactivos == Get(r.bovinosPorEstado, Inactive)
  {
    var bs := OrEmpty(bovinos);
    StateCountIsBucket(bs, Active, IsActive);
    StateCountIsBucket(bs, Inactive, IsInactive);
    TallyCounts(Labels(bs, Estado), Active);
    TallyCounts(Labels(bs, Estado), Inactive);
  }

  /** Each event type counts the events of that type. */
  lemma EventTypeCounts(es: seq<EventRow>, t: string)
    ensures Get(Statistics(None, None, Some(es)).eventosPorTipo, t) == multiset(EventTypes(es))[t]
  {
    TallyCounts(EventTypes(es), t);
  }

  /** The 'Sin especificar' bucket of a column counts the rows with no
      value, an empty value or the placeholder itself in that column. */
  lemma {:induction false} UnspecifiedBucket(bs: seq<Bovino>, c: Column)
    ensures multiset(Labels(bs, c))[Unspecified] == CountWhere(bs, (b: Bovino) => !Truthy(ColumnOf(b, c)) || ColumnOf(b, c) == Some(Unspecified))
    decreases |bs|
  {
    if bs != [] {
      UnspecifiedBucket(bs[1..], c);
      assert Labels(bs, c) == [Label(ColumnOf(bs[0], c))] + Labels(bs[1..], c);
    }
  }
}
