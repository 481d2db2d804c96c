/**
 * The events stage of the bulk importer (`POST` in app/api/import/route.ts):
 * each submitted event is tied to a head of cattle, by the id it carries or
 * by looking its cattle code up, or skipped and counted when neither works;
 * the rows that remain get their defaults and an id, and go to the store in
 * one upsert that ignores ids already stored.
 */
module ImportEvents {
  import opened Wrappers
  import opened Text
  import opened Uuid
  import opened Domain

  /** An event as submitted in the batch. */
  datatype EventInput = EventInput(
    id: Option<string>,
    bovinoId: Option<string>,
    bovinoCodigo: Option<string>,
    tipo: Option<string>,
    fecha: Option<string>,
    descripcion: Option<string>,
    medicamento: Option<string>,
    dosis: Option<string>,
    veterinario: Option<string>,
    observaciones: Option<string>,
    pesoKg: Option<real>,
    costo: Option<real>,
    ubicacion: Option<string>,
    hora: Option<string>,
    comprador: Option<string>,
    destino: Option<string>)

  const DefaultTipo: string := "Registro"

  /** The cattle id an event is tied to, or a falsy value when it is to be
      skipped: a truthy `bovino_id` is taken as given, without looking at
      the store; otherwise a truthy cattle code is looked up. */
  function ResolveCattle(cattle: map<string, CattleRecord>, ev: EventInput, fail: Faults): (r: Result<Option<string>, string>)
    ensures Truthy(ev.bovinoId) ==> r == Ok(ev.bovinoId)
    ensures r.Err? ==>
      && !Truthy(ev.bovinoId) && Truthy(ev.bovinoCodigo)
      && fail(SelectCattleByCode(ev.bovinoCodigo.value)) == Some(r.error)
  {
    if Truthy(ev.bovinoId) then Ok(ev.bovinoId)
    else if Truthy(ev.bovinoCodigo) then
      match fail(SelectCattleByCode(ev.bovinoCodigo.value))
      case Some(m) => Err(m)
      case None =>
        if ev.bovinoCodigo.value in cattle then Ok(Some(cattle[ev.bovinoCodigo.value].id)) else Ok(None)
    else Ok(ev.bovinoId)
  }

  /** The events the importer skips: no truthy `bovino_id`, and no truthy
      code of a stored head of cattle with a non-empty id. */
  predicate Unresolvable(cattle: map<string, CattleRecord>, ev: EventInput) {
    && !Truthy(ev.bovinoId)
    && (!Truthy(ev.bovinoCodigo) || ev.bovinoCodigo.value !in cattle || cattle[ev.bovinoCodigo.value].id == "")
  }

  /** When the lookup succeeds, an event is skipped exactly when it is unresolvable. */
  lemma ResolveSkipsUnresolvable(cattle: map<string, CattleRecord>, ev: EventInput, fail: Faults)
    requires ResolveCattle(cattle, ev, fail).Ok?
    ensures !Truthy(ResolveCattle(cattle, ev, fail).value) <==> Unresolvable(cattle, ev)
  {
  }

  /** The row written for an event tied to cattle id b (`row`), before its id is set. */
  function EventRowFor(ev: EventInput, b: string, today: string): (r: EventRow)
    ensures r.bovinoId == b
    ensures Truthy(ev.tipo) ==> r.tipo == ev.tipo.value
    ensures !Truthy(ev.tipo) ==> r.tipo == DefaultTipo
    ensures Truthy(ev.fecha) ==> r.fecha == ev.fecha.value
    ensures !Truthy(ev.fecha) ==> r.fecha == today
    ensures r.descripcion == ev.descripcion && r.medicamento == ev.medicamento && r.dosis == ev.dosis
    ensures r.veterinario == ev.veterinario && r.observaciones == ev.observaciones
    ensures r.pesoKg == ev.pesoKg && r.costo == ev.costo && r.ubicacion == ev.ubicacion
    ensures r.hora == ev.hora && r.comprador == ev.comprador && r.destino == ev.destino
    ensures r.litros.None? && r.turno.None? && r.gmd.None?
  {
    EventRow(
      b,
      OrElse(ev.tipo, DefaultTipo),
      OrElse(ev.fecha, today),
      ev.descripcion, ev.medicamento, ev.dosis, ev.veterinario, ev.observaciones,
      ev.pesoKg, ev.costo, ev.ubicacion, ev.hora, ev.comprador, ev.destino,
      None, None, None)
  }

  /** The text hashed for a derived id: cattle id, type, date and description
      (or "" when it is null), joined by '|'. */
  function HashBase(row: EventRow): string {
    row.bovinoId + "|" + row.tipo + "|" + row.fecha + "|" + (if row.descripcion.Some? then row.descripcion.value else "")
  }

  /** The id an event row is stored under: the submitted one when it is a valid
      UUID, else the MD5 digest of the hash text laid out as 8-4-4-4-12. */
  function EventId(ev: EventInput, row: EventRow, md5: string -> Digest): (id: string)
    ensures IsUuid(ev.id) ==> id == ev.id.value
    ensures IsUuid(Some(id))
  {
    if IsUuid(ev.id) then ev.id.value
    else
      FormattedDigestIsUuid(md5(HashBase(row)));
      FormatDigest(md5(HashBase(row)))
  }

  /** A derived id depends only on the cattle id, type, date and description
      of the row: events that agree on those share an id whatever else they carry. */
  lemma DerivedIdDependsOnHashFields(ev1: EventInput, row1: EventRow, ev2: EventInput, row2: EventRow, md5: string -> Digest)
    requires !IsUuid(ev1.id) && !IsUuid(ev2.id)
    requires row1.bovinoId == row2.bovinoId && row1.tipo == row2.tipo && row1.fecha == row2.fecha
    requires row1.descripcion == row2.descripcion
    ensures EventId(ev1, row1, md5) == EventId(ev2, row2, md5)
  {
    assert HashBase(row1) == HashBase(row2);
  }

  /** Distinct digests give distinct derived ids. */
  lemma DerivedIdInjective(h1: Digest, h2: Digest)
    requires FormatDigest(h1) == FormatDigest(h2)
    ensures h1 == h2
  {
    FormatDigestRoundTrip(h1);
    FormatDigestRoundTrip(h2);
  }

  /** A row to write with its id. */
  datatype Keyed = Keyed(id: string, row: EventRow)

  /** The rows to write and the number of skipped events. */
  datatype Collected = Collected(rows: seq<Keyed>, skipped: nat)

  /** Number of unresolvable events in evs. */
  function CountUnresolvable(cattle: map<string, CattleRecord>, evs: seq<EventInput>): (n: nat)
    ensures n <= |evs|
    decreases |evs|
  {
    if evs == [] then 0
    else (if Unresolvable(cattle, evs[0]) then 1 else 0) + CountUnresolvable(cattle, evs[1..])
  }

  /** Every row ties its event to a non-empty cattle id and carries an id that passes `isUuid`. */
  predicate WellFormedRows(rows: seq<Keyed>) {
    forall i :: 0 <= i < |rows| ==> rows[i].row.bovinoId != "" && IsUuid(Some(rows[i].id))
  }

  /** The loop over the events: resolve, skip, build the row and its id; the
      first failing lookup ends the loop with its error. */
  function CollectEvents(cattle: map<string, CattleRecord>, evs: seq<EventInput>, today: string, md5: string -> Digest, fail: Faults): (r: Result<Collected, string>)
    ensures r.Ok? ==> |r.value.rows| + r.value.skipped == |evs|
    ensures r.Ok? ==> WellFormedRows(r.value.rows)
    decreases |evs|
  {
    if evs == [] then Ok(Collected([], 0))
    else
      match ResolveCattle(cattle, evs[0], fail)
      case Err(m) => Err(m)
      case Ok(b) =>
        match CollectEvents(cattle, evs[1..], today, md5, fail)
        case Err(m) => Err(m)
        case Ok(rest) =>
          if !Truthy(b) then Ok(Collected(rest.rows, rest.skipped + 1))
          else
            var row := EventRowFor(evs[0], b.value, today);
            Ok(Collected([Keyed(EventId(evs[0], row, md5), row)] + rest.rows, rest.skipped))
  }

  /** The skipped count is the number of unresolvable events. */
  lemma {:induction false} CollectCountsSkipped(cattle: map<string, CattleRecord>, evs: seq<EventInput>, today: string, md5: string -> Digest, fail: Faults)
    requires CollectEvents(cattle, evs, today, md5, fail).Ok?
    ensures CollectEvents(cattle, evs, today, md5, fail).value.skipped == CountUnresolvable(cattle, evs)
    decreases |evs|
  {
    if evs != [] {
      ResolveSkipsUnresolvable(cattle, evs[0], fail);
      CollectCountsSkipped(cattle, evs[1..], today, md5, fail);
    }
  }

  /** The collection fails only with the error of a refused cattle lookup. */
  lemma {:induction false} CollectFailure(cattle: map<string, CattleRecord>, evs: seq<EventInput>, today: string, md5: string -> Digest, fail: Faults)
    requires CollectEvents(cattle, evs, today, md5, fail).Err?
    ensures exists c :: fail(SelectCattleByCode(c)) == Some(CollectEvents(cattle, evs, today, md5, fail).error)
    decreases |evs|
  {
    var e := ResolveCattle(cattle, evs[0], fail);
    if e.Err? {
      assert fail(SelectCattleByCode(evs[0].bovinoCodigo.value)) == Some(e.error);
    } else {
      CollectFailure(cattle, evs[1..], today, md5, fail);
    }
  }

  /** The cattle id an event is tied to once its lookup has gone through: a
      truthy `bovino_id`, else the id stored under its truthy code, else "". */
  function CattleIdOf(cattle: map<string, CattleRecord>, ev: EventInput): string {
    if Truthy(ev.bovinoId) then ev.bovinoId.value
    else if Truthy(ev.bovinoCodigo) && ev.bovinoCodigo.value in cattle then cattle[ev.bovinoCodigo.value].id
    else ""
  }

  /** A lookup that goes through ties a resolvable event to its cattle id. */
  lemma ResolveFindsCattleId(cattle: map<string, CattleRecord>, ev: EventInput, fail: Faults)
    requires ResolveCattle(cattle, ev, fail).Ok? && !Unresolvable(cattle, ev)
    ensures ResolveCattle(cattle, ev, fail).value == Some(CattleIdOf(cattle, ev))
  {
  }

  /** The row an event tied to its cattle is written as, under its id: the
      defaulted row, and the id derived from that row unless a valid one was given. */
  function KeyedFor(cattle: map<string, CattleRecord>, ev: EventInput, today: string, md5: string -> Digest): Keyed {
    var row := EventRowFor(ev, CattleIdOf(cattle, ev), today);
    Keyed(EventId(ev, row, md5), row)
  }

  /** The rows the events loop is meant to produce: one per resolvable event,
      in submission order, the unresolvable ones left out. */
  function Expected(cattle: map<string, CattleRecord>, evs: seq<EventInput>, today: string, md5: string -> Digest): seq<Keyed>
    decreases |evs|
  {
    if evs == [] then []
    else
      (if Unresolvable(cattle, evs[0]) then [] else [KeyedFor(cattle, evs[0], today, md5)])
      + Expected(cattle, evs[1..], today, md5)
  }

  /** When every lookup goes through, the loop produces exactly the expected rows. */
  lemma {:induction false} CollectRowsExpected(cattle: map<string, CattleRecord>, evs: seq<EventInput>, today: string, md5: string -> Digest, fail: Faults)
    requires CollectEvents(cattle, evs, today, md5, fail).Ok?
    ensures CollectEvents(cattle, evs, today, md5, fail).value.rows == Expected(cattle, evs, today, md5)
    decreases |evs|
  {
    if evs != [] {
      ResolveSkipsUnresolvable(cattle, evs[0], fail);
      if !Unresolvable(cattle, evs[0]) {
        ResolveFindsCattleId(cattle, evs[0], fail);
      }
      CollectRowsExpected(cattle, evs[1..], today, md5, fail);
    }
  }

  /** rows[i] is the first entry of rows with key k, and it holds row. */
  predicate FirstWith(rows: seq<Keyed>, k: string, row: EventRow) {
    exists i :: 0 <= i < |rows| && rows[i] == Keyed(k, row) && forall j :: 0 <= j < i ==> rows[j].id != k
  }

  /** What an insert of rows that ignores duplicates leaves: every new key
      holds the first row with that key, and every row's key is stored. */
  ghost predicate WritesFirst(before: map<string, EventRow>, after: map<string, EventRow>, rows: seq<Keyed>) {
    && (forall k :: k in after && k !in before ==> FirstWith(rows, k, after[k]))
    && (forall i :: 0 <= i < |rows| ==> rows[i].id in after)
  }

  /** The ids of a list of rows. */
  function RowIds(rows: seq<Keyed>): set<string> {
    set i | 0 <= i < |rows| :: rows[i].id
  }

  /** The upsert with `ignoreDuplicates`: a row whose id is already stored,
      or was written earlier in the same list, is dropped. */
  function InsertNew(events: map<string, EventRow>, rows: seq<Keyed>): (r: map<string, EventRow>)
    decreases |rows|
  {
    if rows == [] then events
    else
      var next := if rows[0].id in events then events else events[rows[0].id := rows[0].row];
      InsertNew(next, rows[1..])
  }

  /** Every key of after missing from before holds the row of some entry of rows with that key. */
  ghost predicate NewFrom(before: map<string, EventRow>, after: map<string, EventRow>, rows: seq<Keyed>) {
    forall k :: k in after && k !in before ==> exists i :: 0 <= i < |rows| && rows[i] == Keyed(k, after[k])
  }

  /** Stored events are kept as they were, and the only new keys are row ids,
      each holding the row of some list entry with that id. */
  lemma {:induction false} InsertNewKeeps(events: map<string, EventRow>, rows: seq<Keyed>)
    ensures var r := InsertNew(events, rows);
      && r.Keys == events.Keys + RowIds(rows)
      && (forall k :: k in events ==> r[k] == events[k])
      && NewFrom(events, r, rows)
    decreases |rows|
  {
    if rows == [] {
      assert RowIds(rows) == {};
    } else {
      var next := if rows[0].id in events then events else events[rows[0].id := rows[0].row];
      InsertNewKeeps(next, rows[1..]);
      RowIdsCons(rows);
      NewFromStep(events, rows, next, InsertNew(next, rows[1..]));
    }
  }

  /** The ids of a non-empty list are the first id and those of the rest. */
  lemma RowIdsCons(rows: seq<Keyed>)
    requires rows != []
    ensures RowIds(rows) == {rows[0].id} + RowIds(rows[1..])
  {
    forall k | k in RowIds(rows[1..]) ensures k in RowIds(rows) {
      var i :| 0 <= i < |rows[1..]| && rows[1..][i].id == k;
      assert rows[i + 1].id == k;
    }
  }

  /** New rows come from the list one entry at a time. */
  lemma NewFromStep(events: map<string, EventRow>, rows: seq<Keyed>, next: map<string, EventRow>, r: map<string, EventRow>)
    requires rows != []
    requires next == if rows[0].id in events then events else events[rows[0].id := rows[0].row]
    requires NewFrom(next, r, rows[1..]) && forall k :: k in next ==> k in r && r[k] == next[k]
    ensures NewFrom(events, r, rows)
  {
    forall k | k in r && k !in events ensures exists i :: 0 <= i < |rows| && rows[i] == Keyed(k, r[k]) {
      if k in next {
        assert rows[0] == Keyed(k, r[k]);
      } else {
        var i :| 0 <= i < |rows[1..]| && rows[1..][i] == Keyed(k, r[k]);
        assert rows[i + 1] == Keyed(k, r[k]);
      }
    }
  }

  /** Writing the same rows again changes nothing: every id is stored by then. */
  lemma {:induction false} InsertNewIdempotent(events: map<string, EventRow>, rows: seq<Keyed>)
    ensures InsertNew(InsertNew(events, rows), rows) == InsertNew(events, rows)
  {
    var r := InsertNew(events, rows);
    InsertNewKeeps(events, rows);
    InsertNewKeeps(r, rows);
    assert InsertNew(r, rows).Keys == r.Keys;
  }

  /** The events stage: the collected rows (if any) in one upsert, or the
      error of the first failing call, with the number of skipped events. */
  datatype EventsOutcome = EventsOutcome(events: map<string, EventRow>, failure: Option<string>, skipped: nat)

  function EventsStage(s: Store, evs: seq<EventInput>, today: string, md5: string -> Digest, fail: Faults): (r: EventsOutcome)
    ensures r.failure.Some? ==> r.events == s.events
    ensures r.failure.None? ==> r.skipped <= |evs|
    ensures forall k :: k in s.events ==> k in r.events && r.events[k] == s.events[k]
  {
    if evs == [] then EventsOutcome(s.events, None, 0)
    else
      match CollectEvents(s.cattle, evs, today, md5, fail)
      case Err(m) => EventsOutcome(s.events, Some(m), 0)
      case Ok(c) =>
        if c.rows == [] then EventsOutcome(s.events, None, c.skipped)
        else
          match fail(UpsertEvents)
          case Some(m) => EventsOutcome(s.events, Some(m), 0)
          case None =>
            InsertNewKeeps(s.events, c.rows);
            EventsOutcome(InsertNew(s.events, c.rows), None, c.skipped)
  }

  /** A successful events stage skips exactly the unresolvable events, keeps
      every stored event as it was, writes only rows tied to a non-empty
      cattle id, and writes the expected rows: each new key holds the first
      expected row with that key, and every expected row's key is stored. */
  lemma EventsStageWrites(s: Store, evs: seq<EventInput>, today: string, md5: string -> Digest, fail: Faults)
    requires EventsStage(s, evs, today, md5, fail).failure.None?
    ensures var r := EventsStage(s, evs, today, md5, fail);
      && r.skipped == CountUnresolvable(s.cattle, evs)
      && (forall k :: k in s.events ==> k in r.events && r.events[k] == s.events[k])
      && (forall k :: k in r.events && k !in s.events ==> r.events[k].bovinoId != "" && IsUuid(Some(k)))
      && WritesFirst(s.events, r.events, Expected(s.cattle, evs, today, md5))
  {
    if evs != [] {
      var c := CollectEvents(s.cattle, evs, today, md5, fail);
      CollectCountsSkipped(s.cattle, evs, today, md5, fail);
      CollectRowsExpected(s.cattle, evs, today, md5, fail);
      if c.value.rows != [] {
        InsertNewWellFormed(s.events, c.value.rows);
        InsertNewFirstWins(s.events, c.value.rows);
      }
    }
  }

  /** The insert keeps the first row of each new key and stores every key. */
  lemma {:induction false} InsertNewFirstWins(events: map<string, EventRow>, rows: seq<Keyed>)
    ensures WritesFirst(events, InsertNew(events, rows), rows)
    decreases |rows|
  {
    if rows != [] {
      var next := if rows[0].id in events then events else events[rows[0].id := rows[0].row];
      var r := InsertNew(next, rows[1..]);
      InsertNewFirstWins(next, rows[1..]);
      InsertNewKeeps(next, rows[1..]);
      forall k | k in r && k !in events ensures FirstWith(rows, k, r[k]) {
        FirstWithStep(rows, k, r[k], k in next);
      }
    }
  }

  /** The first row with key k is the head's when the head has key k, and
      otherwise the first of the rest. */
  lemma FirstWithStep(rows: seq<Keyed>, k: string, row: EventRow, atHead: bool)
    requires rows != []
    requires atHead ==> rows[0] == Keyed(k, row)
    requires !atHead ==> rows[0].id != k && FirstWith(rows[1..], k, row)
    ensures FirstWith(rows, k, row)
  {
    if !atHead {
      var i :| 0 <= i < |rows[1..]| && rows[1..][i] == Keyed(k, row) && forall j :: 0 <= j < i ==> rows[1..][j].id != k;
      assert rows[i + 1] == Keyed(k, row);
      forall j | 0 <= j < i + 1 ensures rows[j].id != k {
        if j > 0 {
          assert rows[j] == rows[1..][j - 1];
        }
      }
    }
  }

  /** Well-formed rows add only events tied to cattle under UUID keys. */
  lemma InsertNewWellFormed(events: map<string, EventRow>, rows: seq<Keyed>)
    requires WellFormedRows(rows)
    ensures forall k :: k in InsertNew(events, rows) && k !in events ==>
      InsertNew(events, rows)[k].bovinoId != "" && IsUuid(Some(k))
  {
    var r := InsertNew(events, rows);
    InsertNewKeeps(events, rows);
    forall k | k in r && k !in events ensures r[k].bovinoId != "" && IsUuid(Some(k)) {
      var i :| 0 <= i < |rows| && rows[i] == Keyed(k, r[k]);
    }
  }

  /** A failing events stage reports the error of a refused lookup by code
      or of the refused upsert. */
  lemma EventsStageFailure(s: Store, evs: seq<EventInput>, today: string, md5: string -> Digest, fail: Faults)
    requires EventsStage(s, evs, today, md5, fail).failure.Some?
    ensures var m := EventsStage(s, evs, today, md5, fail).failure;
      fail(UpsertEvents) == m || exists c :: fail(SelectCattleByCode(c)) == m
  {
    if CollectEvents(s.cattle, evs, today, md5, fail).Err? {
      CollectFailure(s.cattle, evs, today, md5, fail);
    }
  }

  /** Running a successful events stage again on what it left changes nothing
      and skips the same events. */
  lemma EventsStageIdempotent(s: Store, evs: seq<EventInput>, today: string, md5: string -> Digest, fail: Faults)
    requires EventsStage(s, evs, today, md5, fail).failure.None?
    ensures var r := EventsStage(s, evs, today, md5, fail);
      EventsStage(s.(events := r.events), evs, today, md5, fail) == r
  {
    var c := CollectEvents(s.cattle, evs, today, md5, fail);
    if evs != [] && c.value.rows != [] {
      InsertNewIdempotent(s.events, c.value.rows);
    }
  }
}
