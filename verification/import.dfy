/**
 * The bulk importer (`POST` in app/api/import/route.ts) as a whole: owners,
 * then cattle, then events, each stage starting from what the previous one
 * wrote; a failing stage answers with its error tagged with the stage's name
 * and no later stage runs, while whatever was written stays.
 */
module Import {
  import opened Wrappers
  import opened Text
  import opened Uuid
  import opened Domain
  import opened ImportOwners
  import opened ImportCattle
  import opened ImportEvents

  /** A request body; an absent list is an empty one. */
  datatype Batch = Batch(propietarios: seq<OwnerInput>, bovinos: seq<Bovino>, eventos: seq<EventInput>)

  datatype StageName = Propietarios | Bovinos | Eventos

  /** The tag a failing stage reports. */
  function Tag(st: StageName): string {
    match st
    case Propietarios => "propietarios"
    case Bovinos => "bovinos"
    case Eventos => "eventos"
  }

  /** The counts of a successful import. */
  datatype Counts = Counts(propietarios: nat, bovinos: nat, eventosInsertados: nat, eventosOmitidos: nat)

  /** The answer of the importer. */
  datatype Response =
    | Imported(counts: Counts)
    | StageFailed(stage: StageName, error: string)
    | MissingServiceKey

  const MissingServiceKeyMessage: string := "Falta SUPABASE_SERVICE_ROLE"

  /** `e?.message || 'Error <stage>'`. */
  function ErrorText(m: string, st: StageName): (t: string)
    ensures t != ""
    ensures m != "" ==> t == m
  {
    if m != "" then m else "Error " + Tag(st)
  }

  /** The error text of a response, as the body's `error` field carries it. */
  function ErrorMessage(r: Response): Option<string> {
    match r
    case Imported(_) => None
    case StageFailed(st, m) => Some(ErrorText(m, st))
    case MissingServiceKey => Some(MissingServiceKeyMessage)
  }

  /** The store after an import and the answer. */
  datatype ImportRun = ImportRun(store: Store, response: Response)

  /** The importer. `today` is the date that defaults a missing event date,
      `md5` the digest function, `fail` the calls the store refuses. */
  function Import(s: Store, b: Batch, hasServiceKey: bool, today: string, md5: string -> Digest, fail: Faults): (r: ImportRun)
    ensures !hasServiceKey ==> r == ImportRun(s, MissingServiceKey)
    ensures r.response.Imported? ==>
      && r.response.counts.propietarios == |b.propietarios|
      && r.response.counts.bovinos == |b.bovinos|
      && r.response.counts.eventosInsertados + r.response.counts.eventosOmitidos == |b.eventos|
    ensures r.response.StageFailed? && r.response.stage == Propietarios ==>
      r.store.cattle == s.cattle && r.store.events == s.events
    ensures r.response.StageFailed? && r.response.stage == Bovinos ==>
      r.store.cattle == s.cattle && r.store.events == s.events
    ensures r.response.StageFailed? && r.response.stage == Eventos ==>
      r.store.events == s.events
    ensures s.owners.Keys <= r.store.owners.Keys && s.cattle.Keys <= r.store.cattle.Keys
    ensures s.events.Keys <= r.store.events.Keys
  {
    if !hasServiceKey then ImportRun(s, MissingServiceKey)
    else
      var o := OwnersStage(s.owners, b.propietarios, fail);
      var s1 := Store(o.state, s.cattle, s.events);
      if o.failure.Some? then ImportRun(s1, StageFailed(Propietarios, o.failure.value))
      else
        var c := CattleStage(s.cattle, b.bovinos, fail);
        if c.failure.Some? then ImportRun(s1, StageFailed(Bovinos, c.failure.value))
        else
          var s2 := Store(o.state, c.state, s.events);
          var e := EventsStage(s2, b.eventos, today, md5, fail);
          if e.failure.Some? then ImportRun(s2, StageFailed(Eventos, e.failure.value))
          else
            var n := |b.eventos|;
            ImportRun(Store(o.state, c.state, e.events), Imported(Counts(|b.propietarios|, |b.bovinos|, n - e.skipped, e.skipped)))
  }

  /** A failing owner stops the import where it failed: the owners stored are
      those the owners before it left, and nothing else has changed. */
  lemma ImportOwnersFailure(s: Store, b: Batch, today: string, md5: string -> Digest, fail: Faults)
    requires Import(s, b, true, today, md5, fail).response.StageFailed?
    requires Import(s, b, true, today, md5, fail).response.stage == Propietarios
    ensures exists k ::
      && 0 <= k < |b.propietarios|
      && FailsAt(s.owners, b.propietarios, fail, k)
      && Import(s, b, true, today, md5, fail).store == s.(owners := OwnersStage(s.owners, b.propietarios[..k], fail).state)
  {
    OwnersStageFailure(s.owners, b.propietarios, fail);
  }

  /** A refused cattle upsert keeps every owner write and changes no cattle
      or event; its answer carries the store's message, or 'Error bovinos'. */
  lemma ImportCattleFailure(s: Store, b: Batch, today: string, md5: string -> Digest, fail: Faults)
    requires Import(s, b, true, today, md5, fail).response.StageFailed?
    requires Import(s, b, true, today, md5, fail).response.stage == Bovinos
    ensures var r := Import(s, b, true, today, md5, fail);
      && OwnersStage(s.owners, b.propietarios, fail).failure.None?
      && r.store == s.(owners := OwnersStage(s.owners, b.propietarios, fail).state)
      && b.bovinos != []
      && fail(UpsertCattle) == Some(r.response.error)
  {
  }

  /** A failing events stage keeps the owner and cattle writes and changes no
      event; its error is that of a refused lookup or of the refused upsert. */
  lemma ImportEventsFailure(s: Store, b: Batch, today: string, md5: string -> Digest, fail: Faults)
    requires Import(s, b, true, today, md5, fail).response.StageFailed?
    requires Import(s, b, true, today, md5, fail).response.stage == Eventos
    ensures var r := Import(s, b, true, today, md5, fail);
      && r.store.owners == OwnersStage(s.owners, b.propietarios, fail).state
      && r.store.cattle == UpsertAll(s.cattle, b.bovinos)
      && r.store.events == s.events
      && (fail(UpsertEvents) == Some(r.response.error) || exists c :: fail(SelectCattleByCode(c)) == Some(r.response.error))
  {
    var o := OwnersStage(s.owners, b.propietarios, fail);
    var c := CattleStage(s.cattle, b.bovinos, fail);
    CattleStageWrites(s.cattle, b.bovinos, fail, c);
    EventsStageFailure(Store(o.state, c.state, s.events), b.eventos, today, md5, fail);
  }

  /** A successful import skips exactly the events it cannot tie to cattle,
      writes no event without a cattle id or with an id `isUuid` rejects,
      leaves every stored event as it was, and stores the expected row of
      every event tied to the cattle the import left, the first one of each id. */
  lemma ImportEventsWritten(s: Store, b: Batch, today: string, md5: string -> Digest, fail: Faults)
    requires Import(s, b, true, today, md5, fail).response.Imported?
    ensures var r := Import(s, b, true, today, md5, fail);
      && r.response.counts.eventosOmitidos == CountUnresolvable(r.store.cattle, b.eventos)
      && (forall k :: k in s.events ==> k in r.store.events && r.store.events[k] == s.events[k])
      && (forall k :: k in r.store.events && k !in s.events ==> r.store.events[k].bovinoId != "" && IsUuid(Some(k)))
      && WritesFirst(s.events, r.store.events, Expected(r.store.cattle, b.eventos, today, md5))
  {
    var s1 := s.(owners := OwnersStage(s.owners, b.propietarios, fail).state);
    var s2 := s1.(cattle := CattleStage(s1.cattle, b.bovinos, fail).state);
    EventsStageWrites(s2, b.eventos, today, md5, fail);
  }

  /** A successful import is the three stages run one after the other, each
      from what the previous one left. */
  lemma ImportSucceeded(s: Store, b: Batch, today: string, md5: string -> Digest, fail: Faults)
    requires Import(s, b, true, today, md5, fail).response.Imported?
    ensures var o := OwnersStage(s.owners, b.propietarios, fail);
      var s2 := Store(o.state, UpsertAll(s.cattle, b.bovinos), s.events);
      var e := EventsStage(s2, b.eventos, today, md5, fail);
      && o.failure.None?
      && (b.bovinos != [] ==> fail(UpsertCattle).None?)
      && e.failure.None?
      && Import(s, b, true, today, md5, fail)
        == ImportRun(s2.(events := e.events), Imported(Counts(|b.propietarios|, |b.bovinos|, |b.eventos| - e.skipped, e.skipped)))
  {
    var o := OwnersStage(s.owners, b.propietarios, fail);
    var c := CattleStage(s.cattle, b.bovinos, fail);
    ImportedStagesPass(s, b, today, md5, fail);
    CattleStageWrites(s.cattle, b.bovinos, fail, c);
    ImportComposes(s, b, today, md5, fail, o, c);
  }

  /** A successful import went through each of its three stages. */
  lemma ImportedStagesPass(s: Store, b: Batch, today: string, md5: string -> Digest, fail: Faults)
    requires Import(s, b, true, today, md5, fail).response.Imported?
    ensures var o := OwnersStage(s.owners, b.propietarios, fail);
      var c := CattleStage(s.cattle, b.bovinos, fail);
      && o.failure.None? && c.failure.None?
      && EventsStage(Store(o.state, c.state, s.events), b.eventos, today, md5, fail).failure.None?
  {
  }

  /** Three stages that go through make a successful import of their writes. */
  lemma ImportComposes(s: Store, b: Batch, today: string, md5: string -> Digest, fail: Faults, o: Partial<map<string, OwnerRow>>, c: Partial<map<string, CattleRecord>>)
    requires o == OwnersStage(s.owners, b.propietarios, fail) && o.failure.None?
    requires c == CattleStage(s.cattle, b.bovinos, fail) && c.failure.None?
    requires EventsStage(Store(o.state, c.state, s.events), b.eventos, today, md5, fail).failure.None?
    ensures var e := EventsStage(Store(o.state, c.state, s.events), b.eventos, today, md5, fail);
      Import(s, b, true, today, md5, fail)
        == ImportRun(Store(o.state, c.state, e.events), Imported(Counts(|b.propietarios|, |b.bovinos|, |b.eventos| - e.skipped, e.skipped)))
  {
  }

  /** Importing the same batch a second time on the same day, after a
      successful first import, changes nothing and answers with the same counts, provided no owner of
      the batch carries a valid UUID and no owner is stored under an empty id.
      So `eventos_insertados` counts the events submitted and tied to cattle,
      not the events the import added: the second import reports them again
      although it adds none. */
  lemma ImportIdempotent(s: Store, b: Batch, today: string, md5: string -> Digest, fail: Faults)
    requires NoValidIds(b.propietarios) && "" !in s.owners
    requires Import(s, b, true, today, md5, fail).response.Imported?
    requires Import(Import(s, b, true, today, md5, fail).store, b, true, today, md5, fail).response.Imported?
    ensures Import(Import(s, b, true, today, md5, fail).store, b, true, today, md5, fail) == Import(s, b, true, today, md5, fail)
  {
    var r1 := Import(s, b, true, today, md5, fail);
    ImportSucceeded(s, b, today, md5, fail);
    ImportSucceeded(r1.store, b, today, md5, fail);
    OwnersStageIdempotent(s.owners, b.propietarios, fail);
    UpsertAllIdempotent(s.cattle, b.bovinos);
    var o := OwnersStage(s.owners, b.propietarios, fail);
    var s2 := Store(o.state, UpsertAll(s.cattle, b.bovinos), s.events);
    EventsStageIdempotent(s2, b.eventos, today, md5, fail);
  }

  /** A batch of a single event tied to its cattle by id, under an id not yet
      stored, adds that event's row under that id and nothing else. */
  lemma OneEventImported(s: Store, e: EventInput, today: string, md5: string -> Digest, fail: Faults)
    requires Truthy(e.bovinoId) && fail(UpsertEvents).None?
    requires KeyedFor(s.cattle, e, today, md5).id !in s.events
    ensures var k := KeyedFor(s.cattle, e, today, md5);
      Import(s, Batch([], [], [e]), true, today, md5, fail)
        == ImportRun(Store(s.owners, s.cattle, s.events[k.id := k.row]), Imported(Counts(0, 0, 1, 0)))
  {
    var o := OwnersStage(s.owners, [], fail);
    var c := CattleStage(s.cattle, [], fail);
    assert o == Partial(s.owners, None) && c == Partial(s.cattle, None);
    OneEventStage(Store(s.owners, s.cattle, s.events), e, today, md5, fail);
    ImportComposes(s, Batch([], [], [e]), today, md5, fail, o, c);
  }

  /** The events stage of that batch. */
  lemma OneEventStage(s: Store, e: EventInput, today: string, md5: string -> Digest, fail: Faults)
    requires Truthy(e.bovinoId) && fail(UpsertEvents).None?
    requires KeyedFor(s.cattle, e, today, md5).id !in s.events
    ensures var k := KeyedFor(s.cattle, e, today, md5);
      EventsStage(s, [e], today, md5, fail) == EventsOutcome(s.events[k.id := k.row], None, 0)
  {
    var k := KeyedFor(s.cattle, e, today, md5);
    assert [e][1..] == [] && [k][1..] == [];
    assert CollectEvents(s.cattle, [e], today, md5, fail).Ok?;
    CollectRowsExpected(s.cattle, [e], today, md5, fail);
    assert Expected(s.cattle, [e], today, md5) == [k];
    assert InsertNew(s.events, [k]) == s.events[k.id := k.row];
  }

  /** Importing an event without a date or a valid id on two different days
      stores it twice: the date defaults to the day of each import, so the
      derived ids differ whenever the digests of the two hash texts do. */
  lemma ReimportOnAnotherDay(s: Store, e: EventInput, today1: string, today2: string, md5: string -> Digest, fail: Faults)
    requires Truthy(e.bovinoId) && !Truthy(e.fecha) && !IsUuid(e.id) && fail(UpsertEvents).None?
    requires md5(HashBase(EventRowFor(e, e.bovinoId.value, today1))) != md5(HashBase(EventRowFor(e, e.bovinoId.value, today2)))
    requires KeyedFor(s.cattle, e, today1, md5).id !in s.events && KeyedFor(s.cattle, e, today2, md5).id !in s.events
    ensures var b := Batch([], [], [e]);
      var r1 := Import(s, b, true, today1, md5, fail);
      var r2 := Import(r1.store, b, true, today2, md5, fail);
      var id1, id2 := KeyedFor(s.cattle, e, today1, md5).id, KeyedFor(s.cattle, e, today2, md5).id;
      && r1.response.Imported? && r2.response.Imported?
      && id1 != id2 && id1 in r2.store.events && id2 in r2.store.events
      && r2.store.events[id1].fecha == today1 && r2.store.events[id2].fecha == today2
  {
    var k1, k2 := KeyedFor(s.cattle, e, today1, md5), KeyedFor(s.cattle, e, today2, md5);
    if k1.id == k2.id {
      DerivedIdInjective(md5(HashBase(k1.row)), md5(HashBase(k2.row)));
    }
    OneEventImported(s, e, today1, md5, fail);
    var s1 := Store(s.owners, s.cattle, s.events[k1.id := k1.row]);
    assert KeyedFor(s1.cattle, e, today2, md5) == k2;
    OneEventImported(s1, e, today2, md5, fail);
  }
}
