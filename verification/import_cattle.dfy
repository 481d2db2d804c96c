/**
 * The cattle stage of the bulk importer (`POST` in app/api/import/route.ts):
 * the submitted rows go to the store unchanged in one upsert keyed on
 * `codigo`. A row whose code is new is inserted; a row whose code is stored
 * replaces the stored columns, keeping the stored id unless it brings one.
 */
module ImportCattle {
  import opened Wrappers
  import opened Domain

  /** The id a submitted row ends up stored under: its own when it has one,
      otherwise that of the row already stored with its code, otherwise a new one. */
  function StoredId(cattle: map<string, CattleRecord>, b: Bovino): (id: string)
    ensures b.id.Some? ==> id == b.id.value
    ensures b.id.None? && b.codigo in cattle ==> id == cattle[b.codigo].id
    ensures b.id.None? && b.codigo !in cattle ==> id !in CattleIds(cattle)
  {
    if b.id.Some? then b.id.value
    else if b.codigo in cattle then cattle[b.codigo].id
    else FreshId(CattleIds(cattle))
  }

  /** One row of the upsert. */
  function UpsertRow(cattle: map<string, CattleRecord>, b: Bovino): map<string, CattleRecord> {
    cattle[b.codigo := CattleRecord(StoredId(cattle, b), b)]
  }

  /** The upsert of a whole batch, row by row in submission order. */
  function UpsertAll(cattle: map<string, CattleRecord>, bs: seq<Bovino>): (r: map<string, CattleRecord>)
    decreases |bs|
  {
    if bs == [] then cattle else UpsertAll(UpsertRow(cattle, bs[0]), bs[1..])
  }

  /** The codes of a batch. */
  function Codes(bs: seq<Bovino>): set<string> {
    set i | 0 <= i < |bs| :: bs[i].codigo
  }

  lemma CodesCons(bs: seq<Bovino>)
    requires bs != []
    ensures Codes(bs) == {bs[0].codigo} + Codes(bs[1..])
  {
    forall c | c in Codes(bs[1..]) ensures c in Codes(bs) {
      var i :| 0 <= i < |bs[1..]| && bs[1..][i].codigo == c;
      assert bs[i + 1].codigo == c;
    }
  }

  /** The last row of the batch with code c. */
  function LastWithCode(bs: seq<Bovino>, c: string): (b: Bovino)
    requires c in Codes(bs)
    ensures b.codigo == c
    decreases |bs|
  {
    CodesCons(bs);
    if c in Codes(bs[1..]) then LastWithCode(bs[1..], c) else bs[0]
  }

  /** The id carried by the last row with code c that carries one. */
  function LastId(bs: seq<Bovino>, c: string): Option<string>
    decreases |bs|
  {
    if bs == [] then None
    else
      var later := LastId(bs[1..], c);
      if later.Some? then later
      else if bs[0].codigo == c then bs[0].id
      else None
  }

  /** Only a submitted code can have an id submitted for it. */
  lemma {:induction false} LastIdSubmitted(bs: seq<Bovino>, c: string)
    requires LastId(bs, c).Some?
    ensures c in Codes(bs)
    decreases |bs|
  {
    CodesCons(bs);
    if LastId(bs[1..], c).Some? {
      LastIdSubmitted(bs[1..], c);
    }
  }

  /** What the upsert leaves: one row per code, the stored codes plus the
      submitted ones; each submitted code holds the last row submitted for
      it, under the last id submitted for it or else the id it already had;
      every other code is untouched. */
  ghost predicate LastWins(before: map<string, CattleRecord>, after: map<string, CattleRecord>, bs: seq<Bovino>) {
    && after.Keys == before.Keys + Codes(bs)
    && (forall c :: c in Codes(bs) ==> after[c].row == LastWithCode(bs, c))
    && (forall c :: c in Codes(bs) && LastId(bs, c).Some? ==> after[c].id == LastId(bs, c).value)
    && (forall c :: c in before && LastId(bs, c).None? ==> after[c].id == before[c].id)
    && (forall c :: c in before && c !in Codes(bs) ==> after[c] == before[c])
  }

  /** The upsert keeps the last values submitted for each code. */
  lemma {:induction false} UpsertAllLastWins(cattle: map<string, CattleRecord>, bs: seq<Bovino>)
    ensures LastWins(cattle, UpsertAll(cattle, bs), bs)
    decreases |bs|
  {
    if bs == [] {
      assert Codes(bs) == {};
    } else {
      var next := UpsertRow(cattle, bs[0]);
      UpsertAllLastWins(next, bs[1..]);
      LastWinsStep(cattle, bs, UpsertAll(next, bs[1..]));
    }
  }

  /** What the rest of the batch leaves after the first row's upsert is what
      the whole batch leaves. */
  lemma LastWinsStep(cattle: map<string, CattleRecord>, bs: seq<Bovino>, r: map<string, CattleRecord>)
    requires bs != [] && LastWins(UpsertRow(cattle, bs[0]), r, bs[1..])
    ensures LastWins(cattle, r, bs)
  {
    CodesCons(bs);
    forall c | c in Codes(bs) ensures r[c].row == LastWithCode(bs, c) {
    }
    LastIdStep(cattle, bs, r);
  }

  /** The ids part of the step: the last id submitted wins, else the stored id stays. */
  lemma LastIdStep(cattle: map<string, CattleRecord>, bs: seq<Bovino>, r: map<string, CattleRecord>)
    requires bs != [] && LastWins(UpsertRow(cattle, bs[0]), r, bs[1..])
    requires Codes(bs) == {bs[0].codigo} + Codes(bs[1..])
    ensures forall c :: c in Codes(bs) && LastId(bs, c).Some? ==> r[c].id == LastId(bs, c).value
    ensures forall c :: c in cattle && LastId(bs, c).None? ==> r[c].id == cattle[c].id
  {
    var b, next, tail := bs[0], UpsertRow(cattle, bs[0]), bs[1..];
    forall c | c in Codes(bs) && LastId(bs, c).Some? ensures r[c].id == LastId(bs, c).value {
      if LastId(tail, c).None? {
        assert c == b.codigo && next[c].id == b.id.value;
      } else {
        LastIdSubmitted(tail, c);
      }
    }
    forall c | c in cattle && LastId(bs, c).None? ensures r[c].id == cattle[c].id {
      assert LastId(tail, c).None?;
      assert next[c].id == cattle[c].id;
    }
  }

  /** Upserting the same batch twice leaves what upserting it once left. */
  lemma UpsertAllIdempotent(cattle: map<string, CattleRecord>, bs: seq<Bovino>)
    ensures UpsertAll(UpsertAll(cattle, bs), bs) == UpsertAll(cattle, bs)
  {
    var r := UpsertAll(cattle, bs);
    var r2 := UpsertAll(r, bs);
    UpsertAllLastWins(cattle, bs);
    UpsertAllLastWins(r, bs);
    assert r2.Keys == r.Keys;
    forall c | c in r ensures r2[c] == r[c] {
      if c in Codes(bs) {
        assert r2[c].row == r[c].row;
        assert r2[c].id == r[c].id;
      }
    }
  }

  /** The cattle stage: skipped for an empty batch; otherwise one upsert
      statement, which the store applies whole or refuses whole. */
  function CattleStage(cattle: map<string, CattleRecord>, bs: seq<Bovino>, fail: Faults): (r: Partial<map<string, CattleRecord>>)
    ensures r.failure.Some? ==> r.state == cattle && fail(UpsertCattle) == r.failure
    ensures r.failure.None? ==> LastWins(cattle, r.state, bs)
  {
    UpsertAllLastWins(cattle, bs);
    if bs == [] then Partial(cattle, None)
    else
      match fail(UpsertCattle)
      case Some(m) => Partial(cattle, Some(m))
      case None => Partial(UpsertAll(cattle, bs), None)
  }

  /** A cattle stage that goes through leaves the upsert of the whole batch. */
  lemma CattleStageWrites(cattle: map<string, CattleRecord>, bs: seq<Bovino>, fail: Faults, c: Partial<map<string, CattleRecord>>)
    requires c == CattleStage(cattle, bs, fail) && c.failure.None?
    ensures c.state == UpsertAll(cattle, bs)
    ensures bs != [] ==> fail(UpsertCattle).None?
  {
  }
}
