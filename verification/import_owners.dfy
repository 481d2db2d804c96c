/**
 * The owners stage of the bulk importer (`POST` in app/api/import/route.ts):
 * each submitted owner is defaulted, then written by its UUID when it has a
 * valid one, or else matched on its exact `nombre` and updated in place or
 * inserted. The owners are processed one at a time and the first failure
 * stops the stage, leaving earlier writes in place.
 */
module ImportOwners {
  import opened Wrappers
  import opened Text
  import opened Uuid
  import opened Domain

  /** An owner as submitted in the batch. */
  datatype OwnerInput = OwnerInput(
    id: Option<string>,
    tipoPropietario: Option<string>,
    nombre: string,
    apellidos: Option<string>,
    tipoDocumento: Option<string>,
    numeroDocumento: Option<string>,
    telefono: Option<string>,
    email: Option<string>,
    direccion: Option<string>,
    ciudad: Option<string>,
    departamento: Option<string>,
    observaciones: Option<string>)

  const DefaultTipoPropietario: string := "Individual"
  const DefaultTipoDocumento: string := "DNI"
  const DefaultNumeroDocumento: string := "SIN_DOCUMENTO"


  /** An optional column as the importer writes it from input o: null exactly
      when o is falsy, and o itself otherwise. */
  predicate NullsFalsy(o: Option<string>, v: Option<string>) {
    && (v.Some? <==> Truthy(o))
    && (v.Some? ==> v == o)
  }

  /** A defaulted column as the importer writes it from input o: o when it is
      truthy, the sentinel otherwise. */
  predicate Defaults(o: Option<string>, sentinel: string, v: string) {
    && (Truthy(o) ==> v == o.value)
    && (!Truthy(o) ==> v == sentinel)
  }

  /** The shape of every owner row the importer writes: the defaulted
      columns are never empty and no optional column holds "". */
  predicate Defaulted(r: OwnerRow) {
    && r.tipoPropietario != "" && r.tipoDocumento != "" && r.numeroDocumento != ""
    && r.apellidos != Some("") && r.telefono != Some("") && r.email != Some("")
    && r.direccion != Some("") && r.ciudad != Some("") && r.departamento != Some("")
    && r.observaciones != Some("")
  }

  /** The row written for owner p (`propietarioData`). */
  function OwnerData(p: OwnerInput): (r: OwnerRow)
    ensures r.nombre == p.nombre
    ensures Defaults(p.tipoPropietario, DefaultTipoPropietario, r.tipoPropietario)
    ensures Defaults(p.tipoDocumento, DefaultTipoDocumento, r.tipoDocumento)
    ensures Defaults(p.numeroDocumento, DefaultNumeroDocumento, r.numeroDocumento)
    ensures NullsFalsy(p.apellidos, r.apellidos) && NullsFalsy(p.telefono, r.telefono)
    ensures NullsFalsy(p.email, r.email) && NullsFalsy(p.direccion, r.direccion)
    ensures NullsFalsy(p.ciudad, r.ciudad) && NullsFalsy(p.departamento, r.departamento)
    ensures NullsFalsy(p.observaciones, r.observaciones)
    ensures Defaulted(r)
  {
    OwnerRow(
      OrElse(p.tipoPropietario, DefaultTipoPropietario),
      p.nombre,
      OrNull(p.apellidos),
      OrElse(p.tipoDocumento, DefaultTipoDocumento),
      OrElse(p.numeroDocumento, DefaultNumeroDocumento),
      OrNull(p.telefono),
      OrNull(p.email),
      OrNull(p.direccion),
      OrNull(p.ciudad),
      OrNull(p.departamento),
      OrNull(p.observaciones))
  }

  /** Ids of the owners whose `nombre` is exactly n (`.eq('nombre', n)`). */
  function NamedIds(owners: map<string, OwnerRow>, n: string): set<string> {
    set k | k in owners && owners[k].nombre == n
  }

  lemma SingletonElement(s: set<string>, x: string)
    requires |s| == 1 && x in s
    ensures s == {x}
  {
    assert |s - {x}| == 0;
  }

  lemma TwoElements(s: set<string>, a: string, b: string)
    requires a in s && b in s && a != b
    ensures |s| > 1
  {
    var rest := s - {a};
    assert s == rest + {a};
    assert b in rest;
  }

  /** m is the message of some call the store refuses. */
  ghost predicate StoreRefused(fail: Faults, m: string) {
    exists c :: fail(c) == Some(m)
  }

  /** What `maybeSingle` returns for the lookup by name when at most one row matches. */
  function ExistingId(owners: map<string, OwnerRow>, n: string): (r: Option<string>)
    requires |NamedIds(owners, n)| <= 1
    ensures r.None? <==> NamedIds(owners, n) == {}
    ensures r.Some? ==> NamedIds(owners, n) == {r.value}
  {
    var named := NamedIds(owners, n);
    if |named| == 1 then
      var id :| id in named;
      SingletonElement(named, id);
      Some(id)
    else None
  }

  /** Writes row under id t unless the store refuses the call. */
  function Write(owners: map<string, OwnerRow>, t: string, row: OwnerRow, call: StoreCall, fail: Faults): Result<map<string, OwnerRow>, string> {
    match fail(call)
    case Some(m) => Err(m)
    case None => Ok(owners[t := row])
  }

  /** One iteration of the owners loop: by id when p carries a valid UUID,
      otherwise update the row with the same `nombre`, or insert when there is none. */
  function ReconcileOwner(owners: map<string, OwnerRow>, p: OwnerInput, fail: Faults): (r: Result<map<string, OwnerRow>, string>)
    ensures r.Ok? ==> owners.Keys <= r.value.Keys
  {
    if IsUuid(p.id) then
      Write(owners, p.id.value, OwnerData(p), UpsertOwnerById(p.id.value), fail)
    else
      match fail(SelectOwnerByName(p.nombre))
      case Some(m) => Err(m)
      case None =>
        if |NamedIds(owners, p.nombre)| > 1 then Err(MultipleRowsMessage)
        else match ExistingId(owners, p.nombre)
          case Some(id) =>
            if id != "" then Write(owners, id, OwnerData(p), UpdateOwner(id), fail)
            else Write(owners, FreshId(owners.Keys), OwnerData(p), InsertOwner(p.nombre), fail)
          case None =>
            Write(owners, FreshId(owners.Keys), OwnerData(p), InsertOwner(p.nombre), fail)
  }

  /** The id the owners loop writes p under: its own UUID, else the id of the
      one row with the same name, else a new id from the store. */
  function Target(owners: map<string, OwnerRow>, p: OwnerInput): string
    requires IsUuid(p.id) || |NamedIds(owners, p.nombre)| <= 1
  {
    if IsUuid(p.id) then p.id.value
    else match ExistingId(owners, p.nombre)
      case Some(id) => if id != "" then id else FreshId(owners.Keys)
      case None => FreshId(owners.Keys)
  }

  /** A successful iteration writes exactly one row, the defaulted data of p,
      under its target id, and leaves every other row as it was. */
  lemma ReconcileWritesTarget(owners: map<string, OwnerRow>, p: OwnerInput, fail: Faults)
    requires ReconcileOwner(owners, p, fail).Ok?
    ensures IsUuid(p.id) || |NamedIds(owners, p.nombre)| <= 1
    ensures ReconcileOwner(owners, p, fail).value == owners[Target(owners, p) := OwnerData(p)]
  {
  }

  /** An owner with a valid UUID is upserted under that UUID. */
  lemma ReconcileByUuid(owners: map<string, OwnerRow>, p: OwnerInput, fail: Faults)
    requires IsUuid(p.id)
    requires fail(UpsertOwnerById(p.id.value)).None?
    ensures ReconcileOwner(owners, p, fail) == Ok(owners[p.id.value := OwnerData(p)])
  {
  }

  /** Without a valid UUID the target is the id of the one row carrying the
      name, when there is one, and otherwise a new id. */
  lemma TargetByName(owners: map<string, OwnerRow>, p: OwnerInput)
    requires !IsUuid(p.id) && "" !in owners
    requires |NamedIds(owners, p.nombre)| <= 1
    ensures Target(owners, p) != ""
    ensures NamedIds(owners, p.nombre) <= {Target(owners, p)}
    ensures Target(owners, p) in owners <==> NamedIds(owners, p.nombre) != {}
  {
    var e := ExistingId(owners, p.nombre);
    if e.Some? {
      assert e.value in NamedIds(owners, p.nombre);
    }
  }

  /** Writing an owner's row under t leaves exactly t carrying its name when
      no other id carried it before. */
  lemma WriteNamed(owners: map<string, OwnerRow>, t: string, row: OwnerRow)
    requires NamedIds(owners, row.nombre) <= {t}
    ensures NamedIds(owners[t := row], row.nombre) == {t}
  {
    var r := owners[t := row];
    assert t in NamedIds(r, row.nombre);
    assert NamedIds(r, row.nombre) <= NamedIds(owners, row.nombre) + {t};
  }

  /** Writing under an id in use keeps the set of ids; under a new id it adds one. */
  lemma WriteKeys<V>(m: map<string, V>, t: string, v: V)
    ensures t in m ==> m[t := v].Keys == m.Keys
    ensures t !in m ==> |m[t := v].Keys| == |m.Keys| + 1
  {
    if t !in m {
      assert m[t := v].Keys == m.Keys + {t};
    }
  }

  /** A name no row carries yet gets a new row under a new id. */
  lemma ReconcileInsertsNew(owners: map<string, OwnerRow>, p: OwnerInput, fail: Faults)
    requires !IsUuid(p.id) && NamedIds(owners, p.nombre) == {}
    requires fail(SelectOwnerByName(p.nombre)).None? && fail(InsertOwner(p.nombre)).None?
    ensures ReconcileOwner(owners, p, fail) == Ok(owners[FreshId(owners.Keys) := OwnerData(p)])
  {
    assert ExistingId(owners, p.nombre).None?;
  }

  /** A name already carried by more than one row stops the loop with the
      lookup's error. */
  lemma ReconcileAmbiguous(owners: map<string, OwnerRow>, p: OwnerInput, fail: Faults)
    requires !IsUuid(p.id) && |NamedIds(owners, p.nombre)| > 1
    requires fail(SelectOwnerByName(p.nombre)).None?
    ensures ReconcileOwner(owners, p, fail) == Err(MultipleRowsMessage)
  {
  }

  /** An owner without a valid UUID updates the one row with the same name,
      keeping its id, or adds a row when there is none; either way exactly
      one row carries that name afterwards. */
  lemma {:induction false} ReconcileByName(owners: map<string, OwnerRow>, p: OwnerInput, fail: Faults)
    requires !IsUuid(p.id) && "" !in owners
    requires ReconcileOwner(owners, p, fail).Ok?
    ensures |NamedIds(owners, p.nombre)| <= 1
    ensures NamedIds(ReconcileOwner(owners, p, fail).value, p.nombre) == {Target(owners, p)}
    ensures Target(owners, p) != ""
    ensures NamedIds(owners, p.nombre) != {} ==> ReconcileOwner(owners, p, fail).value.Keys == owners.Keys
    ensures NamedIds(owners, p.nombre) == {} ==> |ReconcileOwner(owners, p, fail).value.Keys| == |owners.Keys| + 1
  {
    ReconcileWritesTarget(owners, p, fail);
    TargetByName(owners, p);
    var t := Target(owners, p);
    var r := ReconcileOwner(owners, p, fail).value;
    assert r == owners[t := OwnerData(p)];
    WriteNamed(owners, t, OwnerData(p));
    WriteKeys(owners, t, OwnerData(p));
  }

  /** An iteration fails only when the store refuses a call, or when more
      than one row already carries the name being looked up. */
  lemma ReconcileFailure(owners: map<string, OwnerRow>, p: OwnerInput, fail: Faults)
    requires ReconcileOwner(owners, p, fail).Err?
    ensures var m := ReconcileOwner(owners, p, fail).error;
      || StoreRefused(fail, m)
      || (!IsUuid(p.id) && |NamedIds(owners, p.nombre)| > 1 && m == MultipleRowsMessage)
  {
    var m := ReconcileOwner(owners, p, fail).error;
    if IsUuid(p.id) {
      assert fail(UpsertOwnerById(p.id.value)) == Some(m);
    } else if fail(SelectOwnerByName(p.nombre)).Some? {
      assert fail(SelectOwnerByName(p.nombre)) == Some(m);
    } else if |NamedIds(owners, p.nombre)| <= 1 {
      var t := Target(owners, p);
      if t in owners {
        assert fail(UpdateOwner(t)) == Some(m);
      } else {
        assert fail(InsertOwner(p.nombre)) == Some(m);
      }
    }
  }

  /** The owners loop: each owner in order, stopping at the first failure
      with the writes of the owners before it kept (there is no rollback). */
  function OwnersStage(owners: map<string, OwnerRow>, ps: seq<OwnerInput>, fail: Faults): (r: Partial<map<string, OwnerRow>>)
    ensures owners.Keys <= r.state.Keys
    decreases |ps|
  {
    if ps == [] then Partial(owners, None)
    else
      match ReconcileOwner(owners, ps[0], fail)
      case Err(m) => Partial(owners, Some(m))
      case Ok(next) => OwnersStage(next, ps[1..], fail)
  }

  /** row is the defaulted data of some owner of the batch. */
  ghost predicate WrittenFrom(row: OwnerRow, ps: seq<OwnerInput>) {
    exists i :: 0 <= i < |ps| && row == OwnerData(ps[i])
  }

  /** Every row of after was in before, unchanged, or written from an owner of ps. */
  ghost predicate RowsFrom(before: map<string, OwnerRow>, after: map<string, OwnerRow>, ps: seq<OwnerInput>) {
    forall k :: k in after ==> (k in before && after[k] == before[k]) || WrittenFrom(after[k], ps)
  }

  /** Every row after the owners loop was either there before, unchanged, or
      written from an owner of the batch. */
  lemma {:induction false} OwnersStageRows(owners: map<string, OwnerRow>, ps: seq<OwnerInput>, fail: Faults)
    ensures RowsFrom(owners, OwnersStage(owners, ps, fail).state, ps)
    decreases |ps|
  {
    if ps != [] && ReconcileOwner(owners, ps[0], fail).Ok? {
      var next := ReconcileOwner(owners, ps[0], fail).value;
      ReconcileWritesTarget(owners, ps[0], fail);
      OwnersStageRows(next, ps[1..], fail);
      OwnersStageContinues(owners, ps, fail, next);
      RowsStep(owners, ps, next, OwnersStage(next, ps[1..], fail).state, Target(owners, ps[0]));
    }
  }

  /** Rows come from the batch one owner at a time. */
  lemma RowsStep(owners: map<string, OwnerRow>, ps: seq<OwnerInput>, next: map<string, OwnerRow>, r: map<string, OwnerRow>, t: string)
    requires ps != [] && next == owners[t := OwnerData(ps[0])]
    requires RowsFrom(next, r, ps[1..])
    ensures RowsFrom(owners, r, ps)
  {
    forall k | k in r && !(k in owners && r[k] == owners[k]) ensures WrittenFrom(r[k], ps) {
      if k in next && r[k] == next[k] {
        assert r[k] == OwnerData(ps[0]);
      } else {
        var i :| 0 <= i < |ps[1..]| && r[k] == OwnerData(ps[1..][i]);
        assert r[k] == OwnerData(ps[i + 1]);
      }
    }
  }

  /** The rows the owners loop leaves all have the defaulted shape when the ones before did. */
  lemma OwnersStageDefaulted(owners: map<string, OwnerRow>, ps: seq<OwnerInput>, fail: Faults)
    requires forall k :: k in owners ==> Defaulted(owners[k])
    ensures var r := OwnersStage(owners, ps, fail).state;
      forall k :: k in r ==> Defaulted(r[k])
  {
    OwnersStageRows(owners, ps, fail);
  }

  /** Running the loop over ps then qs is running it over ps + qs: the second
      part starts from what the first wrote, and does not run if the first failed. */
  lemma {:induction false} OwnersStageAppend(owners: map<string, OwnerRow>, ps: seq<OwnerInput>, qs: seq<OwnerInput>, fail: Faults)
    ensures var a := OwnersStage(owners, ps, fail);
      OwnersStage(owners, ps + qs, fail) == if a.failure.Some? then a else OwnersStage(a.state, qs, fail)
    decreases |ps|
  {
    if ps == [] {
      assert ps + qs == qs;
    } else {
      assert (ps + qs)[0] == ps[0];
      assert (ps + qs)[1..] == ps[1..] + qs;
      if ReconcileOwner(owners, ps[0], fail).Ok? {
        OwnersStageAppend(ReconcileOwner(owners, ps[0], fail).value, ps[1..], qs, fail);
      }
    }
  }

  /** The loop stopped at owner k: the owners before it all went through, and
      the failure and the writes left are those of owner k's iteration. */
  predicate FailsAt(owners: map<string, OwnerRow>, ps: seq<OwnerInput>, fail: Faults, k: int)
    requires 0 <= k < |ps|
  {
    var done := OwnersStage(owners, ps[..k], fail);
    var step := ReconcileOwner(done.state, ps[k], fail);
    && done.failure.None?
    && step.Err?
    && OwnersStage(owners, ps, fail) == Partial(done.state, Some(step.error))
  }

  /** Failing at owner k of the rest of the batch is failing at owner k + 1 of the whole. */
  lemma FailsAtStep(owners: map<string, OwnerRow>, ps: seq<OwnerInput>, fail: Faults, next: map<string, OwnerRow>, k: int)
    requires ps != [] && ReconcileOwner(owners, ps[0], fail) == Ok(next)
    requires 0 <= k < |ps| - 1 && FailsAt(next, ps[1..], fail, k)
    ensures FailsAt(owners, ps, fail, k + 1)
  {
    PrefixContinues(owners, ps, fail, next, k + 1);
    assert ps[1..][k] == ps[k + 1];
    OwnersStageContinues(owners, ps, fail, next);
  }

  /** The first n owners, after a first owner that went through, are that
      owner's writes followed by the next n - 1. */
  lemma PrefixContinues(owners: map<string, OwnerRow>, ps: seq<OwnerInput>, fail: Faults, next: map<string, OwnerRow>, n: int)
    requires 0 < n <= |ps| && ReconcileOwner(owners, ps[0], fail) == Ok(next)
    ensures OwnersStage(owners, ps[..n], fail) == OwnersStage(next, ps[1..][..n - 1], fail)
  {
    var pre := ps[..n];
    assert pre[0] == ps[0] && pre[1..] == ps[1..][..n - 1];
    OwnersStageContinues(owners, pre, fail, next);
  }

  /** A failed loop stopped at one owner, and kept exactly the writes of the owners before it. */
  lemma {:induction false} OwnersStageFailure(owners: map<string, OwnerRow>, ps: seq<OwnerInput>, fail: Faults)
    requires OwnersStage(owners, ps, fail).failure.Some?
    ensures exists k :: 0 <= k < |ps| && FailsAt(owners, ps, fail, k)
    decreases |ps|
  {
    if ReconcileOwner(owners, ps[0], fail).Err? {
      assert ps[..0] == [];
      assert FailsAt(owners, ps, fail, 0);
    } else {
      var next := ReconcileOwner(owners, ps[0], fail).value;
      OwnersStageFailure(next, ps[1..], fail);
      var k :| 0 <= k < |ps[1..]| && FailsAt(next, ps[1..], fail, k);
      FailsAtStep(owners, ps, fail, next, k);
    }
  }

  /** No owner of the batch carries a valid UUID, so every one is matched by name. */
  predicate NoValidIds(ps: seq<OwnerInput>) {
    forall i :: 0 <= i < |ps| ==> !IsUuid(ps[i].id)
  }

  /** The names of the batch. */
  function Names(ps: seq<OwnerInput>): set<string> {
    set i | 0 <= i < |ps| :: ps[i].nombre
  }

  lemma NamesCons(ps: seq<OwnerInput>)
    requires ps != []
    ensures Names(ps) == {ps[0].nombre} + Names(ps[1..])
  {
    forall n | n in Names(ps[1..]) ensures n in Names(ps) {
      var i :| 0 <= i < |ps[1..]| && ps[1..][i].nombre == n;
      assert ps[i + 1].nombre == n;
    }
  }

  /** The last owner of the batch named n. */
  function LastNamed(ps: seq<OwnerInput>, n: string): (p: OwnerInput)
    requires n in Names(ps)
    ensures p.nombre == n
    decreases |ps|
  {
    NamesCons(ps);
    if n in Names(ps[1..]) then LastNamed(ps[1..], n) else ps[0]
  }

  /** Ids in use keep their name. */
  ghost predicate KeepsNames(before: map<string, OwnerRow>, after: map<string, OwnerRow>) {
    forall k :: k in before ==> k in after && after[k].nombre == before[k].nombre
  }

  /** Every name of the batch is carried by exactly one row, holding the data
      of the last owner of the batch with that name. */
  ghost predicate SettledNames(after: map<string, OwnerRow>, ps: seq<OwnerInput>) {
    && (forall n :: n in Names(ps) ==> |NamedIds(after, n)| == 1)
    && (forall k :: k in after && after[k].nombre in Names(ps) ==> after[k] == OwnerData(LastNamed(ps, after[k].nombre)))
  }

  /** Rows whose name is not in the batch are exactly the earlier ones, unchanged. */
  ghost predicate OthersUntouched(before: map<string, OwnerRow>, after: map<string, OwnerRow>, ps: seq<OwnerInput>) {
    && (forall k :: k in after && after[k].nombre !in Names(ps) ==> k in before && after[k] == before[k])
    && (forall k :: k in before && before[k].nombre !in Names(ps) ==> k in after && after[k] == before[k])
  }

  /** One name-matched iteration keeps the ids in use and their names. */
  lemma ReconcileKeepsNames(owners: map<string, OwnerRow>, p: OwnerInput, fail: Faults)
    requires !IsUuid(p.id) && "" !in owners
    requires ReconcileOwner(owners, p, fail).Ok?
    ensures KeepsNames(owners, ReconcileOwner(owners, p, fail).value)
    ensures "" !in ReconcileOwner(owners, p, fail).value
  {
    ReconcileByName(owners, p, fail);
    TargetByName(owners, p);
  }

  /** What a successful loop over a batch without valid ids leaves: one row
      per batch name, holding the last data submitted for it, every other row
      as it was, and no id renamed. */
  lemma {:induction false} OwnersStageSettles(owners: map<string, OwnerRow>, ps: seq<OwnerInput>, fail: Faults)
    requires NoValidIds(ps) && "" !in owners
    requires OwnersStage(owners, ps, fail).failure.None?
    ensures var r := OwnersStage(owners, ps, fail).state;
      && "" !in r
      && KeepsNames(owners, r)
      && SettledNames(r, ps)
      && OthersUntouched(owners, r, ps)
    decreases |ps|
  {
    if ps != [] {
      var p := ps[0];
      var n := p.nombre;
      var next := ReconcileOwner(owners, p, fail).value;
      ReconcileByName(owners, p, fail);
      ReconcileKeepsNames(owners, p, fail);
      var t := Target(owners, p);
      assert next == owners[t := OwnerData(p)] by { ReconcileWritesTarget(owners, p, fail); }
      TargetByName(owners, p);
      var tail := ps[1..];
      assert NoValidIds(tail) by {
        forall i | 0 <= i < |tail| ensures !IsUuid(tail[i].id) {
          assert tail[i] == ps[i + 1];
        }
      }
      OwnersStageSettles(next, tail, fail);
      var r := OwnersStage(owners, ps, fail).state;
      assert r == OwnersStage(next, tail, fail).state;
      NamesCons(ps);
      SettledStep(ps, next, r, t);
      UntouchedStep(owners, ps, next, r, t);
    }
  }

  /** The names settle one owner at a time: if the rest of the batch settled
      its names from a store where the first owner's name is held by t alone,
      with the first owner's data, the whole batch's names are settled. */
  lemma SettledStep(ps: seq<OwnerInput>, next: map<string, OwnerRow>, r: map<string, OwnerRow>, t: string)
    requires ps != [] && NamedIds(next, ps[0].nombre) == {t} && next[t] == OwnerData(ps[0])
    requires Names(ps) == {ps[0].nombre} + Names(ps[1..])
    requires SettledNames(r, ps[1..]) && OthersUntouched(next, r, ps[1..])
    ensures SettledNames(r, ps)
  {
    var n := ps[0].nombre;
    var tail := ps[1..];
    if n !in Names(tail) {
      assert NamedIds(r, n) == NamedIds(next, n) by {
        forall k | k in NamedIds(r, n) ensures k in NamedIds(next, n) {
          assert r[k].nombre !in Names(tail);
        }
        forall k | k in NamedIds(next, n) ensures k in NamedIds(r, n) {
          assert next[k].nombre !in Names(tail);
        }
      }
    }
    forall m | m in Names(ps) ensures |NamedIds(r, m)| == 1 {
      if m !in Names(tail) {
        assert m == n;
      }
    }
    forall k | k in r && r[k].nombre in Names(ps)
      ensures r[k] == OwnerData(LastNamed(ps, r[k].nombre))
    {
      if r[k].nombre !in Names(tail) {
        assert k in NamedIds(r, n);
      }
    }
  }

  /** Rows outside the batch's names stay as they were, one owner at a time. */
  lemma UntouchedStep(owners: map<string, OwnerRow>, ps: seq<OwnerInput>, next: map<string, OwnerRow>, r: map<string, OwnerRow>, t: string)
    requires ps != [] && next == owners[t := OwnerData(ps[0])]
    requires t in owners ==> owners[t].nombre == ps[0].nombre
    requires Names(ps) == {ps[0].nombre} + Names(ps[1..])
    requires OthersUntouched(next, r, ps[1..])
    ensures OthersUntouched(owners, r, ps)
  {
    assert next[t].nombre == ps[0].nombre;
    forall k | k in r && r[k].nombre !in Names(ps) ensures k in owners && r[k] == owners[k] {
      assert k in next && r[k] == next[k];
      assert k != t;
    }
    forall k | k in owners && owners[k].nombre !in Names(ps) ensures k in r && r[k] == owners[k] {
      assert k != t;
    }
  }

  /** Importing the same batch of owners without valid ids twice leaves the
      owners as the first import left them: the second run only rewrites each
      name's row with the same data and adds none. */
  lemma OwnersStageIdempotent(owners: map<string, OwnerRow>, ps: seq<OwnerInput>, fail: Faults)
    requires NoValidIds(ps) && "" !in owners
    requires OwnersStage(owners, ps, fail).failure.None?
    requires OwnersStage(OwnersStage(owners, ps, fail).state, ps, fail).failure.None?
    ensures OwnersStage(OwnersStage(owners, ps, fail).state, ps, fail).state == OwnersStage(owners, ps, fail).state
  {
    var r := OwnersStage(owners, ps, fail).state;
    OwnersStageSettles(owners, ps, fail);
    OwnersStageSettles(r, ps, fail);
    var r2 := OwnersStage(r, ps, fail).state;
    SettledSameKeys(r, r2, ps);
    SettledSameRows(r, r2, ps);
  }

  /** A second settling of the same names adds no id. */
  lemma SettledSameKeys(r: map<string, OwnerRow>, r2: map<string, OwnerRow>, ps: seq<OwnerInput>)
    requires KeepsNames(r, r2) && SettledNames(r, ps) && SettledNames(r2, ps) && OthersUntouched(r, r2, ps)
    ensures r2.Keys == r.Keys
  {
    forall k | k in r2 ensures k in r {
      var n := r2[k].nombre;
      if n in Names(ps) {
        var j :| j in NamedIds(r, n);
        assert j in NamedIds(r2, n);
        SingletonElement(NamedIds(r2, n), k);
      }
    }
  }

  /** A second settling of the same names rewrites every row with what it held. */
  lemma SettledSameRows(r: map<string, OwnerRow>, r2: map<string, OwnerRow>, ps: seq<OwnerInput>)
    requires KeepsNames(r, r2) && SettledNames(r, ps) && SettledNames(r2, ps) && OthersUntouched(r, r2, ps)
    requires r2.Keys == r.Keys
    ensures r2 == r
  {
    forall k | k in r ensures r2[k] == r[k] {
      if r[k].nombre in Names(ps) {
        assert r2[k].nombre == r[k].nombre;
      }
    }
  }

  /** An owner with only an id and a name. */
  function BareOwner(id: Option<string>, nombre: string): OwnerInput {
    OwnerInput(id, None, nombre, None, None, None, None, None, None, None, None, None)
  }

  /** After a successful iteration the loop goes on with the rest of the batch. */
  lemma OwnersStageContinues(owners: map<string, OwnerRow>, ps: seq<OwnerInput>, fail: Faults, next: map<string, OwnerRow>)
    requires ps != [] && ReconcileOwner(owners, ps[0], fail) == Ok(next)
    ensures OwnersStage(owners, ps, fail) == OwnersStage(next, ps[1..], fail)
  {
  }

  /** A failed iteration ends the loop with the writes made so far. */
  lemma OwnersStageStops(owners: map<string, OwnerRow>, ps: seq<OwnerInput>, fail: Faults)
    requires ps != [] && ReconcileOwner(owners, ps[0], fail).Err?
    ensures OwnersStage(owners, ps, fail) == Partial(owners, Some(ReconcileOwner(owners, ps[0], fail).error))
  {
  }

  /** One owner matched by name n, then the same name under id u. */
  function MixedBatch(u: string, n: string): seq<OwnerInput> {
    [BareOwner(None, n), BareOwner(Some(u), n)]
  }

  /** The owners the mixed batch leaves: a new row for the name, then a
      second one under u. */
  function MixedRows(owners: map<string, OwnerRow>, u: string, n: string): map<string, OwnerRow> {
    owners[FreshId(owners.Keys) := OwnerData(BareOwner(None, n))][u := OwnerData(BareOwner(Some(u), n))]
  }

  lemma MixedBatchFirstRun(owners: map<string, OwnerRow>, u: string, n: string)
    requires IsUuid(Some(u)) && NamedIds(owners, n) == {}
    ensures OwnersStage(owners, MixedBatch(u, n), NoFaults) == Partial(MixedRows(owners, u, n), None)
  {
    var p0, p1 := BareOwner(None, n), BareOwner(Some(u), n);
    ReconcileInsertsNew(owners, p0, NoFaults);
    var m1 := owners[FreshId(owners.Keys) := OwnerData(p0)];
    ReconcileByUuid(m1, p1, NoFaults);
    OwnersStageTwo(owners, p0, p1, NoFaults, m1, MixedRows(owners, u, n));
  }

  /** Two owners that both go through leave the writes of the second after the first. */
  lemma OwnersStageTwo(owners: map<string, OwnerRow>, p0: OwnerInput, p1: OwnerInput, fail: Faults, m1: map<string, OwnerRow>, m2: map<string, OwnerRow>)
    requires ReconcileOwner(owners, p0, fail) == Ok(m1) && ReconcileOwner(m1, p1, fail) == Ok(m2)
    ensures OwnersStage(owners, [p0, p1], fail) == Partial(m2, None)
  {
    assert [p0, p1][1..] == [p1] && [p1][1..] == [];
    OwnersStageContinues(owners, [p0, p1], fail, m1);
    OwnersStageContinues(m1, [p1], fail, m2);
  }

  /** The ids the model hands out for new rows are never valid UUIDs. */
  lemma FreshIdNotUuid(used: set<string>, u: string)
    requires IsUuid(Some(u))
    ensures FreshId(used) != u
  {
    IsUuidIffLayout(Some(u));
    var f := FreshId(used);
    if |f| == 36 {
      assert f[8] == '0';
    }
  }

  lemma MixedBatchSecondRun(owners: map<string, OwnerRow>, u: string, n: string)
    requires IsUuid(Some(u))
    ensures var m := MixedRows(owners, u, n);
      OwnersStage(m, MixedBatch(u, n), NoFaults) == Partial(m, Some(MultipleRowsMessage))
  {
    var f := FreshId(owners.Keys);
    FreshIdNotUuid(owners.Keys, u);
    var m := MixedRows(owners, u, n);
    TwoNamed(m, f, u, n);
    OwnersStageAmbiguous(m, MixedBatch(u, n));
  }

  /** A first owner without a valid UUID whose name several rows carry stops
      the loop before any write. */
  lemma OwnersStageAmbiguous(owners: map<string, OwnerRow>, ps: seq<OwnerInput>)
    requires ps != [] && !IsUuid(ps[0].id) && |NamedIds(owners, ps[0].nombre)| > 1
    ensures OwnersStage(owners, ps, NoFaults) == Partial(owners, Some(MultipleRowsMessage))
  {
    ReconcileAmbiguous(owners, ps[0], NoFaults);
    OwnersStageStops(owners, ps, NoFaults);
  }

  /** Two distinct ids carrying the same name make the lookup by name ambiguous. */
  lemma TwoNamed(m: map<string, OwnerRow>, a: string, b: string, n: string)
    requires a in m && b in m && a != b && m[a].nombre == n && m[b].nombre == n
    ensures |NamedIds(m, n)| > 1
  {
    TwoElements(NamedIds(m, n), a, b);
  }

  /** Idempotence needs the batch to be free of valid ids: an owner matched by
      a new name followed by the same name under a UUID leave two rows with
      that name, and importing the batch again fails on the lookup by name. */
  lemma MixedBatchNotRepeatable(owners: map<string, OwnerRow>, u: string, n: string)
    requires IsUuid(Some(u)) && NamedIds(owners, n) == {}
    ensures var first := OwnersStage(owners, MixedBatch(u, n), NoFaults);
      && first.failure.None?
      && OwnersStage(first.state, MixedBatch(u, n), NoFaults).failure == Some(MultipleRowsMessage)
  {
    MixedBatchFirstRun(owners, u, n);
    MixedBatchSecondRun(owners, u, n);
  }


}
