/**
 * The form that records one event (app/nuevo-evento/page.tsx): the fields
 * are checked, the animal is looked up by its code, a random id is drawn and
 * one event row is inserted. Milking ('Ordeño') events carry litres and a
 * shift; fattening ('Engorde') events carry a weight and optionally a daily
 * gain; every other type carries none of these.
 */
module EventForm {
  import opened Wrappers
  import opened Text
  import opened Uuid
  import opened Domain

  const Ordeno: string := "Ordeño"
  const Engorde: string := "Engorde"

  const RequiredMessage: string := "Por favor complete todos los campos obligatorios"
  const LitrosMessage: string := "Ingrese litros válidos para Ordeño"
  const TurnoMessage: string := "Seleccione turno de Ordeño"
  const PesoMessage: string := "Ingrese peso (kg) válido para Engorde"
  const GmdMessage: string := "GMD debe ser numérico (kg/día)"

  /** The error the store gives for an id already in use. */
  const DuplicateIdMessage: string := "duplicate key value violates unique constraint \"eventos_pkey\""

  /** The form's fields, all text as the inputs hold them. */
  datatype Form = Form(
    bovinoCodigo: string,
    tipo: string,
    fecha: string,
    descripcion: string,
    litros: string,
    turno: string,
    pesoKg: string,
    gmd: string)

  /** `Number(s)` of a field: None stands for NaN. */
  type Parse = string -> Option<real>

  /** The form as the page opens, dated `today`, with the type taken from the
      `tipo` query parameter when it is given and not empty. */
  function InitialForm(today: string, preTipo: Option<string>): (f: Form)
    ensures f.fecha == today && f.tipo == OrElse(preTipo, "")
    ensures f.bovinoCodigo == "" && f.descripcion == "" && f.litros == "" && f.turno == "" && f.pesoKg == "" && f.gmd == ""
  {
    Form("", if Truthy(preTipo) then preTipo.value else "", today, "", "", "", "", "")
  }

  /** A field holding a number. */
  predicate Numeric(s: string, num: Parse) {
    s != "" && num(s).Some?
  }

  /** What the form demands before it is sent. */
  predicate Acceptable(f: Form, num: Parse) {
    && f.bovinoCodigo != "" && f.tipo != "" && f.fecha != ""
    && (f.tipo == Ordeno ==> Numeric(f.litros, num) && f.turno != "")
    && (f.tipo == Engorde ==> Numeric(f.pesoKg, num) && (f.gmd != "" ==> num(f.gmd).Some?))
  }

  /** The checks of `handleSubmit`, in order: the alert of the first that fails. */
  function Validate(f: Form, num: Parse): (r: Option<string>)
    ensures r.None? <==> Acceptable(f, num)
    ensures r == Some(RequiredMessage) <==> f.bovinoCodigo == "" || f.tipo == "" || f.fecha == ""
    ensures r.Some? ==> r.value in {RequiredMessage, LitrosMessage, TurnoMessage, PesoMessage, GmdMessage}
    ensures r != Some(RequiredMessage) && f.tipo == Ordeno ==>
      && (!Numeric(f.litros, num) ==> r == Some(LitrosMessage))
      && (Numeric(f.litros, num) && f.turno == "" ==> r == Some(TurnoMessage))
    ensures r != Some(RequiredMessage) && f.tipo == Engorde ==>
      && (!Numeric(f.pesoKg, num) ==> r == Some(PesoMessage))
      && (Numeric(f.pesoKg, num) && f.gmd != "" && num(f.gmd).None? ==> r == Some(GmdMessage))
  {
    if f.bovinoCodigo == "" || f.tipo == "" || f.fecha == "" then Some(RequiredMessage)
    else if f.tipo == Ordeno && !Numeric(f.litros, num) then Some(LitrosMessage)
    else if f.tipo == Ordeno && f.turno == "" then Some(TurnoMessage)
    else if f.tipo == Engorde && !Numeric(f.pesoKg, num) then Some(PesoMessage)
    else if f.tipo == Engorde && f.gmd != "" && num(f.gmd).None? then Some(GmdMessage)
    else None
  }

  /** Where the event id comes from: `crypto.randomUUID()` when the runtime
      has it, otherwise one random hex digit for each position of the
      version-4 template. */
  datatype IdSource = Crypto(uuid: string) | MathRandom(draws: seq<Nibble>)

  /** `generateEventId`. Its four arguments do not take part. */
  function GenerateEventId(bovinoCodigo: string, tipo: string, fecha: string, descripcion: string, src: IdSource): (id: string)
    requires src.MathRandom? ==> |src.draws| == 36
    ensures src.Crypto? ==> id == src.uuid
    ensures src.MathRandom? ==> IsUuid(Some(id)) && id[14] == '4' && id[19] in "89ab"
  {
    match src
    case Crypto(u) => u
    case MathRandom(rs) =>
      var u := FallbackUuid(rs);
      IsUuidIffLayout(Some(u));
      u
  }

  /** The event id depends on the random source only: two submissions that
      differ in every field draw the same id from the same source. */
  lemma EventIdIgnoresForm(f: Form, g: Form, src: IdSource)
    requires src.MathRandom? ==> |src.draws| == 36
    ensures GenerateEventId(f.bovinoCodigo, f.tipo, f.fecha, f.descripcion, src)
         == GenerateEventId(g.bovinoCodigo, g.tipo, g.fecha, g.descripcion, src)
  {
  }

  /** The row inserted for an accepted form and the animal's id. */
  function EventRowFor(f: Form, bovinoId: string, num: Parse): (row: EventRow)
    requires Acceptable(f, num)
    ensures row.bovinoId == bovinoId && row.tipo == f.tipo && row.fecha == f.fecha
    ensures row.descripcion == EmptyToNull(f.descripcion)
    ensures row.litros.Some? <==> f.tipo == Ordeno
    ensures row.litros.Some? ==> row.litros == num(f.litros)
    ensures row.turno.Some? <==> f.tipo == Ordeno
    ensures row.pesoKg.Some? <==> f.tipo == Engorde
    ensures row.pesoKg.Some? ==> row.pesoKg == num(f.pesoKg)
    ensures row.gmd.Some? <==> f.tipo == Engorde && f.gmd != ""
    ensures row.gmd.Some? ==> row.gmd == num(f.gmd)
    ensures row.medicamento == row.dosis == row.veterinario == row.observaciones == None
    ensures row.costo == None && row.ubicacion == row.hora == row.comprador == row.destino == None
  {
    var milking := f.tipo == Ordeno;
    var fattening := f.tipo == Engorde;
    EventRow(
      bovinoId, f.tipo, f.fecha, EmptyToNull(f.descripcion),
      None, None, None, None,
      if fattening then num(f.pesoKg) else None,
      None, None, None, None, None,
      if milking then num(f.litros) else None,
      if milking then Some(f.turno) else None,
      if fattening && f.gmd != "" then num(f.gmd) else None)
  }

  /** How a submission ends, and the alert it shows. */
  datatype Outcome =
    | Rejected(message: string)
    | LookupFailed(message: string)
    | InsertFailed(message: string)
    | Saved(id: string)

  function Alert(o: Outcome): string {
    match o
    case Rejected(m) => m
    case LookupFailed(m) => "Error buscando bovino: " + m
    case InsertFailed(m) => "Error al guardar el evento: " + m
    case Saved(_) => "Evento registrado exitosamente"
  }

  /** The events after a submission and how it ended. */
  datatype Submission = Submission(events: map<string, EventRow>, outcome: Outcome)

  /** The id `single()` finds for a code: the store's error when it refuses
      the query, the one-row error when no animal has the code. */
  function LookupCattle(cattle: map<string, CattleRecord>, codigo: string, fail: Faults): (r: Result<string, string>)
    ensures r.Ok? <==> codigo in cattle && fail(SelectCattleByCode(codigo)).None?
    ensures r.Ok? ==> r.value == cattle[codigo].id
  {
    match fail(SelectCattleByCode(codigo))
    case Some(m) => Err(m)
    case None => if codigo in cattle then Ok(cattle[codigo].id) else Err(MultipleRowsMessage)
  }

  /** `handleSubmit`. */
  function Submit(s: Store, f: Form, num: Parse, src: IdSource, fail: Faults): (r: Submission)
    requires src.MathRandom? ==> |src.draws| == 36
    ensures r.outcome.Rejected? <==> !Acceptable(f, num)
    ensures !r.outcome.Saved? ==> r.events == s.events
    ensures r.outcome.Saved? ==> r.outcome.id !in s.events && r.events.Keys == s.events.Keys + {r.outcome.id}
  {
    match Validate(f, num)
    case Some(m) => Submission(s.events, Rejected(m))
    case None =>
      match LookupCattle(s.cattle, f.bovinoCodigo, fail)
      case Err(m) => Submission(s.events, LookupFailed(m))
      case Ok(bovinoId) =>
        var id := GenerateEventId(f.bovinoCodigo, f.tipo, f.fecha, f.descripcion, src);
        match fail(InsertEvent(id))
        case Some(m) => Submission(s.events, InsertFailed(m))
        case None =>
          if id in s.events then Submission(s.events, InsertFailed(DuplicateIdMessage))
          else Submission(s.events[id := EventRowFor(f, bovinoId, num)], Saved(id))
  }

  /** A saved event is the row of the form for the animal with the form's
      code, stored under the drawn id, and nothing else changed. */
  lemma SubmitSaves(s: Store, f: Form, num: Parse, src: IdSource, fail: Faults)
    requires src.MathRandom? ==> |src.draws| == 36
    requires Submit(s, f, num, src, fail).outcome.Saved?
    ensures var r := Submit(s, f, num, src, fail);
      && Acceptable(f, num)
      && f.bovinoCodigo in s.cattle
      && r.outcome.id == GenerateEventId(f.bovinoCodigo, f.tipo, f.fecha, f.descripcion, src)
      && r.events == s.events[r.outcome.id := EventRowFor(f, s.cattle[f.bovinoCodigo].id, num)]
  {
  }

  /** An accepted form for a stored animal is saved exactly when the store
      takes the lookup and the insert and the drawn id is new. */
  lemma SubmitSavedIff(s: Store, f: Form, num: Parse, src: IdSource, fail: Faults)
    requires src.MathRandom? ==> |src.draws| == 36
    ensures var id := GenerateEventId(f.bovinoCodigo, f.tipo, f.fecha, f.descripcion, src);
      Submit(s, f, num, src, fail).outcome.Saved? <==>
        && Acceptable(f, num)
        && f.bovinoCodigo in s.cattle
        && fail(SelectCattleByCode(f.bovinoCodigo)).None?
        && fail(InsertEvent(id)).None?
        && id !in s.events
  {
  }

  /** A code no animal has is reported as a failed lookup: the page's
      "not found" alert is never reached, since `single()` reports zero rows
      as an error. */
  lemma UnknownCodeFailsLookup(s: Store, f: Form, num: Parse, src: IdSource, fail: Faults)
    requires src.MathRandom? ==> |src.draws| == 36
    requires Acceptable(f, num) && f.bovinoCodigo !in s.cattle
    ensures Submit(s, f, num, src, fail).outcome.LookupFailed?
    ensures fail(SelectCattleByCode(f.bovinoCodigo)).None? ==>
      Submit(s, f, num, src, fail).outcome == LookupFailed(MultipleRowsMessage)
  {
  }

  /** A rejected form reaches the store in no way: its outcome is the same
      whatever the store holds and whatever it would refuse. */
  lemma RejectionIgnoresStore(s: Store, t: Store, f: Form, num: Parse, src: IdSource, fail: Faults, fail2: Faults)
    requires src.MathRandom? ==> |src.draws| == 36
    requires !Acceptable(f, num)
    ensures Submit(s, f, num, src, fail).outcome == Submit(t, f, num, src, fail2).outcome == Rejected(Validate(f, num).value)
  {
  }
}
