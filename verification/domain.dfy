/**
 * The three tables of the livestock store (owners, cattle, events) as
 * immutable rows, and the store as maps keyed the way the tables are.
 */
module Domain {
  import opened Wrappers

  /** A row of `propietarios` (owners) without its id. */
  datatype OwnerRow = OwnerRow(
    tipoPropietario: string,
    nombre: string,
    apellidos: Option<string>,
    tipoDocumento: string,
    numeroDocumento: string,
    telefono: Option<string>,
    email: Option<string>,
    direccion: Option<string>,
    ciudad: Option<string>,
    departamento: Option<string>,
    observaciones: Option<string>)

  /** A row of `bovinos` (cattle) as a client submits it: every column but
      `codigo` may be absent, including the id. */
  datatype Bovino = Bovino(
    id: Option<string>,
    codigo: string,
    tagRfid: Option<string>,
    nombre: Option<string>,
    raza: Option<string>,
    sexo: Option<string>,
    fechaNacimiento: Option<string>,
    estado: Option<string>,
    propietarioId: Option<string>,
    pesoNacimiento: Option<real>,
    pesoActual: Option<real>,
    color: Option<string>,
    marcas: Option<string>,
    idPropietario: Option<string>,
    nombrePropietario: Option<string>,
    ubicacionActual: Option<string>,
    coordenadas: Option<string>,
    observaciones: Option<string>,
    foto: Option<string>)

  /** A stored cattle row: the id the store holds for it and the submitted columns. */
  datatype CattleRecord = CattleRecord(id: string, row: Bovino)

  /** A row of `eventos` (events) without its id. The importer writes the
      first group of optional columns, the event form the second. */
  datatype EventRow = EventRow(
    bovinoId: string,
    tipo: string,
    fecha: string,
    descripcion: Option<string>,
    medicamento: Option<string>,
    dosis: Option<string>,
    veterinario: Option<string>,
    observaciones: Option<string>,
    pesoKg: Option<real>,
    costo: Option<real>,
    ubicacion: Option<string>,
    hora: Option<string>,
    comprador: Option<string>,
    destino: Option<string>,
    litros: Option<real>,
    turno: Option<string>,
    gmd: Option<real>)

  /** The store: owners by id, cattle by their unique `codigo`, events by id. */
  datatype Store = Store(
    owners: map<string, OwnerRow>,
    cattle: map<string, CattleRecord>,
    events: map<string, EventRow>)

  /** A call the code makes on the store. The store may refuse any call;
      which ones it refuses is a parameter of the model (`Faults`). */
  datatype StoreCall =
    | UpsertOwnerById(id: string)
    | SelectOwnerByName(nombre: string)
    | UpdateOwner(id: string)
    | InsertOwner(nombre: string)
    | UpsertCattle
    | SelectCattleByCode(codigo: string)
    | InsertCattle(codigo: string)
    | UpsertEvents
    | InsertEvent(id: string)

  /** The error message the store answers a call with, or None when the call succeeds. */
  type Faults = StoreCall -> Option<string>

  /** A store that accepts every call. */
  function NoFaults(c: StoreCall): Option<string> {
    None
  }

  /** The error the client library reports when a query that must return one
      row returns several (`maybeSingle`, `single`) or none (`single`). */
  const MultipleRowsMessage: string := "JSON object requested, multiple (or no) rows returned"

  /** Writes made by a stage up to the point where it stopped, and why it stopped. */
  datatype Partial<S> = Partial(state: S, failure: Option<string>)

  /** Length of the longest string of a set. */
  function MaxLength(ss: set<string>): (n: nat)
    ensures forall s :: s in ss ==> |s| <= n
    ensures ss != {} ==> exists s :: s in ss && |s| == n
  {
    if ss == {} then 0
    else
      var s :| s in ss;
      var m := MaxLength(ss - {s});
      if |s| >= m then |s| else m
  }

  /** An id the store can hand out for a new row: different from every id in use. */
  function FreshId(used: set<string>): (id: string)
    ensures id !in used
    ensures id != ""
  {
    seq(MaxLength(used) + 1, _ => '0')
  }

  /** Ids of the stored cattle rows. */
  function CattleIds(cattle: map<string, CattleRecord>): set<string> {
    set c | c in cattle :: cattle[c].id
  }
}
