/**
 * The form that registers one owner (app/nuevo-propietario/page.tsx): name
 * and document number are required after trimming, every text field is
 * trimmed, and an optional field left blank is stored as null.
 */
module OwnerForm {
  import opened Wrappers
  import opened Text
  import opened Domain
  import OwnerList

  const NombreMessage: string := "El nombre es obligatorio"
  const DocumentoMessage: string := "El número de documento es obligatorio"
  const SaveFailedMessage: string := "Error al guardar el propietario"
  const SavedMessage: string := "Propietario registrado exitosamente"

  datatype Form = Form(
    tipoPropietario: string,
    nombre: string,
    apellidos: string,
    tipoDocumento: string,
    numeroDocumento: string,
    telefono: string,
    email: string,
    direccion: string,
    ciudad: string,
    departamento: string,
    observaciones: string)

  /** The form as the page opens. */
  const Initial: Form := Form("Individual", "", "", "DNI", "", "", "", "", "", "", "")

  /** The checks of `handleSubmit`, in order: the alert of the first that fails. */
  function Validate(f: Form): (r: Option<string>)
    ensures r == Some(NombreMessage) <==> AllWhitespace(f.nombre)
    ensures r == Some(DocumentoMessage) <==> !AllWhitespace(f.nombre) && AllWhitespace(f.numeroDocumento)
    ensures r.None? <==> !AllWhitespace(f.nombre) && !AllWhitespace(f.numeroDocumento)
  {
    if Trim(f.nombre) == "" then Some(NombreMessage)
    else if Trim(f.numeroDocumento) == "" then Some(DocumentoMessage)
    else None
  }

  /** `s.trim() || null`. */
  function Optional(s: string): (o: Option<string>)
    ensures o.None? <==> AllWhitespace(s)
    ensures o.Some? ==> IsTrimOf(o.value, s) && o.value != ""
  {
    EmptyToNull(Trim(s))
  }

  /** o is what `s.trim() || null` stores: null for a blank text, otherwise
      the text without its surrounding whitespace. */
  ghost predicate StoredAs(o: Option<string>, s: string) {
    && (o.None? <==> AllWhitespace(s))
    && (o.Some? ==> IsTrimOf(o.value, s) && o.value != "")
  }

  /** The row inserted for a form. */
  function RowOf(f: Form): (row: OwnerRow)
    ensures row.tipoPropietario == f.tipoPropietario && row.tipoDocumento == f.tipoDocumento
    ensures IsTrimOf(row.nombre, f.nombre) && IsTrimOf(row.numeroDocumento, f.numeroDocumento)
    ensures StoredAs(row.apellidos, f.apellidos) && StoredAs(row.telefono, f.telefono)
    ensures StoredAs(row.email, f.email) && StoredAs(row.direccion, f.direccion)
    ensures StoredAs(row.ciudad, f.ciudad) && StoredAs(row.departamento, f.departamento)
    ensures StoredAs(row.observaciones, f.observaciones)
  {
    OwnerRow(
      f.tipoPropietario,
      Trim(f.nombre),
      Optional(f.apellidos),
      f.tipoDocumento,
      Trim(f.numeroDocumento),
      Optional(f.telefono),
      Optional(f.email),
      Optional(f.direccion),
      Optional(f.ciudad),
      Optional(f.departamento),
      Optional(f.observaciones))
  }

  /** A text already trimmed, as the form stores it. */
  predicate Trimmed(s: string) {
    Trim(s) == s
  }

  predicate TrimmedOption(o: Option<string>) {
    o.None? || (o.value != "" && Trimmed(o.value))
  }

  /** Every text the form writes is trimmed, and no optional field is stored
      as an empty text. */
  lemma {:induction false} RowIsTrimmed(f: Form)
    ensures var row := RowOf(f);
      && Trimmed(row.nombre) && Trimmed(row.numeroDocumento)
      && TrimmedOption(row.apellidos) && TrimmedOption(row.telefono) && TrimmedOption(row.email)
      && TrimmedOption(row.direccion) && TrimmedOption(row.ciudad) && TrimmedOption(row.departamento)
      && TrimmedOption(row.observaciones)
  {
    TrimIdempotent(f.nombre);
    TrimIdempotent(f.numeroDocumento);
    TrimIdempotent(f.apellidos);
    TrimIdempotent(f.telefono);
    TrimIdempotent(f.email);
    TrimIdempotent(f.direccion);
    TrimIdempotent(f.ciudad);
    TrimIdempotent(f.departamento);
    TrimIdempotent(f.observaciones);
  }

  /** The form as it opens, once given a name and a document number, stores
      an individual with a DNI and no optional data. */
  lemma InitialStoresDefaults(nombre: string, numero: string)
    requires !AllWhitespace(nombre) && !AllWhitespace(numero)
    ensures var row := RowOf(Initial.(nombre := nombre, numeroDocumento := numero));
      && Validate(Initial.(nombre := nombre, numeroDocumento := numero)).None?
      && row.tipoPropietario == "Individual" && row.tipoDocumento == "DNI"
      && row.apellidos == row.telefono == row.email == row.direccion == None
      && row.ciudad == row.departamento == row.observaciones == None
  {
    assert AllWhitespace("");
  }

  /** How a submission ends. */
  datatype Outcome = Rejected(message: string) | SaveFailed | Saved(id: string)

  function Alert(o: Outcome): string {
    match o
    case Rejected(m) => m
    case SaveFailed => SaveFailedMessage
    case Saved(_) => SavedMessage
  }

  /** `handleSubmit`: one insert, under an id the store chooses. */
  function Submit(owners: map<string, OwnerRow>, f: Form, fail: Faults): (r: (map<string, OwnerRow>, Outcome))
    ensures r.1.Rejected? <==> Validate(f).Some?
    ensures !r.1.Saved? ==> r.0 == owners
    ensures r.1.Saved? ==> r.1.id !in owners && r.0 == owners[r.1.id := RowOf(f)]
  {
    match Validate(f)
    case Some(m) => (owners, Rejected(m))
    case None =>
      var row := RowOf(f);
      if fail(InsertOwner(row.nombre)).Some? then (owners, SaveFailed)
      else
        var id := FreshId(owners.Keys);
        (owners[id := row], Saved(id))
  }

  /** A form is saved exactly when both required fields hold more than
      whitespace and the store takes the insert. */
  lemma SubmitSavedIff(owners: map<string, OwnerRow>, f: Form, fail: Faults)
    ensures Submit(owners, f, fail).1.Saved? <==>
      !AllWhitespace(f.nombre) && !AllWhitespace(f.numeroDocumento) && fail(InsertOwner(Trim(f.nombre))).None?
  {
  }

  /** The new owner is listed when the owner list is searched for the name
      as it was typed around its spaces. */
  lemma SavedOwnerIsFoundByName(f: Form)
    ensures OwnerList.Matches(RowOf(f), Trim(f.nombre))
  {
    ContainsEmptyAndSelf(Lower(Trim(f.nombre)));
  }
}
