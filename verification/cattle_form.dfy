/**
 * The form that registers one animal (app/nuevo/page.tsx): the code is
 * required; it and five optional columns go to the store in one insert,
 * an empty optional field as null.
 */
module CattleForm {
  import opened Wrappers
  import opened Text
  import opened Domain
  import CattleList

  const CodigoMessage: string := "Código requerido"

  /** The error the store gives for a code already in use. */
  const DuplicateCodeMessage: string := "duplicate key value violates unique constraint \"bovinos_codigo_key\""

  datatype Form = Form(codigo: string, nombre: string, raza: string, sexo: string, estado: string, fechaNacimiento: string)

  /** The form as the page opens: every field empty but the state, 'Activo'. */
  const Initial: Form := Form("", "", "", "", "Activo", "")

  /** The payload of `guardar`: the code as typed, the rest `|| null`, and
      no value for any other column. */
  function Payload(f: Form): (b: Bovino)
    ensures b.codigo == f.codigo && b.id.None?
    ensures b.nombre.None? <==> f.nombre == ""
    ensures b.raza.None? <==> f.raza == ""
    ensures b.sexo.None? <==> f.sexo == ""
    ensures b.estado.None? <==> f.estado == ""
    ensures b.fechaNacimiento.None? <==> f.fechaNacimiento == ""
    ensures OrElse(b.nombre, "") == f.nombre && OrElse(b.raza, "") == f.raza && OrElse(b.sexo, "") == f.sexo
    ensures OrElse(b.estado, "") == f.estado && OrElse(b.fechaNacimiento, "") == f.fechaNacimiento
    ensures b.tagRfid == b.propietarioId == b.color == b.marcas == b.idPropietario == None
    ensures b.nombrePropietario == b.ubicacionActual == b.coordenadas == b.observaciones == b.foto == None
    ensures b.pesoNacimiento == b.pesoActual == None
  {
    Bovino(None, f.codigo, None, EmptyToNull(f.nombre), EmptyToNull(f.raza), EmptyToNull(f.sexo),
      EmptyToNull(f.fechaNacimiento), EmptyToNull(f.estado), None, None, None, None, None, None, None,
      None, None, None, None)
  }

  /** How `guardar` ends; the alert shows the message. */
  datatype Outcome = Rejected(message: string) | InsertFailed(message: string) | Saved

  /** `guardar`: one insert; the store refuses a code already in use. */
  function Save(cattle: map<string, CattleRecord>, f: Form, fail: Faults): (r: (map<string, CattleRecord>, Outcome))
    ensures r.1 == Rejected(CodigoMessage) <==> f.codigo == ""
    ensures !r.1.Saved? ==> r.0 == cattle
    ensures r.1.Saved? ==> f.codigo != "" && f.codigo !in cattle && f.codigo in r.0
    ensures r.1.Saved? ==> r.0 == cattle[f.codigo := CattleRecord(r.0[f.codigo].id, Payload(f))]
    ensures r.1.Saved? ==> r.0[f.codigo].id !in CattleIds(cattle)
  {
    if f.codigo == "" then (cattle, Rejected(CodigoMessage))
    else
      match fail(InsertCattle(f.codigo))
      case Some(m) => (cattle, InsertFailed(m))
      case None =>
        if f.codigo in cattle then (cattle, InsertFailed(DuplicateCodeMessage))
        else
          var id := FreshId(CattleIds(cattle));
          (cattle[f.codigo := CattleRecord(id, Payload(f))], Saved)
  }

  /** Saving twice never stores a code twice: the second save of the same
      form is refused and changes nothing. */
  lemma SaveTwiceRefused(cattle: map<string, CattleRecord>, f: Form, fail: Faults)
    requires Save(cattle, f, fail).1.Saved?
    ensures var once := Save(cattle, f, fail).0;
      Save(once, f, fail).1.InsertFailed? && Save(once, f, fail).0 == once
  {
  }

  /** The form as it opens, given a code, stores an active animal. */
  lemma InitialIsActive(codigo: string)
    requires codigo != ""
    ensures Payload(Initial.(codigo := codigo)).estado == Some("Activo")
  {
  }

  /** The new animal is listed when the cattle list is searched for its code. */
  lemma SavedAnimalIsFoundByCode(f: Form)
    ensures CattleList.Matches(Payload(f), f.codigo)
  {
    ContainsEmptyAndSelf(Lower(f.codigo));
  }
}
