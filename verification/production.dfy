/**
 * The production dashboard (app/produccion/page.tsx): how many cattle there
 * are for each productive purpose, and each purpose's share of the herd as
 * a rounded percentage.
 */
module Production {
  import opened Wrappers
  import opened Text
  import opened Lists

  /** The purposes the dashboard knows. */
  const Carne: string := "Carne"
  const Leche: string := "Leche"
  const DobleProposito: string := "Doble propósito"
  const Engorde: string := "Engorde"
  const Reproduccion: string := "Reproducción"
  const Desconocido: string := "Desconocido"

  datatype Kpis = Kpis(total: nat, carne: nat, leche: nat, dobleProposito: nat, engorde: nat, reproduccion: nat, desconocido: nat)

  /** The figures shown before the read completes, and kept when it fails. */
  const Initial: Kpis := Kpis(0, 0, 0, 0, 0, 0, 0)

  predicate IsCarne(v: Option<string>) { v == Some(Carne) }
  predicate IsLeche(v: Option<string>) { v == Some(Leche) }
  predicate IsDobleProposito(v: Option<string>) { v == Some(DobleProposito) }
  predicate IsEngorde(v: Option<string>) { v == Some(Engorde) }
  predicate IsReproduccion(v: Option<string>) { v == Some(Reproduccion) }
  predicate IsDesconocido(v: Option<string>) { v == Some(Desconocido) }
  predicate IsMissing(v: Option<string>) { !Truthy(v) }

  /** A value that lands in one of the six figures. */
  predicate Classified(v: Option<string>) {
    IsCarne(v) || IsLeche(v) || IsDobleProposito(v) || IsEngorde(v) || IsReproduccion(v) || IsDesconocido(v) || IsMissing(v)
  }

  /** The figures of one list of `finalidad_productiva` values; 'Desconocido'
      also counts the rows with no purpose. */
  function Count(vs: seq<Option<string>>): (k: Kpis)
    ensures k.total == |vs|
  {
    Kpis(|vs|,
      CountWhere(vs, IsCarne),
      CountWhere(vs, IsLeche),
      CountWhere(vs, IsDobleProposito),
      CountWhere(vs, IsEngorde),
      CountWhere(vs, IsReproduccion),
      CountWhere(vs, IsDesconocido) + CountWhere(vs, IsMissing))
  }

  function Sum(k: Kpis): nat {
    k.carne + k.leche + k.dobleProposito + k.engorde + k.reproduccion + k.desconocido
  }

  /** The six figures together count exactly the classified rows. */
  lemma {:induction false} SumCountsClassified(vs: seq<Option<string>>)
    ensures Sum(Count(vs)) == CountWhere(vs, Classified)
    decreases |vs|
  {
    if vs != [] {
      SumCountsClassified(vs[1..]);
    }
  }

  /** A count reaches the length exactly when every element qualifies. */
  lemma {:induction false} CountAll(vs: seq<Option<string>>, p: Option<string> -> bool)
    ensures CountWhere(vs, p) == |vs| <==> forall i :: 0 <= i < |vs| ==> p(vs[i])
    decreases |vs|
  {
    if vs != [] {
      CountAll(vs[1..], p);
      if !p(vs[0]) {
        assert CountWhere(vs[1..], p) <= |vs[1..]|;
      } else if forall i :: 0 <= i < |vs[1..]| ==> p(vs[1..][i]) {
        assert forall i :: 0 <= i < |vs| ==> p(vs[i]) by {
          forall i | 0 < i < |vs| ensures p(vs[i]) {
            assert vs[i] == vs[1..][i - 1];
          }
        }
      }
    }
  }

  /** The six figures never add up to more than the herd, and add up to it
      exactly when every row has a known purpose, 'Desconocido' or none. */
  lemma SumWithinTotal(vs: seq<Option<string>>)
    ensures Sum(Count(vs)) <= Count(vs).total
    ensures Sum(Count(vs)) == Count(vs).total <==> forall i :: 0 <= i < |vs| ==> Classified(vs[i])
  {
    SumCountsClassified(vs);
    CountAll(vs, Classified);
  }

  /** The figures after the read: the initial ones when the store refuses it,
      none counted when it answers with no data. */
  function Load(fetched: Result<Option<seq<Option<string>>>, string>): (k: Kpis)
    ensures fetched.Err? ==> k == Initial
    ensures fetched.Ok? && fetched.value.None? ==> Sum(k) == 0 && k.total == 0
    ensures fetched.Ok? && fetched.value.Some? ==> k.total == |fetched.value.value|
  {
    match fetched
    case Err(_) => Initial
    case Ok(data) => Count(if data.Some? then data.value else [])
  }

  /** `total ? Math.round((valor / total) * 100) : 0`, in exact arithmetic. */
  function Share(valor: nat, total: nat): (pct: nat)
    ensures total == 0 ==> pct == 0
    ensures total > 0 ==> 2 * total * pct <= 200 * valor + total < 2 * total * pct + 2 * total
  {
    if total == 0 then 0 else (200 * valor + total) / (2 * total)
  }

  /** A purpose's share is a percentage: at most 100, and 100 for the whole herd. */
  lemma ShareIsPercentage(valor: nat, total: nat)
    requires valor <= total
    ensures Share(valor, total) <= 100
    ensures total > 0 && valor == total ==> Share(valor, total) == 100
    ensures valor == 0 ==> Share(valor, total) == 0
  {
    var pct := Share(valor, total);
    if total > 0 {
      LessByFactor(2 * total, pct, 101);
      if valor == total {
        LessByFactor(2 * total, 99, pct);
      }
      if valor == 0 {
        LessByFactor(2 * total, pct, 1);
      }
    }
  }

  /** Dividing both sides of a strict inequality by the same positive factor. */
  lemma LessByFactor(c: nat, a: nat, b: nat)
    requires c > 0 && c * a < c * b
    ensures a < b
  {
  }
}
