/** The student-billing ledger of sistema.js: a list of student records, each
    with an owed balance fixed at registration and decremented by every payment,
    persisted as a whole after every successful change. */
module Sistema {

  datatype Option<+T> = None | Some(value: T)

  /** A payment: when it was made, how much, and what for. */
  datatype Pago = Pago(fecha: string, monto: real, concepto: string)

  /** A student record as the ledger stores it. */
  datatype Alumno = Alumno(
    id: string,
    nombre: string,
    grado: string,
    grupo: string,
    mensualidad: real,
    beca: real,
    pagos: seq<Pago>,
    adeudo: real)

  /** Yearly estimate owed on registration: ten monthly fees, each reduced by
      the scholarship percentage. */
  function AdeudoInicial(mensualidad: real, beca: real): real
  {
    mensualidad * (1.0 - beca / 100.0) * 10.0
  }

  /** The record that registration creates: no payments yet, the full yearly estimate owed. */
  function NuevoAlumno(id: string, nombre: string, grado: string, grupo: string,
                       mensualidad: real, beca: real): Alumno
  {
    Alumno(id, nombre, grado, grupo, mensualidad, beca, [], AdeudoInicial(mensualidad, beca))
  }

  /** Sum of the amounts of a list of payments. */
  function TotalPagado(ps: seq<Pago>): real
  {
    if ps == [] then 0.0 else ps[0].monto + TotalPagado(ps[1..])
  }

  /** A student's books balance: what is still owed plus everything paid is
      the balance fixed at registration. */
  ghost predicate Cuadra(a: Alumno)
  {
    a.adeudo + TotalPagado(a.pagos) == AdeudoInicial(a.mensualidad, a.beca)
  }

  ghost predicate Consistente(s: seq<Alumno>)
  {
    forall j :: 0 <= j < |s| ==> Cuadra(s[j])
  }

  /** One payment applied to one student: appended to its payments and
      subtracted from its balance. */
  function Pagar(a: Alumno, p: Pago): Alumno
  {
    a.(pagos := a.pagos + [p], adeudo := a.adeudo - p.monto)
  }

  /** Position of the first student, in list order, whose id is `id`. */
  function PrimerIndice(s: seq<Alumno>, id: string): (r: Option<nat>)
    ensures r.Some? ==> r.value < |s| && s[r.value].id == id
    ensures r.Some? ==> forall j :: 0 <= j < r.value ==> s[j].id != id
    ensures r.None? <==> forall j :: 0 <= j < |s| ==> s[j].id != id
  {
    if s == [] then None
    else if s[0].id == id then Some(0)
    else match PrimerIndice(s[1..], id)
         case None => None
         case Some(k) => Some(k + 1)
  }

  /** The list after a payment for student `id`, or None when no student has that id. */
  function PagoEnLista(s: seq<Alumno>, id: string, p: Pago): (r: Option<seq<Alumno>>)
    ensures r.None? <==> forall j :: 0 <= j < |s| ==> s[j].id != id
    ensures r.Some? ==> PrimerIndice(s, id).Some? && |r.value| == |s|
    ensures r.Some? ==>
              var i := PrimerIndice(s, id).value;
              && r.value[i].pagos == s[i].pagos + [p]
              && r.value[i].adeudo == s[i].adeudo - p.monto
              && r.value[i] == s[i].(pagos := r.value[i].pagos, adeudo := r.value[i].adeudo)
              && forall j :: 0 <= j < |s| && j != i ==> r.value[j] == s[j]
  {
    match PrimerIndice(s, id)
    case None => None
    case Some(i) => Some(s[i := Pagar(s[i], p)])
  }

  /** Storage content as the ledger reads it on start-up: an absent key is an empty ledger. */
  function CargarAlumnos(almacen: Option<seq<Alumno>>): seq<Alumno>
  {
    match almacen
    case None => []
    case Some(s) => s
  }

  lemma {:induction false} TotalPagadoAlFinal(ps: seq<Pago>, p: Pago)
    ensures TotalPagado(ps + [p]) == TotalPagado(ps) + p.monto
  {
    if ps == [] {
      assert ps + [p] == [p];
      assert [p][1..] == [];
    } else {
      assert (ps + [p])[1..] == ps[1..] + [p];
      TotalPagadoAlFinal(ps[1..], p);
    }
  }

  /** A newly registered student balances: nothing paid, the whole estimate owed. */
  lemma RegistroCuadra(id: string, nombre: string, grado: string, grupo: string,
                       mensualidad: real, beca: real)
    ensures Cuadra(NuevoAlumno(id, nombre, grado, grupo, mensualidad, beca))
    ensures NuevoAlumno(id, nombre, grado, grupo, mensualidad, beca).adeudo
            == mensualidad * (1.0 - beca / 100.0) * 10.0
  {
  }

  /** Without a scholarship the estimate is ten full monthly fees. */
  lemma AdeudoSinBeca(mensualidad: real)
    ensures AdeudoInicial(mensualidad, 0.0) == mensualidad * 10.0
  {
  }

  /** A payment keeps a student's books balanced. */
  lemma PagarCuadra(a: Alumno, p: Pago)
    requires Cuadra(a)
    ensures Cuadra(Pagar(a, p))
  {
    TotalPagadoAlFinal(a.pagos, p);
  }

  /** A run of payments, one after the other, for the same student. */
  function PagarVarios(a: Alumno, ps: seq<Pago>): Alumno
    decreases |ps|
  {
    if ps == [] then a else PagarVarios(Pagar(a, ps[0]), ps[1..])
  }

  /** After a run of payments the student's payments are the old ones followed
      by the new ones in order, the balance went down by exactly their total,
      and nothing else changed. */
  lemma {:induction false} PagosSucesivos(a: Alumno, ps: seq<Pago>)
    ensures PagarVarios(a, ps) == a.(pagos := a.pagos + ps, adeudo := a.adeudo - TotalPagado(ps))
    decreases |ps|
  {
    if ps == [] {
      assert a.pagos + ps == a.pagos;
    } else {
      PagosSucesivos(Pagar(a, ps[0]), ps[1..]);
      assert a.pagos + [ps[0]] + ps[1..] == a.pagos + ps;
    }
  }

  /** A payment keeps every student's books balanced. */
  lemma PagoConservaConsistencia(s: seq<Alumno>, id: string, p: Pago)
    requires Consistente(s)
    requires PagoEnLista(s, id, p).Some?
    ensures Consistente(PagoEnLista(s, id, p).value)
  {
    var i := PrimerIndice(s, id).value;
    PagarCuadra(s[i], p);
  }

  /** Registering a student keeps every student's books balanced. */
  lemma RegistroConservaConsistencia(s: seq<Alumno>, id: string, nombre: string, grado: string,
                                     grupo: string, mensualidad: real, beca: real)
    requires Consistente(s)
    ensures Consistente(s + [NuevoAlumno(id, nombre, grado, grupo, mensualidad, beca)])
  {
  }

  ghost predicate MismosIds(s: seq<Alumno>, t: seq<Alumno>)
  {
    |s| == |t| && forall j :: 0 <= j < |s| ==> s[j].id == t[j].id
  }

  /** Lookup only looks at ids, so two lists with the same ids in the same order answer alike. */
  lemma MismaBusqueda(s: seq<Alumno>, t: seq<Alumno>, id: string)
    requires MismosIds(s, t)
    ensures PrimerIndice(s, id) == PrimerIndice(t, id)
  {
  }

  /** A payment does not change where any id is found. */
  lemma PagoConservaBusqueda(s: seq<Alumno>, id: string, p: Pago, otro: string)
    requires PagoEnLista(s, id, p).Some?
    ensures PrimerIndice(PagoEnLista(s, id, p).value, otro) == PrimerIndice(s, otro)
  {
    MismaBusqueda(s, PagoEnLista(s, id, p).value, otro);
  }

  /** Lookup after registering `n`: an id already present still finds the
      earlier student (so a repeated id leaves the new record unreachable by
      id), and otherwise only the new record's id is found, at the end. */
  lemma {:induction false} BusquedaTrasRegistro(s: seq<Alumno>, n: Alumno, id: string)
    ensures PrimerIndice(s + [n], id)
            == if PrimerIndice(s, id).Some? then PrimerIndice(s, id)
               else if n.id == id then Some(|s|)
               else None
  {
    if s == [] {
      assert s + [n] == [n];
    } else {
      assert (s + [n])[1..] == s[1..] + [n];
      if s[0].id != id {
        BusquedaTrasRegistro(s[1..], n, id);
      }
    }
  }

  /** The ledger: the student list held in memory, and (as a ghost) what the
      browser's local storage holds under the ledger's key. */
  class SistemaEscolar {
    var alumnos: seq<Alumno>
    ghost var almacen: Option<seq<Alumno>>

    /** Reloading from storage would give back exactly the list in memory. */
    ghost predicate Sincronizado()
      reads this
    {
      alumnos == CargarAlumnos(almacen)
    }

    /** Start-up: the list is what storage holds, or empty when the key is absent. */
    constructor (almacenado: Option<seq<Alumno>>)
      ensures almacen == almacenado
      ensures alumnos == (if almacenado.Some? then almacenado.value else [])
      ensures Sincronizado()
    {
      alumnos := CargarAlumnos(almacenado);
      almacen := almacenado;
    }

    /** Overwrites storage with the whole current list. */
    method GuardarAlumnos()
      modifies this`almacen
      ensures almacen == Some(alumnos)
      ensures Sincronizado()
    {
      almacen := Some(alumnos);
    }

    /** The linear scan behind both lookups: the position of the first student
        with id `id`. */
    method IndiceDe(id: string) returns (r: Option<nat>)
      ensures r == PrimerIndice(alumnos, id)
    {
      var i := 0;
      while i < |alumnos| && alumnos[i].id != id
        invariant 0 <= i <= |alumnos|
        invariant forall j :: 0 <= j < i ==> alumnos[j].id != id
      {
        i := i + 1;
      }
      if i < |alumnos| {
        r := Some(i);
      } else {
        r := None;
      }
    }

    /** Appends a new student, with the balance derived from fee and
        scholarship, and saves. `id` stands for the clock reading the source
        uses as id. */
    method RegistrarAlumno(id: string, nombre: string, grado: string, grupo: string,
                           mensualidad: real, beca: real := 0.0)
      returns (nuevo: Alumno)
      modifies this
      ensures nuevo == NuevoAlumno(id, nombre, grado, grupo, mensualidad, beca)
      ensures nuevo.pagos == [] && nuevo.adeudo == mensualidad * (1.0 - beca / 100.0) * 10.0
      ensures alumnos == old(alumnos) + [nuevo]
      ensures almacen == Some(alumnos) && Sincronizado()
      ensures Consistente(old(alumnos)) ==> Consistente(alumnos)
    {
      nuevo := NuevoAlumno(id, nombre, grado, grupo, mensualidad, beca);
      alumnos := alumnos + [nuevo];
      GuardarAlumnos();
      RegistroCuadra(id, nombre, grado, grupo, mensualidad, beca);
    }

    /** Records a payment of `monto` for student `idAlumno` and saves; false,
        with nothing changed and nothing saved, when no student has that id.
        `fecha` stands for the clock reading the source stamps on the payment. */
    method RegistrarPago(idAlumno: string, monto: real, concepto: string, fecha: string)
      returns (ok: bool)
      modifies this
      ensures ok <==> exists j :: 0 <= j < |old(alumnos)| && old(alumnos)[j].id == idAlumno
      ensures !ok ==> unchanged(this)
      ensures ok ==> alumnos == PagoEnLista(old(alumnos), idAlumno, Pago(fecha, monto, concepto)).value
      ensures ok ==> almacen == Some(alumnos)
      ensures old(Sincronizado()) ==> Sincronizado()
      ensures Consistente(old(alumnos)) ==> Consistente(alumnos)
    {
      var k := IndiceDe(idAlumno);
      if k.None? {
        return false;
      }
      var i := k.value;
      var pago := Pago(fecha, monto, concepto);
      var alumno := alumnos[i];
      alumno := alumno.(pagos := alumno.pagos + [pago]);
      alumno := alumno.(adeudo := alumno.adeudo - pago.monto);
      ghost var antes := alumnos;
      alumnos := alumnos[i := alumno];
      GuardarAlumnos();
      ok := true;
      if Consistente(antes) {
        PagoConservaConsistencia(antes, idAlumno, pago);
      }
    }

    /** The first student with id `id`, or None when there is none. */
    method ObtenerAlumno(id: string) returns (r: Option<Alumno>)
      ensures r.None? <==> forall j :: 0 <= j < |alumnos| ==> alumnos[j].id != id
      ensures r.Some? ==> PrimerIndice(alumnos, id).Some?
                          && r.value == alumnos[PrimerIndice(alumnos, id).value]
    {
      var k := IndiceDe(id);
      r := if k.Some? then Some(alumnos[k.value]) else None;
    }
  }

  /** What a caller can conclude from the contracts alone: a registration with
      a 10% scholarship, a payment, a payment for an unknown id, and a
      registration with the default scholarship. */
  method EjemploDeUso()
  {
    var sistema := new SistemaEscolar(None);
    assert sistema.alumnos == [];
    var ana := sistema.RegistrarAlumno("1", "Ana", "5", "A", 500.0, 10.0);
    assert ana.adeudo == 4500.0;
    assert sistema.alumnos[0].id == "1";
    var ok := sistema.RegistrarPago("1", 1000.0, "Mensualidad", "2024-01-01T00:00:00.000Z");
    assert ok;
    assert sistema.alumnos[0].adeudo == 3500.0 && |sistema.alumnos[0].pagos| == 1;
    ok := sistema.RegistrarPago("2", 100.0, "x", "2024-01-01T00:00:00.000Z");
    assert !ok && sistema.alumnos[0].adeudo == 3500.0;
    var bob := sistema.RegistrarAlumno("3", "Bob", "3", "B", 300.0);
    assert bob.beca == 0.0 && bob.adeudo == 3000.0;
    assert sistema.alumnos[0].id != "3" && sistema.alumnos[1] == bob;
    var encontrado := sistema.ObtenerAlumno("3");
    assert encontrado == Some(bob);
  }
}
