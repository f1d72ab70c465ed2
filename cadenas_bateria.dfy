/** The localised labels for battery codes: three lookup tables that are
    refilled whenever the display language changes. */
module CadenasBateria {
  import opened JavaLang
  import opened Android

  /** The localised strings one reload reads from the resources
      (`R.string.bat_*`), in the resources' current language. The strings are
      opaque values of the type parameter `E`: nothing here depends on their
      characters. */
  datatype Textos<E> = Textos(
    desconectada: E,
    saludMuerta: E,
    saludBuena: E,
    saludVoltaje: E,
    saludCaliente: E,
    saludDesconocida: E,
    saludFallo: E,
    conCorriente: E,
    conUsb: E,
    estCargando: E,
    estDescargando: E,
    estLlena: E,
    estNoCargando: E,
    estDesconocido: E)

  const CODIGOS_SALUD: set<int32> := {
    BATTERY_HEALTH_UNKNOWN, BATTERY_HEALTH_GOOD, BATTERY_HEALTH_OVERHEAT,
    BATTERY_HEALTH_DEAD, BATTERY_HEALTH_OVER_VOLTAGE, BATTERY_HEALTH_UNSPECIFIED_FAILURE}
  const CODIGOS_ESTADO: set<int32> := {
    BATTERY_STATUS_UNKNOWN, BATTERY_STATUS_CHARGING, BATTERY_STATUS_DISCHARGING,
    BATTERY_STATUS_NOT_CHARGING, BATTERY_STATUS_FULL}
  const CODIGOS_CONEXION: set<int32> := {BATTERY_PLUGGED_AC, BATTERY_PLUGGED_USB}

  /** The six entries a reload puts in the health table. */
  function TablaSalud<E>(t: Textos<E>): (m: map<int32, E>)
    ensures m.Keys == CODIGOS_SALUD
  {
    var m := map[
      BATTERY_HEALTH_DEAD := t.saludMuerta,
      BATTERY_HEALTH_GOOD := t.saludBuena,
      BATTERY_HEALTH_OVER_VOLTAGE := t.saludVoltaje,
      BATTERY_HEALTH_OVERHEAT := t.saludCaliente,
      BATTERY_HEALTH_UNKNOWN := t.saludDesconocida,
      BATTERY_HEALTH_UNSPECIFIED_FAILURE := t.saludFallo];
    assert m.Keys == {1, 2, 3, 4, 5, 6};
    m
  }

  /** The two entries a reload puts in the connection table. */
  function TablaConexion<E>(t: Textos<E>): (m: map<int32, E>)
    ensures m.Keys == CODIGOS_CONEXION
  {
    var m := map[BATTERY_PLUGGED_AC := t.conCorriente, BATTERY_PLUGGED_USB := t.conUsb];
    assert m.Keys == {1, 2};
    m
  }

  /** The five entries a reload puts in the status table. */
  function TablaEstado<E>(t: Textos<E>): (m: map<int32, E>)
    ensures m.Keys == CODIGOS_ESTADO
  {
    var m := map[
      BATTERY_STATUS_CHARGING := t.estCargando,
      BATTERY_STATUS_DISCHARGING := t.estDescargando,
      BATTERY_STATUS_FULL := t.estLlena,
      BATTERY_STATUS_NOT_CHARGING := t.estNoCargando,
      BATTERY_STATUS_UNKNOWN := t.estDesconocido];
    assert m.Keys == {1, 2, 3, 4, 5};
    m
  }

  /** A reload over tables that hold at most the reload's keys leaves exactly
      the reload's tables. */
  lemma TablasCompletas<E>(salud: map<int32, E>, conect: map<int32, E>,
                        estado: map<int32, E>, t: Textos<E>)
    requires salud.Keys <= CODIGOS_SALUD
    requires conect.Keys <= CODIGOS_CONEXION
    requires estado.Keys <= CODIGOS_ESTADO
    ensures salud + TablaSalud(t) == TablaSalud(t)
    ensures conect + TablaConexion(t) == TablaConexion(t)
    ensures estado + TablaEstado(t) == TablaEstado(t)
  {}

  /** `CadenasBateria`. The Java class keeps the current language `sActual`
      in a static field; since the class has exactly one instance it is a
      field of that instance here. */
  class CadenasBateria<E> {
    var sActual: Option<string>
    var mSalud: map<int32, E>
    var mEstado: map<int32, E>
    var mConect: map<int32, E>
    var sDesconectada: Option<E>
    /** The strings of the last reload, if any. */
    ghost var cargados: Option<Textos<E>>

    /** Before the first reload every table is empty; after it the tables
        hold exactly the last reload's strings. */
    ghost predicate Valid()
      reads this
    {
      && (cargados.None? ==>
            sActual == None && sDesconectada == None &&
            mSalud == map[] && mEstado == map[] && mConect == map[])
      && (cargados.Some? ==>
            sActual.Some? && sActual.value != "" && sDesconectada == Some(cargados.value.desconectada) &&
            mSalud == TablaSalud(cargados.value) && mEstado == TablaEstado(cargados.value) &&
            mConect == TablaConexion(cargados.value))
    }

    constructor ()
      ensures Valid() && cargados == None
    {
      sActual := None;
      mSalud := map[];
      mEstado := map[];
      mConect := map[];
      sDesconectada := None;
      cargados := None;
    }

    /** `cargar`: reloads the strings only when the language is non-empty and
      differs from the cached one; the tables are filled entry by entry. */
    method Cargar(sIdioma: string, textos: Textos<E>)
      requires Valid()
      modifies this
      ensures Valid()
      ensures sIdioma == "" || old(sActual) == Some(sIdioma) ==> unchanged(this)
      ensures sIdioma != "" && old(sActual) != Some(sIdioma) ==>
        && sActual == Some(sIdioma)
        && cargados == Some(textos)
        && sDesconectada == Some(textos.desconectada)
        && mSalud == old(mSalud) + TablaSalud(textos)
        && mConect == old(mConect) + TablaConexion(textos)
        && mEstado == old(mEstado) + TablaEstado(textos)
        && mSalud.Keys == CODIGOS_SALUD && mConect.Keys == CODIGOS_CONEXION
        && mEstado.Keys == CODIGOS_ESTADO
    {
      if sIdioma != "" && sActual != Some(sIdioma) {
        ghost var salud0, conect0, estado0 := mSalud, mConect, mEstado;
        assert salud0.Keys <= CODIGOS_SALUD && conect0.Keys <= CODIGOS_CONEXION && estado0.Keys <= CODIGOS_ESTADO;
        TablasCompletas(salud0, conect0, estado0, textos);
        sActual := Some(sIdioma);
        sDesconectada := Some(textos.desconectada);
        PonerSalud(textos);
        PonerConexion(textos);
        PonerEstado(textos);
        cargados := Some(textos);
      }
    }

    /** The six `put`s into the health table. */
    method PonerSalud(textos: Textos<E>)
      modifies this`mSalud
      ensures mSalud == old(mSalud) + TablaSalud(textos)
    {
      mSalud := mSalud[BATTERY_HEALTH_DEAD := textos.saludMuerta];
      mSalud := mSalud[BATTERY_HEALTH_GOOD := textos.saludBuena];
      mSalud := mSalud[BATTERY_HEALTH_OVER_VOLTAGE := textos.saludVoltaje];
      mSalud := mSalud[BATTERY_HEALTH_OVERHEAT := textos.saludCaliente];
      mSalud := mSalud[BATTERY_HEALTH_UNKNOWN := textos.saludDesconocida];
      mSalud := mSalud[BATTERY_HEALTH_UNSPECIFIED_FAILURE := textos.saludFallo];
    }

    /** The two `put`s into the connection table. */
    method PonerConexion(textos: Textos<E>)
      modifies this`mConect
      ensures mConect == old(mConect) + TablaConexion(textos)
    {
      mConect := mConect[BATTERY_PLUGGED_AC := textos.conCorriente];
      mConect := mConect[BATTERY_PLUGGED_USB := textos.conUsb];
    }

    /** The five `put`s into the status table. */
    method PonerEstado(textos: Textos<E>)
      modifies this`mEstado
      ensures mEstado == old(mEstado) + TablaEstado(textos)
    {
      mEstado := mEstado[BATTERY_STATUS_CHARGING := textos.estCargando];
      mEstado := mEstado[BATTERY_STATUS_DISCHARGING := textos.estDescargando];
      mEstado := mEstado[BATTERY_STATUS_FULL := textos.estLlena];
      mEstado := mEstado[BATTERY_STATUS_NOT_CHARGING := textos.estNoCargando];
      mEstado := mEstado[BATTERY_STATUS_UNKNOWN := textos.estDesconocido];
    }

    /** `getEstado`: a plain lookup, `null` for a code not in the table. */
    function GetEstado(iEstado: int32): (r: Option<E>)
      reads this
      ensures r.None? <==> iEstado !in mEstado
      ensures Valid() && cargados.Some? ==>
        (r.Some? <==> iEstado in CODIGOS_ESTADO) &&
        (r.Some? ==> r.value == TablaEstado(cargados.value)[iEstado])
      ensures Valid() && cargados.None? ==> r.None?
    {
      if iEstado in mEstado then Some(mEstado[iEstado]) else None
    }

    /** `getSalud`: a plain lookup, `null` for a code not in the table. */
    function GetSalud(iSalud: int32): (r: Option<E>)
      reads this
      ensures r.None? <==> iSalud !in mSalud
      ensures Valid() && cargados.Some? ==>
        (r.Some? <==> iSalud in CODIGOS_SALUD) &&
        (r.Some? ==> r.value == TablaSalud(cargados.value)[iSalud])
      ensures Valid() && cargados.None? ==> r.None?
    {
      if iSalud in mSalud then Some(mSalud[iSalud]) else None
    }

    /** `getConexion`: the label of a plug code, with the "disconnected"
      label for every code not in the table. */
    function GetConexion(iEstado: int32): (r: Option<E>)
      reads this
      ensures iEstado in mConect ==> r == Some(mConect[iEstado])
      ensures iEstado !in mConect ==> r == sDesconectada
      ensures Valid() && cargados.Some? ==>
        r == Some(if iEstado == BATTERY_PLUGGED_AC then cargados.value.conCorriente
                  else if iEstado == BATTERY_PLUGGED_USB then cargados.value.conUsb
                  else cargados.value.desconectada)
      ensures Valid() && cargados.None? ==> r.None?
    {
      var sCadena := if iEstado in mConect then Some(mConect[iEstado]) else None;
      if sCadena.None? then sDesconectada else sCadena
    }
  }

  /** A second `cargar` with the same language reloads nothing, whatever
      strings the resources would now give. */
  method CargarDosVeces<E>(c: CadenasBateria<E>, sIdioma: string, t1: Textos<E>, t2: Textos<E>)
    requires c.Valid()
    modifies c
    ensures c.Valid()
    ensures sIdioma == "" ==> unchanged(c)
    ensures sIdioma != "" ==>
      && c.sActual == Some(sIdioma)
      && c.cargados == (if old(c.sActual) == Some(sIdioma) then old(c.cargados) else Some(t1))
      && c.mSalud == (if old(c.sActual) == Some(sIdioma) then old(c.mSalud) else TablaSalud(t1))
      && c.mEstado == (if old(c.sActual) == Some(sIdioma) then old(c.mEstado) else TablaEstado(t1))
      && c.mConect == (if old(c.sActual) == Some(sIdioma) then old(c.mConect) else TablaConexion(t1))
  {
    c.Cargar(sIdioma, t1);
    c.Cargar(sIdioma, t2);
  }

  /** The process-wide static slot that holds the single `CadenasBateria`. */
  class Proceso<E> {
    var objInstancia: CadenasBateria?<E>

    ghost predicate Valid()
      reads this, objInstancia
    {
      objInstancia != null ==> objInstancia.Valid()
    }

    constructor ()
      ensures Valid() && objInstancia == null
    {
      objInstancia := null;
    }

    /** `getInstancia`: creates the instance on the first call and returns
      that same instance on every later call. */
    method GetInstancia() returns (c: CadenasBateria<E>)
      requires Valid()
      modifies this
      ensures Valid() && c.Valid()
      ensures objInstancia == c
      ensures old(objInstancia) != null ==> c == old(objInstancia)
      ensures old(objInstancia) == null ==> fresh(c) && c.cargados == None
    {
      if objInstancia == null {
        objInstancia := new CadenasBateria<E>();
      }
      c := objInstancia;
    }
  }
}
