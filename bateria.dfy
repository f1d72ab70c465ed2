/** The battery record: the last known battery attributes and a flag that
    says whether any of them changed since the record was last reset. */
module Bateria {
  import opened JavaLang
  import opened Android

  /** Default scale of the raw level. */
  const I_ESCALA: int32 := 100
  /** Level below which the battery is in danger. */
  const NVL_DANGER: int32 := 15
  /** Level below which the battery deserves a warning. */
  const NVL_WARNING: int32 := 30

  const DIV_VOLTAJE: int32 := 1000
  const PORCENTAJE: int32 := 100
  const DIV_TEMPERATURA: int32 := 10

  /** Largest raw level whose product with `PORCENTAJE` fits in an `int`. */
  const MAX_SIN_DESBORDE: int32 := 21474836

  /** The percentage `getNivel` derives from a raw level and its scale: the
      level times 100 over the scale when the scale is positive (in Java `int`
      arithmetic), otherwise the raw level itself. */
  function GetNivel(iActual: int32, iEscala: int32): (r: int32)
    ensures iEscala <= 0 ==> r == iActual
    ensures 0 < iEscala && 0 <= iActual <= MAX_SIN_DESBORDE ==>
      r * iEscala <= iActual * PORCENTAJE < r * iEscala + iEscala
    ensures 0 < iEscala && -MAX_SIN_DESBORDE <= iActual < 0 ==>
      r * iEscala - iEscala < iActual * PORCENTAJE <= r * iEscala
    ensures 0 <= iActual <= iEscala && iActual <= MAX_SIN_DESBORDE ==> 0 <= r <= PORCENTAJE
    ensures 0 < iActual == iEscala <= MAX_SIN_DESBORDE ==> r == PORCENTAJE
  {
    if iEscala > 0 then
      var r := Div(Wrap(iActual * PORCENTAJE), iEscala);
      CotasPorcentaje(iActual, iEscala, r);
      r
    else
      iActual
  }

  /** A floor quotient of `iActual * 100` by a scale at least `iActual`
      is a percentage. */
  lemma CotasPorcentaje(iActual: int, iEscala: int, r: int)
    requires 0 < iEscala
    requires 0 <= iActual <= MAX_SIN_DESBORDE ==>
      0 <= r * iEscala <= iActual * PORCENTAJE < r * iEscala + iEscala
    ensures 0 <= iActual <= iEscala && iActual <= MAX_SIN_DESBORDE ==> 0 <= r <= PORCENTAJE
    ensures 0 < iActual == iEscala <= MAX_SIN_DESBORDE ==> r == PORCENTAJE
  {
    if 0 <= iActual <= iEscala && iActual <= MAX_SIN_DESBORDE {
      MulLe(0, r, iEscala);
      MulLe(iActual, iEscala, PORCENTAJE);
      MulLe(r, PORCENTAJE, iEscala);
      if iActual == iEscala {
        MulLe(PORCENTAJE + 1, r + 1, iEscala);
      }
    }
  }

  /** Multiplying by a positive number preserves and reflects `<=`. */
  lemma MulLe(x: int, y: int, e: int)
    requires 0 < e
    ensures x * e <= y * e <==> x <= y
  {
    if x <= y {
      assert (y - x) * e >= 0;
    } else {
      assert (x - y) * e > 0;
    }
  }

  /** The attributes of the record, without the modified flag. */
  datatype Datos = Datos(
    salud: int32,
    nivel: int32,
    conectada: int32,
    temperatura: real,
    voltaje: real,
    presente: bool,
    estado: int32,
    tecnologia: string)

  /** The attributes of a freshly created record. */
  const INICIAL: Datos := Datos(BATTERY_HEALTH_UNKNOWN, 0, 0, 0.0, 0.0, false, BATTERY_STATUS_UNKNOWN, "")

  /** Degrees Celsius for a reading in tenths of a degree. */
  function Temperatura(iTemperatura: int32): (c: real)
    ensures c * DIV_TEMPERATURA as real == iTemperatura as real
  {
    iTemperatura as real / DIV_TEMPERATURA as real
  }

  /** Volts for a reading in millivolts. */
  function Voltaje(iVoltaje: int32): (v: real)
    ensures v * DIV_VOLTAJE as real == iVoltaje as real
  {
    iVoltaje as real / DIV_VOLTAJE as real
  }

  /** Two readings give the same temperature only if they are equal, so a
      setter compares readings exactly. */
  lemma TemperaturaInyectiva(a: int32, b: int32)
    ensures Temperatura(a) == Temperatura(b) <==> a == b
  {}

  lemma VoltajeInyectivo(a: int32, b: int32)
    ensures Voltaje(a) == Voltaje(b) <==> a == b
  {}

  /** The battery record. The Java getters `getConectada`, `getNivel`,
      `getTemperatura`, `getVoltaje`, `getSalud`, `isPresente`, `getEstado`,
      `getTecnologia` and `isModificada` are reads of the fields below. */
  class Bateria {
    var iSalud: int32
    var iNivel: int32
    var iConectada: int32
    var fTemperatura: real
    var fVoltaje: real
    var bPresente: bool
    var iEstado: int32
    var sTecnologia: string
    /** Whether some attribute changed since the last `Reiniciar`. */
    var bModificada: bool

    /** The attributes, as a value. */
    function Actual(): Datos
      reads this
    {
      Datos(iSalud, iNivel, iConectada, fTemperatura, fVoltaje, bPresente, iEstado, sTecnologia)
    }

    constructor ()
      ensures Actual() == INICIAL && !bModificada
    {
      iSalud := BATTERY_HEALTH_UNKNOWN;
      iNivel := 0;
      iConectada := 0;
      fTemperatura := 0.0;
      fVoltaje := 0.0;
      bPresente := false;
      iEstado := BATTERY_STATUS_UNKNOWN;
      sTecnologia := "";
      bModificada := false;
    }

    method SetConectada(iConect: int32)
      modifies this
      ensures Actual() == old(Actual()).(conectada := iConect)
      ensures bModificada == (old(bModificada) || old(iConectada) != iConect)
    {
      if iConect != iConectada {
        bModificada := true;
        iConectada := iConect;
      }
    }

    /** Stores the percentage derived from a raw level and its scale. */
    method SetNivel(iActual: int32, iEscala: int32)
      modifies this
      ensures Actual() == old(Actual()).(nivel := GetNivel(iActual, iEscala))
      ensures bModificada == (old(bModificada) || old(iNivel) != GetNivel(iActual, iEscala))
    {
      var iTemporal := GetNivel(iActual, iEscala);
      if iNivel != iTemporal {
        bModificada := true;
        iNivel := iTemporal;
      }
    }

    /** `getNivelString`: the level followed by a percent sign. */
    function GetNivelString(): (s: string)
      reads this
      ensures 1 < |s| && s[|s| - 1] == '%'
      ensures ParseInt(s[..|s| - 1]) == Some(iNivel as int)
    {
      var s := ToString(iNivel) + "%";
      ParseToString(iNivel);
      assert s[..|s| - 1] == ToString(iNivel);
      s
    }

    /** Stores a temperature given in tenths of a degree. */
    method SetTemperatura(iTemperatura: int32)
      modifies this
      ensures Actual() == old(Actual()).(temperatura := Temperatura(iTemperatura))
      ensures bModificada == (old(bModificada) || old(fTemperatura) != Temperatura(iTemperatura))
    {
      var fTemporal := Temperatura(iTemperatura);
      if fTemporal != fTemperatura {
        bModificada := true;
        fTemperatura := fTemporal;
      }
    }

    /** Stores a voltage given in millivolts. */
    method SetVoltaje(iVoltaje: int32)
      modifies this
      ensures Actual() == old(Actual()).(voltaje := Voltaje(iVoltaje))
      ensures bModificada == (old(bModificada) || old(fVoltaje) != Voltaje(iVoltaje))
    {
      var fTemporal := Voltaje(iVoltaje);
      if fTemporal != fVoltaje {
        bModificada := true;
        fVoltaje := fTemporal;
      }
    }

    method SetSalud(iEstSalud: int32)
      modifies this
      ensures Actual() == old(Actual()).(salud := iEstSalud)
      ensures bModificada == (old(bModificada) || old(iSalud) != iEstSalud)
    {
      if iEstSalud != iSalud {
        bModificada := true;
        iSalud := iEstSalud;
      }
    }

    method SetPresente(bPresent: bool)
      modifies this
      ensures Actual() == old(Actual()).(presente := bPresent)
      ensures bModificada == (old(bModificada) || old(bPresente) != bPresent)
    {
      if bPresent != bPresente {
        bModificada := true;
        bPresente := bPresent;
      }
    }

    method SetEstado(iEstad: int32)
      modifies this
      ensures Actual() == old(Actual()).(estado := iEstad)
      ensures bModificada == (old(bModificada) || old(iEstado) != iEstad)
    {
      if iEstad != iEstado {
        bModificada := true;
        iEstado := iEstad;
      }
    }

    /** Stores a technology name; `null` is ignored. */
    method SetTecnologia(sTecno: Option<string>)
      modifies this
      ensures sTecno.None? ==> Actual() == old(Actual())
      ensures sTecno.Some? ==> Actual() == old(Actual()).(tecnologia := sTecno.value)
      ensures bModificada == (old(bModificada) || (sTecno.Some? && sTecno.value != old(sTecnologia)))
    {
      if sTecno.Some? && sTecno.value != sTecnologia {
        bModificada := true;
        sTecnologia := sTecno.value;
      }
    }

    /** Marks the record as not modified; the only way the flag is cleared. */
    method Reiniciar()
      modifies this
      ensures Actual() == old(Actual())
      ensures !bModificada
    {
      bModificada := false;
    }
  }
}
