/** The activity's broadcast receiver: it feeds each battery-changed intent
    into its battery record and notifies the activity only when the record
    changed. */
module InfoActivity {
  import opened JavaLang
  import opened Android
  import opened Bateria

  /** What the receiver keeps between two intents: the battery attributes,
      the cached scale and whether the next intent is the first. */
  datatype EstadoReceptor = EstadoReceptor(datos: Datos, escala: int32, inicial: bool)

  /** `cargaInicial`: on a non-null intent, the technology (if any) and the
      scale (100 if absent) are taken from it. */
  function TrasCargaInicial(s: EstadoReceptor, intent: Option<Intent>): (t: EstadoReceptor)
    ensures t.inicial == s.inicial
    ensures intent.None? ==> t == s
    ensures intent.Some? ==> t.escala == intent.value.scale.GetOr(I_ESCALA)
    ensures t.datos.(tecnologia := s.datos.tecnologia) == s.datos
    ensures intent.Some? ==> t.datos.tecnologia == intent.value.technology.GetOr(s.datos.tecnologia)
  {
    match intent
    case None => s
    case Some(i) =>
      var d := if i.technology.Some? then s.datos.(tecnologia := i.technology.value) else s.datos;
      EstadoReceptor(d, i.scale.GetOr(I_ESCALA), s.inicial)
  }

  /** `obenerDatos`: presence comes from the intent (false when the intent is
      null or lacks it); the other attributes are taken from the intent, with
      the receiver's defaults, only when the battery is present. */
  function TrasObtenerDatos(d: Datos, escala: int32, intent: Option<Intent>): (r: Datos)
    ensures r.presente <==> intent.Some? && intent.value.present == Some(true)
    ensures !r.presente ==> r == d.(presente := false)
    ensures r.tecnologia == d.tecnologia
  {
    match intent
    case None => d.(presente := false)
    case Some(i) =>
      if i.present.GetOr(false) then
        d.(presente := true,
           nivel := GetNivel(i.level.GetOr(0), escala),
           conectada := i.plugged.GetOr(0),
           salud := i.health.GetOr(1),
           temperatura := Temperatura(i.temperature.GetOr(0)),
           voltaje := Voltaje(i.voltage.GetOr(0)),
           estado := i.status.GetOr(0))
      else
        d.(presente := false)
  }

  /** `onReceive`: the initial load on the first intent only, then the data. */
  function Recibir(s: EstadoReceptor, intent: Option<Intent>): (t: EstadoReceptor)
    ensures !t.inicial
    ensures !s.inicial ==> t.escala == s.escala
    ensures !s.inicial ==> t.datos.tecnologia == s.datos.tecnologia
  {
    var c := if s.inicial then TrasCargaInicial(s, intent) else s;
    EstadoReceptor(TrasObtenerDatos(c.datos, c.escala, intent), c.escala, false)
  }

  /** Ingesting a snapshot a second time changes nothing. */
  lemma ObtenerDatosIdempotente(d: Datos, escala: int32, intent: Option<Intent>)
    ensures TrasObtenerDatos(TrasObtenerDatos(d, escala, intent), escala, intent)
         == TrasObtenerDatos(d, escala, intent)
  {}

  /** The same intent delivered twice in a row leaves the attributes as the
      first delivery left them, so the second delivery does not notify. */
  lemma RecibirDosVeces(s: EstadoReceptor, intent: Option<Intent>)
    ensures Recibir(Recibir(s, intent), intent) == Recibir(s, intent)
  {
    ObtenerDatosIdempotente(Recibir(s, intent).datos, Recibir(s, intent).escala, intent);
  }

  /** After the first intent the scale of later intents is ignored: the level
      is always derived with the cached scale. */
  lemma EscalaCacheada(s: EstadoReceptor, intent: Intent)
    requires !s.inicial && intent.present == Some(true)
    ensures Recibir(s, Some(intent)).datos.nivel == GetNivel(intent.level.GetOr(0), s.escala)
    ensures Recibir(s, Some(intent)).escala == s.escala
  {}

  /** A null intent only marks the battery as absent. */
  lemma IntentNulo(s: EstadoReceptor)
    ensures Recibir(s, None).datos == s.datos.(presente := false)
    ensures Recibir(s, None).escala == s.escala
  {}

  /** While the battery is absent, level, connection, health, temperature,
      voltage and status keep their stale values. */
  lemma AusenteNoActualiza(s: EstadoReceptor, intent: Intent)
    requires intent.present != Some(true)
    ensures Recibir(s, Some(intent)).datos.(presente := s.datos.presente, tecnologia := s.datos.tecnologia)
         == s.datos
  {}

  /** An intent that only says the battery is present yields the receiver's
      defaults: level 0, unplugged, health unknown, 0 degrees, 0 volts and
      status 0. */
  lemma ValoresPorDefecto(s: EstadoReceptor)
    ensures var d := Recibir(s, Some(Intent(None, None, None, None, None, None, None, Some(true), None))).datos;
      d.presente && d.nivel == 0 && d.conectada == 0 && d.salud == BATTERY_HEALTH_UNKNOWN &&
      d.temperatura == 0.0 && d.voltaje == 0.0 && d.estado == 0
  {}

  /** `InfoActivity.Receptor`. The activity's `onCambio` is the ghost log
      `avisos`: each call appends the attributes it was shown. */
  class Receptor {
    const objBateria: Bateria
    var iEscala: int32
    var bInicial: bool
    ghost var avisos: seq<Datos>

    /** Between two intents the record is never left marked as modified. */
    ghost predicate Valid()
      reads this, objBateria
    {
      !objBateria.bModificada
    }

    function Abstracto(): EstadoReceptor
      reads this, objBateria
    {
      EstadoReceptor(objBateria.Actual(), iEscala, bInicial)
    }

    constructor ()
      ensures Valid() && fresh(objBateria)
      ensures Abstracto() == EstadoReceptor(INICIAL, I_ESCALA, true)
      ensures avisos == []
    {
      objBateria := new Bateria();
      iEscala := I_ESCALA;
      bInicial := true;
      avisos := [];
    }

    /** `onReceive`: `onCambio` is called exactly when the intent changed some
      attribute of the record. */
    method OnReceive(intent: Option<Intent>)
      requires Valid()
      modifies this, objBateria
      ensures Valid()
      ensures Abstracto() == Recibir(old(Abstracto()), intent)
      ensures avisos == old(avisos) +
        (if objBateria.Actual() != old(objBateria.Actual()) then [objBateria.Actual()] else [])
    {
      ghost var antes := objBateria.Actual();
      if bInicial {
        CargaInicial(intent);
        bInicial := false;
      }
      ghost var medio := objBateria.Actual();
      assert objBateria.bModificada == (medio != antes);
      ObenerDatos(intent);
      assert objBateria.Actual().tecnologia == medio.tecnologia;
    }

    method CargaInicial(intent: Option<Intent>)
      modifies this, objBateria
      ensures bInicial == old(bInicial) && avisos == old(avisos)
      ensures Abstracto() == TrasCargaInicial(old(Abstracto()), intent)
      ensures objBateria.bModificada == (old(objBateria.bModificada) || objBateria.Actual() != old(objBateria.Actual()))
    {
      if intent.Some? {
        objBateria.SetTecnologia(intent.value.technology);
        iEscala := intent.value.scale.GetOr(I_ESCALA);
      }
    }

    method ObenerDatos(intent: Option<Intent>)
      modifies this`avisos, objBateria
      ensures !objBateria.bModificada
      ensures objBateria.Actual() == TrasObtenerDatos(old(objBateria.Actual()), iEscala, intent)
      ensures var cambio := old(objBateria.bModificada) || objBateria.Actual() != old(objBateria.Actual());
        avisos == old(avisos) + (if cambio then [objBateria.Actual()] else [])
    {
      ghost var antes := objBateria.Actual();
      if intent.Some? {
        var i := intent.value;
        objBateria.SetPresente(i.present.GetOr(false));
        if objBateria.bPresente {
          objBateria.SetNivel(i.level.GetOr(0), iEscala);
          objBateria.SetConectada(i.plugged.GetOr(0));
          objBateria.SetSalud(i.health.GetOr(1));
          objBateria.SetTemperatura(i.temperature.GetOr(0));
          objBateria.SetVoltaje(i.voltage.GetOr(0));
          objBateria.SetEstado(i.status.GetOr(0));
        }
      } else {
        objBateria.SetPresente(false);
      }
      assert objBateria.bModificada == (old(objBateria.bModificada) || objBateria.Actual() != antes);
      if objBateria.bModificada {
        OnCambio();
        objBateria.Reiniciar();
      }
    }

    /** The activity's `onCambio`, reduced to recording what it was shown. */
    method OnCambio()
      modifies this`avisos
      ensures avisos == old(avisos) + [objBateria.Actual()]
    {
      avisos := avisos + [objBateria.Actual()];
    }
  }

  /** Two deliveries of the same intent: the first notifies the activity at
      most once, and the second, `tras1` being the notifications after the
      first, does not notify it at all. */
  method MismaInstantaneaDosVeces(r: Receptor, intent: Option<Intent>) returns (ghost tras1: seq<Datos>)
    requires r.Valid()
    modifies r, r.objBateria
    ensures r.Valid()
    ensures var t := Recibir(old(r.Abstracto()), intent);
      && tras1 == old(r.avisos) + (if t.datos != old(r.objBateria.Actual()) then [t.datos] else [])
      && r.avisos == tras1
      && r.Abstracto() == t
  {
    r.OnReceive(intent);
    tras1 := r.avisos;
    RecibirDosVeces(old(r.Abstracto()), intent);
    r.OnReceive(intent);
  }
}
