/** The widget's background service: it keeps the level and charging state the
    widget shows, chooses the widget's background, and registers and cancels
    its broadcast receivers. */
module ServicioBateria {
  import opened JavaLang
  import opened Android
  import opened Bateria

  /** The widget backgrounds (drawables `wdg_carga`, `wdg_warning`,
      `wdg_danger`, `wdg_normal`). */
  datatype Fondo = WdgCarga | WdgWarning | WdgDanger | WdgNormal

  /** The background chain of `actualizarWidget` as written: it tests the
      warning level before the danger level. */
  function FondoTalCual(bConectado: bool, iNivelBateria: int): (f: Fondo)
    ensures f != WdgDanger
    ensures f == WdgCarga <==> bConectado
    ensures !bConectado ==> (f == WdgWarning <==> iNivelBateria < NVL_WARNING)
    ensures !bConectado ==> (f == WdgNormal <==> iNivelBateria >= NVL_WARNING)
  {
    if bConectado then WdgCarga
    else if iNivelBateria < NVL_WARNING then WdgWarning
    else if iNivelBateria < NVL_DANGER then WdgDanger
    else WdgNormal
  }

  /** The background chain with the danger level tested first, so that each
      of the three level bands gets its own background. */
  function ElegirFondo(bConectado: bool, iNivelBateria: int): (f: Fondo)
    ensures f == WdgCarga <==> bConectado
    ensures !bConectado ==> (f == WdgDanger <==> iNivelBateria < NVL_DANGER)
    ensures !bConectado ==> (f == WdgWarning <==> NVL_DANGER <= iNivelBateria < NVL_WARNING)
    ensures !bConectado ==> (f == WdgNormal <==> NVL_WARNING <= iNivelBateria)
  {
    if bConectado then WdgCarga
    else if iNivelBateria < NVL_DANGER then WdgDanger
    else if iNivelBateria < NVL_WARNING then WdgWarning
    else WdgNormal
  }

  /** The written chain differs from the intended one exactly on the
      danger band, where it shows the warning background instead. */
  lemma FondoTalCualDifiere(bConectado: bool, iNivelBateria: int)
    ensures FondoTalCual(bConectado, iNivelBateria) != ElegirFondo(bConectado, iNivelBateria)
        <==> !bConectado && iNivelBateria < NVL_DANGER
    ensures !bConectado && iNivelBateria < NVL_DANGER ==>
      FondoTalCual(bConectado, iNivelBateria) == WdgWarning
  {}

  /** A concrete input: an unplugged battery at 5% gets the warning
      background, not the danger one. */
  lemma PeligroInalcanzable()
    ensures FondoTalCual(false, 5) == WdgWarning
    ensures ElegirFondo(false, 5) == WdgDanger
  {}

  /** Whether the widget shows the battery as charging: plugged in and not yet
      full. */
  function Cargando(iEstado: int32, iNivelBateria: int32): (b: bool)
    ensures b ==> iNivelBateria < PORCENTAJE
    ensures iEstado <= 0 ==> !b
  {
    iEstado > 0 && iNivelBateria < 100
  }

  /** What `actualizarWidget` sends to one widget. */
  datatype Vista = Vista(widget: int, fondo: Fondo, texto: string)

  class ReceptorBateria {
    constructor () {}
  }

  class ReceptorPantalla {
    constructor () {}
  }

  /** A call into the platform's receiver registry. */
  datatype Registro =
    | Registrar(receptor: object, acciones: set<Accion>)
    | Cancelar(receptor: object)

  const ACCIONES_BATERIA: set<Accion> := {BatteryChanged, PowerConnected, PowerDisconnected}
  const ACCIONES_PANTALLA: set<Accion> := {ScreenOn, ScreenOff}

  /** `ServicioBateria`. The platform's receiver registry is the ghost log
      `registros` of register and unregister calls. */
  class ServicioBateria {
    var mBatteryStateReceiver: ReceptorBateria?
    var mScreenStateReceiver: ReceptorPantalla?
    var bConectado: bool
    var iNivelBateria: int32
    var bInicializar: bool
    ghost var registros: seq<Registro>

    constructor ()
      ensures mBatteryStateReceiver == null && mScreenStateReceiver == null
      ensures !bConectado && iNivelBateria == -1 && bInicializar
      ensures registros == []
    {
      mBatteryStateReceiver := null;
      mScreenStateReceiver := null;
      bConectado := false;
      iNivelBateria := -1;
      bInicializar := true;
      registros := [];
    }

    /** Registers a battery receiver unless one is already registered. */
    method RegistrarBateria()
      modifies this
      ensures mBatteryStateReceiver != null
      ensures old(mBatteryStateReceiver) != null ==> unchanged(this)
      ensures old(mBatteryStateReceiver) == null ==>
        && fresh(mBatteryStateReceiver)
        && registros == old(registros) + [Registrar(mBatteryStateReceiver, ACCIONES_BATERIA)]
      ensures mScreenStateReceiver == old(mScreenStateReceiver)
      ensures bConectado == old(bConectado) && iNivelBateria == old(iNivelBateria)
      ensures bInicializar == old(bInicializar)
    {
      if mBatteryStateReceiver == null {
        mBatteryStateReceiver := new ReceptorBateria();
        registros := registros + [Registrar(mBatteryStateReceiver, ACCIONES_BATERIA)];
      }
    }

    /** Registers a screen receiver unless one is already registered. */
    method RegistrarPantalla()
      modifies this
      ensures mScreenStateReceiver != null
      ensures old(mScreenStateReceiver) != null ==> unchanged(this)
      ensures old(mScreenStateReceiver) == null ==>
        && fresh(mScreenStateReceiver)
        && registros == old(registros) + [Registrar(mScreenStateReceiver, ACCIONES_PANTALLA)]
      ensures mBatteryStateReceiver == old(mBatteryStateReceiver)
      ensures bConectado == old(bConectado) && iNivelBateria == old(iNivelBateria)
      ensures bInicializar == old(bInicializar)
    {
      if mScreenStateReceiver == null {
        mScreenStateReceiver := new ReceptorPantalla();
        registros := registros + [Registrar(mScreenStateReceiver, ACCIONES_PANTALLA)];
      }
    }

    /** Unregisters the battery receiver if one is registered. */
    method CancelarBateria()
      modifies this
      ensures mBatteryStateReceiver == null
      ensures old(mBatteryStateReceiver) == null ==> unchanged(this)
      ensures old(mBatteryStateReceiver) != null ==>
        registros == old(registros) + [Cancelar(old(mBatteryStateReceiver))]
      ensures mScreenStateReceiver == old(mScreenStateReceiver)
      ensures bConectado == old(bConectado) && iNivelBateria == old(iNivelBateria)
      ensures bInicializar == old(bInicializar)
    {
      if mBatteryStateReceiver != null {
        registros := registros + [Cancelar(mBatteryStateReceiver)];
        mBatteryStateReceiver := null;
      }
    }

    /** Unregisters the screen receiver if one is registered. */
    method CancelarPantalla()
      modifies this
      ensures mScreenStateReceiver == null
      ensures old(mScreenStateReceiver) == null ==> unchanged(this)
      ensures old(mScreenStateReceiver) != null ==>
        registros == old(registros) + [Cancelar(old(mScreenStateReceiver))]
      ensures mBatteryStateReceiver == old(mBatteryStateReceiver)
      ensures bConectado == old(bConectado) && iNivelBateria == old(iNivelBateria)
      ensures bInicializar == old(bInicializar)
    {
      if mScreenStateReceiver != null {
        registros := registros + [Cancelar(mScreenStateReceiver)];
        mScreenStateReceiver := null;
      }
    }

    /** `recibirBateria`: a null intent is replaced by the platform's sticky
      battery intent `pegajoso`; the level is normalised with a default scale
      of 100, and the battery counts as charging when plugged and below 100%. */
    method RecibirBateria(intent: Option<Intent>, pegajoso: Intent)
      modifies this`iNivelBateria, this`bConectado
      ensures var i := intent.GetOr(pegajoso);
        iNivelBateria == GetNivel(i.level.GetOr(0), i.scale.GetOr(I_ESCALA))
      ensures bConectado == Cargando(intent.GetOr(pegajoso).plugged.GetOr(0), iNivelBateria)
    {
      var i := intent.GetOr(pegajoso);
      var iNivel := i.level.GetOr(0);
      var iEscala := i.scale.GetOr(I_ESCALA);
      iNivelBateria := GetNivel(iNivel, iEscala);
      var iEstado := i.plugged.GetOr(0);
      bConectado := Cargando(iEstado, iNivelBateria);
    }

    /** `actualizarWidget` for one widget: its background and the level as text. */
    method ActualizarWidget(iIdWidget: int) returns (v: Vista)
      ensures v.widget == iIdWidget
      ensures v.fondo == ElegirFondo(bConectado, iNivelBateria)
      ensures ParseInt(v.texto) == Some(iNivelBateria as int)
    {
      ParseToString(iNivelBateria);
      var fondo: Fondo;
      if bConectado {
        fondo := WdgCarga;
      } else if iNivelBateria < NVL_DANGER {
        fondo := WdgDanger;
      } else if iNivelBateria < NVL_WARNING {
        fondo := WdgWarning;
      } else {
        fondo := WdgNormal;
      }
      v := Vista(iIdWidget, fondo, ToString(iNivelBateria));
    }

    /** `actualizarWidgets`: one update per widget, in order. */
    method ActualizarWidgets(ids: seq<int>) returns (vistas: seq<Vista>)
      ensures |vistas| == |ids|
      ensures forall k :: 0 <= k < |ids| ==> vistas[k].widget == ids[k]
      ensures forall k :: 0 <= k < |ids| ==>
        vistas[k].fondo == ElegirFondo(bConectado, iNivelBateria) && ParseInt(vistas[k].texto) == Some(iNivelBateria as int)
    {
      vistas := [];
      for n := 0 to |ids|
        invariant |vistas| == n
        invariant forall k :: 0 <= k < n ==> vistas[k].widget == ids[k]
        invariant forall k :: 0 <= k < n ==>
          vistas[k].fondo == ElegirFondo(bConectado, iNivelBateria) && ParseInt(vistas[k].texto) == Some(iNivelBateria as int)
      {
        var v := ActualizarWidget(ids[n]);
        vistas := vistas + [v];
      }
    }

    /** The static `actualizarWidget(contexto, id)` on the running service:
      refresh from the sticky intent, then update the one widget. */
    method ActualizarWidgetEstatico(iIdWidget: int, pegajoso: Intent) returns (v: Vista)
      modifies this`iNivelBateria, this`bConectado
      ensures iNivelBateria == GetNivel(pegajoso.level.GetOr(0), pegajoso.scale.GetOr(I_ESCALA))
      ensures bConectado == Cargando(pegajoso.plugged.GetOr(0), iNivelBateria)
      ensures v.widget == iIdWidget && v.fondo == ElegirFondo(bConectado, iNivelBateria)
      ensures ParseInt(v.texto) == Some(iNivelBateria as int)
    {
      RecibirBateria(None, pegajoso);
      v := ActualizarWidget(iIdWidget);
    }

    /** `onStartCommand`: when `bInicializar` is set, both receivers are
      registered (each only if missing) and every widget is updated; the flag
      is set again in any case. */
    method OnStartCommand(ids: seq<int>) returns (resultado: int32, vistas: seq<Vista>)
      modifies this
      ensures resultado == START_STICKY && bInicializar
      ensures bConectado == old(bConectado) && iNivelBateria == old(iNivelBateria)
      ensures !old(bInicializar) ==>
        && mBatteryStateReceiver == old(mBatteryStateReceiver)
        && mScreenStateReceiver == old(mScreenStateReceiver)
        && registros == old(registros) && vistas == []
      ensures old(bInicializar) ==>
        && mBatteryStateReceiver != null && mScreenStateReceiver != null
        && (old(mBatteryStateReceiver) != null ==> mBatteryStateReceiver == old(mBatteryStateReceiver))
        && (old(mScreenStateReceiver) != null ==> mScreenStateReceiver == old(mScreenStateReceiver))
        && registros == old(registros)
             + (if old(mScreenStateReceiver) == null then [Registrar(mScreenStateReceiver, ACCIONES_PANTALLA)] else [])
             + (if old(mBatteryStateReceiver) == null then [Registrar(mBatteryStateReceiver, ACCIONES_BATERIA)] else [])
        && |vistas| == |ids|
        && forall k :: 0 <= k < |ids| ==>
             vistas[k].widget == ids[k] && vistas[k].fondo == ElegirFondo(bConectado, iNivelBateria)
             && ParseInt(vistas[k].texto) == Some(iNivelBateria as int)
    {
      vistas := [];
      if bInicializar {
        RegistrarPantalla();
        RegistrarBateria();
        vistas := ActualizarWidgets(ids);
      }
      bInicializar := true;
      resultado := START_STICKY;
    }

    /** `onCreate`: the first start, after which `bInicializar` is cleared so
      that the start command that follows does not initialise again. */
    method OnCreate(ids: seq<int>) returns (vistas: seq<Vista>)
      requires bInicializar
      modifies this
      ensures !bInicializar
      ensures bConectado == old(bConectado) && iNivelBateria == old(iNivelBateria)
      ensures mBatteryStateReceiver != null && mScreenStateReceiver != null
      ensures old(mBatteryStateReceiver) != null ==> mBatteryStateReceiver == old(mBatteryStateReceiver)
      ensures old(mScreenStateReceiver) != null ==> mScreenStateReceiver == old(mScreenStateReceiver)
      ensures registros == old(registros)
        + (if old(mScreenStateReceiver) == null then [Registrar(mScreenStateReceiver, ACCIONES_PANTALLA)] else [])
        + (if old(mBatteryStateReceiver) == null then [Registrar(mBatteryStateReceiver, ACCIONES_BATERIA)] else [])
      ensures |vistas| == |ids|
      ensures forall k :: 0 <= k < |ids| ==>
        vistas[k].widget == ids[k] && vistas[k].fondo == ElegirFondo(bConectado, iNivelBateria)
        && ParseInt(vistas[k].texto) == Some(iNivelBateria as int)
    {
      var _, v := OnStartCommand(ids);
      vistas := v;
      bInicializar := false;
    }

    /** `onDestroy`: cancels the screen receiver, then the battery receiver,
      each only if it is registered. */
    method OnDestroy()
      modifies this
      ensures mBatteryStateReceiver == null && mScreenStateReceiver == null
      ensures bConectado == old(bConectado) && iNivelBateria == old(iNivelBateria)
      ensures bInicializar == old(bInicializar)
      ensures registros == old(registros)
        + (if old(mScreenStateReceiver) != null then [Cancelar(old(mScreenStateReceiver))] else [])
        + (if old(mBatteryStateReceiver) != null then [Cancelar(old(mBatteryStateReceiver))] else [])
    {
      CancelarPantalla();
      CancelarBateria();
    }
  }

  /** The service's life: created, then started twice. `onCreate` registers
      the two receivers and updates every widget; the start command that
      follows it does nothing; the next one updates every widget again and
      registers nothing more. No battery intent has arrived yet, so every
      update shows the initial level -1 on the unplugged background. */
  method CicloDeVida(ids: seq<int>) returns (v0: seq<Vista>, v1: seq<Vista>, v2: seq<Vista>, ghost registros: nat)
    ensures |v0| == |ids| && v1 == [] && |v2| == |ids|
    ensures forall k :: 0 <= k < |ids| ==>
      && v0[k].widget == ids[k] && v2[k].widget == ids[k]
      && v0[k].fondo == ElegirFondo(false, -1) && v2[k].fondo == v0[k].fondo
      && ParseInt(v0[k].texto) == Some(-1) && ParseInt(v2[k].texto) == Some(-1)
    ensures registros == 2
  {
    var s := new ServicioBateria();
    v0 := s.OnCreate(ids);
    var _, w1 := s.OnStartCommand(ids);
    var _, w2 := s.OnStartCommand(ids);
    v1, v2 := w1, w2;
    registros := |s.registros|;
  }
}
