/**
 * Juego: a game offered at venues, with a payout multiplier that is never
 * below 1.0, a soft-delete flag, and create / update / delete operations
 * that write the game to the games' file and undo their field changes when
 * the write is refused or throws.
 */
module Juegos {
  import opened Common
  import opened Strings
  import Lists
  import Ledger
  import JuegoDao

  /** The multiplier rule of the constructors and of setFactorMultiplicador: below 1.0 becomes 1.0. */
  function AcotarFactor(factor: real): (r: real)
    ensures r >= 1.0 && r >= factor
    ensures factor >= 1.0 ==> r == factor
    ensures factor < 1.0 ==> r == 1.0
  {
    if factor >= 1.0 then factor else 1.0
  }

  /** Name, description and multiplier of a game. */
  datatype DatosJuego = DatosJuego(nombre: string, descripcion: string, factor: real)

  /** The name branch of actualizarJuego applies: a non-blank name different from the current one. */
  predicate CambiaNombre(actual: string, nombre: Option<string>)
  {
    nombre.Some? && !IsBlank(nombre.value) && nombre.value != actual
  }

  /** The name branch applies but another game already has that name. */
  predicate NombreOcupado(actual: string, nombre: Option<string>, existe: bool)
  {
    CambiaNombre(actual, nombre) && existe
  }

  /** The description branch applies: a non-null description different from the current one. */
  predicate CambiaDescripcion(actual: string, descripcion: Option<string>)
  {
    descripcion.Some? && descripcion.value != actual
  }

  /** The multiplier branch applies: a multiplier of at least 1.0 different from the current one. */
  predicate CambiaFactor(actual: real, factor: real)
  {
    factor >= 1.0 && factor != actual
  }

  predicate HayCambio(d: DatosJuego, nombre: Option<string>, descripcion: Option<string>, factor: real)
  {
    CambiaNombre(d.nombre, nombre) || CambiaDescripcion(d.descripcion, descripcion) || CambiaFactor(d.factor, factor)
  }

  /** A name that applies is stored trimmed. */
  function NombreTras(actual: string, nombre: Option<string>): string
  {
    if CambiaNombre(actual, nombre) then Trim(nombre.value) else actual
  }

  /** A description that applies is stored trimmed. */
  function DescripcionTras(actual: string, descripcion: Option<string>): string
  {
    if CambiaDescripcion(actual, descripcion) then Trim(descripcion.value) else actual
  }

  /** The fields after a fully applied update: each branch that applies has set its field. */
  function DatosTras(d: DatosJuego, nombre: Option<string>, descripcion: Option<string>, factor: real): (r: DatosJuego)
    ensures d.factor >= 1.0 ==> r.factor >= 1.0
    ensures !HayCambio(d, nombre, descripcion, factor) ==> r == d
  {
    DatosJuego(NombreTras(d.nombre, nombre), DescripcionTras(d.descripcion, descripcion),
               if CambiaFactor(d.factor, factor) then factor else d.factor)
  }

  class Juego {
    const id: string
    var nombre: string
    var descripcion: string
    var factorMultiplicador: real
    var activo: bool
    var fechaCreacion: int

    /** Every game pays at least what was staked. */
    ghost predicate Valid()
      reads this
    {
      factorMultiplicador >= 1.0
    }

    /** A new game, active, created at `ahora`; `id` is the fresh UUID. */
    constructor (id: string, nombre: string, descripcion: string, factorMultiplicador: real, ahora: int)
      ensures Valid()
      ensures this.id == id && this.nombre == nombre && this.descripcion == descripcion
      ensures this.factorMultiplicador == AcotarFactor(factorMultiplicador)
      ensures activo && fechaCreacion == ahora
    {
      this.id := id;
      this.nombre := nombre;
      this.descripcion := descripcion;
      this.factorMultiplicador := AcotarFactor(factorMultiplicador);
      this.activo := true;
      this.fechaCreacion := ahora;
    }

    /** A game loaded from the file; a missing creation date becomes `ahora`. */
    constructor Cargar(id: string, nombre: string, descripcion: string, factorMultiplicador: real,
                       activo: bool, fechaCreacion: Option<int>, ahora: int)
      ensures Valid()
      ensures this.id == id && this.nombre == nombre && this.descripcion == descripcion
      ensures this.factorMultiplicador == AcotarFactor(factorMultiplicador)
      ensures this.activo == activo
      ensures this.fechaCreacion == if fechaCreacion.Some? then fechaCreacion.value else ahora
    {
      this.id := id;
      this.nombre := nombre;
      this.descripcion := descripcion;
      this.factorMultiplicador := AcotarFactor(factorMultiplicador);
      this.activo := activo;
      this.fechaCreacion := if fechaCreacion.Some? then fechaCreacion.value else ahora;
    }

    /** The snapshot of this game that the file holds. */
    function ToJson(): JuegoDao.JuegoJSON
      reads this
    {
      JuegoDao.JuegoJSON(id, nombre, descripcion, factorMultiplicador, activo, fechaCreacion)
    }

    /** setFactorMultiplicador: the multiplier is clamped, never below 1.0. */
    method SetFactorMultiplicador(factor: real)
      modifies this`factorMultiplicador
      ensures factorMultiplicador == AcotarFactor(factor)
      ensures Valid()
    {
      factorMultiplicador := AcotarFactor(factor);
    }

    /** calcularGananciaPotencial(c): the amount times the multiplier, the payout formula of a bet on this game. */
    function CalcularGananciaPotencial(cantidadApuesta: real): (g: real)
      reads this
      ensures g == Ledger.GananciaPotencial(cantidadApuesta, Some(factorMultiplicador))
      ensures Valid() && cantidadApuesta >= 0.0 ==> g >= cantidadApuesta
    {
      cantidadApuesta * factorMultiplicador
    }

    /** getEstadoTexto: "Activo" for an active game and "Inactivo" for one taken down. */
    function GetEstadoTexto(): (t: string)
      reads this
      ensures t == "Activo" <==> activo
      ensures t == "Inactivo" <==> !activo
    {
      if activo then "Activo" else "Inactivo"
    }

    /**
     * crearJuego: refuses a blank name, a multiplier below 1.0 and a name
     * already taken, changing nothing; otherwise it sets the trimmed name, the
     * trimmed description ("" for null), the multiplier, active and the date,
     * and returns whether the store appended the game. A refused or failed
     * save keeps the new field values.
     */
    method CrearJuego(nombre: Option<string>, descripcion: Option<string>, factorMultiplicador: real,
                      ahora: int, juegos: JuegoDao.JuegoDAO) returns (ok: bool)
      modifies this, juegos
      ensures NullOrBlank(nombre) || factorMultiplicador < 1.0 || old(juegos.ExisteJuego(nombre)) ==>
                !ok && unchanged(this) && juegos.archivo == old(juegos.archivo)
      ensures !(NullOrBlank(nombre) || factorMultiplicador < 1.0 || old(juegos.ExisteJuego(nombre))) ==>
                this.nombre == Trim(nombre.value) &&
                this.descripcion == (if descripcion.Some? then Trim(descripcion.value) else "") &&
                this.factorMultiplicador == factorMultiplicador && activo && fechaCreacion == ahora
      ensures ok ==> !JuegoDao.ExisteId(old(juegos.archivo), id) && juegos.archivo == old(juegos.archivo) + [ToJson()]
      ensures !ok ==> juegos.archivo == old(juegos.archivo)
      ensures old(Valid()) ==> Valid()
    {
      if NullOrBlank(nombre) {
        return false;
      }
      if factorMultiplicador < 1.0 {
        return false;
      }
      if juegos.ExisteJuego(nombre) {
        return false;
      }
      this.nombre := Trim(nombre.value);
      this.descripcion := if descripcion.Some? then Trim(descripcion.value) else "";
      this.factorMultiplicador := factorMultiplicador;
      this.activo := true;
      this.fechaCreacion := ahora;
      var r := juegos.GuardarJuego(Some(ToJson()));
      ok := r == Ok(true);
    }

    /** The three fields actualizarJuego may change. */
    function Datos(): DatosJuego
      reads this
    {
      DatosJuego(nombre, descripcion, factorMultiplicador)
    }

    /**
     * actualizarJuego. A new name already taken returns false at once with
     * nothing changed. A multiplier below 1.0 returns false but keeps the new
     * name and description set just before. A call with nothing to change
     * returns false. Otherwise the game is written, and a refused or failed
     * write restores name, description and multiplier.
     */
    method ActualizarJuego(nombre: Option<string>, descripcion: Option<string>, factorMultiplicador: real,
                           juegos: JuegoDao.JuegoDAO) returns (ok: bool)
      modifies this`nombre, this`descripcion, this`factorMultiplicador, juegos
      ensures old(Valid()) ==> Valid()
      // a name already taken
      ensures NombreOcupado(old(this.nombre), nombre, old(juegos.ExisteJuego(nombre))) ==>
                !ok && Datos() == old(Datos()) && juegos.archivo == old(juegos.archivo)
      // a multiplier below 1.0: name and description changes stay
      ensures !NombreOcupado(old(this.nombre), nombre, old(juegos.ExisteJuego(nombre))) && factorMultiplicador < 1.0 ==>
                !ok && juegos.archivo == old(juegos.archivo) &&
                Datos() == DatosJuego(NombreTras(old(this.nombre), nombre),
                                      DescripcionTras(old(this.descripcion), descripcion),
                                      old(this.factorMultiplicador))
      // nothing to change
      ensures !HayCambio(old(Datos()), nombre, descripcion, factorMultiplicador) ==>
                !ok && Datos() == old(Datos()) && juegos.archivo == old(juegos.archivo)
      // the write went through
      ensures ok ==>
                HayCambio(old(Datos()), nombre, descripcion, factorMultiplicador) && factorMultiplicador >= 1.0 &&
                Datos() == DatosTras(old(Datos()), nombre, descripcion, factorMultiplicador) &&
                juegos.archivo == Lists.ReplaceFirst(old(juegos.archivo), JuegoDao.ConId(id), ToJson())
      // the write was refused or failed: everything restored
      ensures !ok && factorMultiplicador >= 1.0 ==> Datos() == old(Datos()) && juegos.archivo == old(juegos.archivo)
    {
      var actualizado := false;
      var nombreAnterior := this.nombre;
      var descripcionAnterior := this.descripcion;
      var factorAnterior := this.factorMultiplicador;

      if nombre.Some? && !IsBlank(nombre.value) && nombre.value != this.nombre {
        if !juegos.ExisteJuego(nombre) {
          this.nombre := Trim(nombre.value);
          actualizado := true;
        } else {
          return false;
        }
      }

      if descripcion.Some? && descripcion.value != this.descripcion {
        this.descripcion := Trim(descripcion.value);
        actualizado := true;
      }

      if factorMultiplicador >= 1.0 && factorMultiplicador != this.factorMultiplicador {
        this.factorMultiplicador := factorMultiplicador;
        actualizado := true;
      } else if factorMultiplicador < 1.0 {
        return false;
      }

      if actualizado {
        var r := juegos.ActualizarJuego(Some(ToJson()));
        if r != Ok(true) {
          this.nombre := nombreAnterior;
          this.descripcion := descripcionAnterior;
          this.factorMultiplicador := factorAnterior;
          return false;
        }
        return true;
      }
      return false;
    }

    /**
     * eliminarJuego: the soft delete. The game turns inactive and is written;
     * a refused or failed write sets it active again, even when it was
     * inactive before the call.
     */
    method EliminarJuego(juegos: JuegoDao.JuegoDAO) returns (ok: bool)
      modifies this`activo, juegos
      ensures ok ==> !activo && GetEstadoTexto() == "Inactivo"
      ensures ok ==> juegos.archivo == Lists.ReplaceFirst(old(juegos.archivo), JuegoDao.ConId(id), ToJson())
      ensures !ok ==> activo && juegos.archivo == old(juegos.archivo)
      ensures ok ==> JuegoDao.ExisteId(old(juegos.archivo), id)
    {
      activo := false;
      var r := juegos.ActualizarJuego(Some(ToJson()));
      if r != Ok(true) {
        activo := true;
        return false;
      }
      return true;
    }

    /**
     * consultarJuego: when the store has a record for this game, the game
     * takes every stored value and that record is the answer; otherwise
     * nothing changes and the answer is this game as it is.
     */
    method ConsultarJuego(juegos: JuegoDao.JuegoDAO) returns (r: JuegoDao.JuegoJSON)
      modifies this`nombre, this`descripcion, this`factorMultiplicador, this`activo, this`fechaCreacion
      ensures r.id == id
      ensures !IsBlank(id) && JuegoDao.ExisteId(juegos.archivo, id) ==> r in juegos.archivo && ToJson() == r
      ensures IsBlank(id) || !JuegoDao.ExisteId(juegos.archivo, id) ==> ToJson() == old(ToJson()) && r == ToJson()
    {
      var guardado := juegos.BuscarPorId(Some(id));
      if guardado.Some? {
        r := guardado.value;
        nombre := r.nombre;
        descripcion := r.descripcion;
        factorMultiplicador := r.factorMultiplicador;
        activo := r.activo;
        fechaCreacion := r.fechaCreacion;
      } else {
        r := ToJson();
      }
    }

    /** guardarCambios: the store's update of this game's record; false when it has none or throws. */
    method GuardarCambios(juegos: JuegoDao.JuegoDAO) returns (ok: bool)
      modifies juegos
      ensures !JuegoDao.ExisteId(old(juegos.archivo), id) ==> !ok
      ensures ok ==> juegos.archivo == Lists.ReplaceFirst(old(juegos.archivo), JuegoDao.ConId(id), ToJson())
      ensures !ok ==> juegos.archivo == old(juegos.archivo)
    {
      var r := juegos.ActualizarJuego(Some(ToJson()));
      ok := r == Ok(true);
    }

    /** eliminarJuegoCompleto: the physical delete of every stored game with this id. */
    method EliminarJuegoCompleto(juegos: JuegoDao.JuegoDAO) returns (ok: bool)
      modifies juegos
      ensures ok ==> JuegoDao.ExisteId(old(juegos.archivo), id) && !JuegoDao.ExisteId(juegos.archivo, id)
      ensures ok ==> juegos.archivo == Lists.RemoveAll(old(juegos.archivo), JuegoDao.ConId(id))
      ensures !ok ==> juegos.archivo == old(juegos.archivo)
    {
      var r := juegos.EliminarJuegoFisico(Some(id));
      ok := r == Ok(true);
    }

    /**
     * reactivarJuego: an active game answers true without writing; an
     * inactive one turns active and is written, and turns inactive again
     * when the write is refused or fails.
     */
    method ReactivarJuego(juegos: JuegoDao.JuegoDAO) returns (ok: bool)
      modifies this`activo, juegos
      ensures old(activo) ==> ok && activo && juegos.archivo == old(juegos.archivo)
      ensures ok ==> activo && GetEstadoTexto() == "Activo"
      ensures !old(activo) && ok ==> juegos.archivo == Lists.ReplaceFirst(old(juegos.archivo), JuegoDao.ConId(id), ToJson())
      ensures !ok ==> !activo && juegos.archivo == old(juegos.archivo)
    {
      if activo {
        return true;
      }
      activo := true;
      var r := juegos.ActualizarJuego(Some(ToJson()));
      if r != Ok(true) {
        activo := false;
        return false;
      }
      return true;
    }
  }
}
