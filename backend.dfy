/**
 * The first, in-memory versions of Usuario and Lugar (package back_end):
 * no store, no validation beyond null and blank checks, and every string
 * field may hold null, written None. The games and ratings these classes
 * hold are the game and rating classes of the persistent version; the bet
 * history holds bets this model does not look into.
 */
module BackEnd {
  import opened Common
  import opened Strings
  import Lists
  import Ledger
  import Ratings
  import Juegos
  import Classes

  function UsuarioConId(id: string): Usuario -> bool { (u: Usuario) => u.id == id }
  function IdUsuario(): Usuario -> string { (u: Usuario) => u.id }
  function LugarConId(id: string): Lugar -> bool { (l: Lugar) => l.id == id }
  function IdLugar(): Lugar -> string { (l: Lugar) => l.id }

  class Usuario {
    const id: string
    var uid: Option<string>
    var nombre: Option<string>
    var apellido: Option<string>
    var correo: Option<string>
    var contrasena: Option<string>
    var carrera: Option<string>
    var semestre: int
    var saldoAPUNAB: real
    var historialApuestas: seq<object>
    var lugaresRegistrados: seq<Lugar>

    /** A new user, `id` being the fresh UUID: balance 0, no bets, no venues. */
    constructor (id: string, uid: Option<string>, nombre: Option<string>, apellido: Option<string>, correo: Option<string>,
                 contrasena: Option<string>, carrera: Option<string>, semestre: int)
      ensures this.id == id && this.uid == uid && this.nombre == nombre && this.apellido == apellido
      ensures this.correo == correo && this.contrasena == contrasena && this.carrera == carrera
      ensures this.semestre == semestre
      ensures saldoAPUNAB == 0.0 && historialApuestas == [] && lugaresRegistrados == []
    {
      this.id := id;
      this.uid := uid;
      this.nombre := nombre;
      this.apellido := apellido;
      this.correo := correo;
      this.contrasena := contrasena;
      this.carrera := carrera;
      this.semestre := semestre;
      saldoAPUNAB := 0.0;
      historialApuestas := [];
      lugaresRegistrados := [];
    }

    /** A user loaded with its balance: no bets, no venues. */
    constructor Cargar(id: string, uid: Option<string>, nombre: Option<string>, apellido: Option<string>,
                       correo: Option<string>, contrasena: Option<string>, carrera: Option<string>, semestre: int,
                       saldoAPUNAB: real)
      ensures this.id == id && this.uid == uid && this.nombre == nombre && this.apellido == apellido
      ensures this.correo == correo && this.contrasena == contrasena && this.carrera == carrera
      ensures this.semestre == semestre && this.saldoAPUNAB == saldoAPUNAB
      ensures historialApuestas == [] && lugaresRegistrados == []
    {
      this.id := id;
      this.uid := uid;
      this.nombre := nombre;
      this.apellido := apellido;
      this.correo := correo;
      this.contrasena := contrasena;
      this.carrera := carrera;
      this.semestre := semestre;
      this.saldoAPUNAB := saldoAPUNAB;
      historialApuestas := [];
      lugaresRegistrados := [];
    }

    /** registrarse: every account field takes the given value, unchecked; always true. */
    method Registrarse(uid: Option<string>, nombre: Option<string>, apellido: Option<string>, correo: Option<string>,
                       contrasena: Option<string>, carrera: Option<string>, semestre: int) returns (ok: bool)
      modifies this`uid, this`nombre, this`apellido, this`correo, this`contrasena, this`carrera, this`semestre
      ensures ok
      ensures this.uid == uid && this.nombre == nombre && this.apellido == apellido && this.correo == correo
      ensures this.contrasena == contrasena && this.carrera == carrera && this.semestre == semestre
    {
      this.uid := uid;
      this.nombre := nombre;
      this.apellido := apellido;
      this.correo := correo;
      this.contrasena := contrasena;
      this.carrera := carrera;
      this.semestre := semestre;
      return true;
    }

    /**
     * iniciarSesion: the stored address and password both equal the given
     * ones; a null argument matches nothing. The stored address is always
     * dereferenced; the `&&` reads the stored password only once the
     * addresses match, so that one must be present only then.
     */
    function IniciarSesion(correo: Option<string>, contrasena: Option<string>): (ok: bool)
      requires this.correo.Some? && (correo == this.correo ==> this.contrasena.Some?)
      reads this
      ensures ok ==> correo == this.correo && contrasena == this.contrasena
      ensures correo == this.correo && contrasena == this.contrasena ==> ok
    {
      correo.Some? && this.correo.value == correo.value && contrasena.Some? && this.contrasena.value == contrasena.value
    }

    /**
     * actualizarPerfil as written: a non-blank name, surname or programme
     * replaces the stored one and a positive semester replaces the stored
     * one; a non-blank uid argument also assigns the name argument to the
     * name, so with a null name the name is erased, and the uid never
     * changes. Always true.
     */
    method ActualizarPerfil(uid: Option<string>, nombre: Option<string>, apellido: Option<string>,
                            carrera: Option<string>, semestre: int) returns (ok: bool)
      modifies this`nombre, this`apellido, this`carrera, this`semestre
      ensures ok
      ensures this.nombre == (if !NullOrBlank(nombre) || !NullOrBlank(uid) then nombre else old(this.nombre))
      ensures !NullOrBlank(uid) && nombre.None? ==> this.nombre.None?
      ensures this.apellido == (if !NullOrBlank(apellido) then apellido else old(this.apellido))
      ensures this.carrera == (if !NullOrBlank(carrera) then carrera else old(this.carrera))
      ensures this.semestre == (if semestre > 0 then semestre else old(this.semestre))
    {
      if !NullOrBlank(uid) {
        this.nombre := nombre;
      }
      if !NullOrBlank(nombre) {
        this.nombre := nombre;
      }
      if !NullOrBlank(apellido) {
        this.apellido := apellido;
      }
      if !NullOrBlank(carrera) {
        this.carrera := carrera;
      }
      if semestre > 0 {
        this.semestre := semestre;
      }
      return true;
    }

    /**
     * actualizarPerfil as evidently intended: a non-blank uid argument
     * replaces the uid, and the name changes only with a non-blank name.
     */
    method ActualizarPerfilCorregido(uid: Option<string>, nombre: Option<string>, apellido: Option<string>,
                                     carrera: Option<string>, semestre: int) returns (ok: bool)
      modifies this`uid, this`nombre, this`apellido, this`carrera, this`semestre
      ensures ok
      ensures this.uid == (if !NullOrBlank(uid) then uid else old(this.uid))
      ensures this.nombre == (if !NullOrBlank(nombre) then nombre else old(this.nombre))
      ensures old(this.nombre).Some? ==> this.nombre.Some?
      ensures this.apellido == (if !NullOrBlank(apellido) then apellido else old(this.apellido))
      ensures this.carrera == (if !NullOrBlank(carrera) then carrera else old(this.carrera))
      ensures this.semestre == (if semestre > 0 then semestre else old(this.semestre))
    {
      if !NullOrBlank(uid) {
        this.uid := uid;
      }
      if !NullOrBlank(nombre) {
        this.nombre := nombre;
      }
      if !NullOrBlank(apellido) {
        this.apellido := apellido;
      }
      if !NullOrBlank(carrera) {
        this.carrera := carrera;
      }
      if semestre > 0 {
        this.semestre := semestre;
      }
      return true;
    }

    /**
     * cambiarContraseña: the password is replaced (even by null) exactly when
     * the current one equals the stored one.
     */
    method CambiarContrasena(actual: Option<string>, nueva: Option<string>) returns (ok: bool)
      requires contrasena.Some?
      modifies this`contrasena
      ensures ok <==> actual == old(contrasena)
      ensures contrasena == if ok then nueva else old(contrasena)
    {
      if actual.Some? && contrasena.value == actual.value {
        contrasena := nueva;
        return true;
      }
      return false;
    }

    /** calcularAPUNABFaltantes: what the balance still lacks to reach the goal, never negative. */
    function CalcularAPUNABFaltantes(): (f: real)
      reads this
      ensures f >= 0.0 && saldoAPUNAB + f >= Ledger.APUNAB_REQUERIDAS
      ensures f == 0.0 <==> saldoAPUNAB >= Ledger.APUNAB_REQUERIDAS
      ensures f > 0.0 ==> saldoAPUNAB + f == Ledger.APUNAB_REQUERIDAS
    {
      Ledger.Faltantes(saldoAPUNAB)
    }

    /** actualizarSaldo in memory: a change that keeps the balance non-negative is applied and answers true. */
    method ActualizarSaldo(cantidad: real) returns (ok: bool)
      modifies this`saldoAPUNAB
      ensures ok <==> Ledger.Admite(old(saldoAPUNAB), cantidad)
      ensures saldoAPUNAB == Ledger.NuevoSaldo(old(saldoAPUNAB), cantidad)
      ensures old(saldoAPUNAB) >= 0.0 ==> saldoAPUNAB >= 0.0
    {
      var nuevoSaldo := saldoAPUNAB + cantidad;
      if nuevoSaldo >= 0.0 {
        saldoAPUNAB := nuevoSaldo;
        return true;
      }
      return false;
    }

    /** agregarApuesta: a non-null bet joins the end of the history. */
    method AgregarApuesta(apuesta: object?)
      modifies this`historialApuestas
      ensures historialApuestas == if apuesta == null then old(historialApuestas) else old(historialApuestas) + [apuesta]
    {
      if apuesta != null {
        historialApuestas := historialApuestas + [apuesta];
      }
    }

    /**
     * registrarseEnLugar: a venue not in the user's list (by id) joins it and
     * the user joins the venue's users unless already there; null or a
     * known venue answers false with nothing changed.
     */
    method RegistrarseEnLugar(lugar: Lugar?) returns (ok: bool)
      modifies this`lugaresRegistrados, lugar
      ensures ok <==> lugar != null && !old(Lists.Any(lugaresRegistrados, LugarConId(lugar.id)))
      ensures ok ==> lugar != null && lugaresRegistrados == old(lugaresRegistrados) + [lugar] &&
                     Lists.Any(lugar.usuariosRegistrados, UsuarioConId(id))
      ensures !ok ==> lugaresRegistrados == old(lugaresRegistrados)
      ensures lugar != null ==>
                lugar.usuariosRegistrados == (if ok && !old(Lists.Any(lugar.usuariosRegistrados, UsuarioConId(id)))
                                              then old(lugar.usuariosRegistrados) + [this]
                                              else old(lugar.usuariosRegistrados))
      ensures lugar != null ==> unchanged(lugar`juegosDisponibles, lugar`calificaciones, lugar`calificacionPromedio)
      ensures old(Lists.SinRepetidos(lugaresRegistrados, IdLugar())) ==> Lists.SinRepetidos(lugaresRegistrados, IdLugar())
    {
      if lugar != null && !Lists.Any(lugaresRegistrados, LugarConId(lugar.id)) {
        if Lists.SinRepetidos(lugaresRegistrados, IdLugar()) {
          Lists.SinRepetidosAgregar<Lugar, string>(lugaresRegistrados, lugar, IdLugar());
        }
        lugaresRegistrados := lugaresRegistrados + [lugar];
        var _ := lugar.RegistrarUsuario(this);
        if !old(Lists.Any(lugar.usuariosRegistrados, UsuarioConId(id))) {
          assert lugar.usuariosRegistrados[|old(lugar.usuariosRegistrados)|] == this;
        }
        return true;
      }
      return false;
    }

    /**
     * darseDeBajaEnLugar: a venue in the user's list leaves it and the user
     * leaves the venue's users; null or an unknown venue answers false.
     */
    method DarseDeBajaEnLugar(lugar: Lugar?) returns (ok: bool)
      modifies this`lugaresRegistrados, lugar
      ensures ok <==> lugar != null && old(Lists.Any(lugaresRegistrados, LugarConId(lugar.id)))
      ensures ok ==> lugar != null &&
                     lugaresRegistrados == Lists.RemoveFirst(old(lugaresRegistrados), LugarConId(lugar.id)) &&
                     lugar.usuariosRegistrados == Lists.RemoveFirst(old(lugar.usuariosRegistrados), UsuarioConId(id))
      ensures ok && old(Lists.SinRepetidos(lugaresRegistrados, IdLugar())) ==>
                !Lists.Any(lugaresRegistrados, LugarConId(lugar.id))
      ensures !ok ==> lugaresRegistrados == old(lugaresRegistrados)
      ensures !ok && lugar != null ==> lugar.usuariosRegistrados == old(lugar.usuariosRegistrados)
      ensures lugar != null ==> unchanged(lugar`juegosDisponibles, lugar`calificaciones, lugar`calificacionPromedio)
    {
      if lugar != null && Lists.Any(lugaresRegistrados, LugarConId(lugar.id)) {
        if Lists.SinRepetidos(lugaresRegistrados, IdLugar()) {
          Lists.QuitarUnico(lugaresRegistrados, LugarConId(lugar.id), IdLugar(), lugar.id);
        }
        lugaresRegistrados := Lists.RemoveFirst(lugaresRegistrados, LugarConId(lugar.id));
        var _ := lugar.QuitarUsuario(this);
        return true;
      }
      return false;
    }
  }

  class Lugar {
    const id: string
    var nombre: Option<string>
    var direccion: Option<string>
    var descripcion: Option<string>
    var calificacionPromedio: real
    var juegosDisponibles: seq<Juegos.Juego>
    var usuariosRegistrados: seq<Usuario>
    var calificaciones: seq<Classes.Calificacion>

    /** A new venue, `id` being the fresh UUID: average 0, empty lists. */
    constructor (id: string, nombre: Option<string>, direccion: Option<string>, descripcion: Option<string>)
      ensures this.id == id && this.nombre == nombre && this.direccion == direccion && this.descripcion == descripcion
      ensures calificacionPromedio == 0.0
      ensures juegosDisponibles == [] && usuariosRegistrados == [] && calificaciones == []
    {
      this.id := id;
      this.nombre := nombre;
      this.direccion := direccion;
      this.descripcion := descripcion;
      calificacionPromedio := 0.0;
      juegosDisponibles := [];
      usuariosRegistrados := [];
      calificaciones := [];
    }

    /** A venue loaded with its average: empty lists. */
    constructor Cargar(id: string, nombre: Option<string>, direccion: Option<string>, descripcion: Option<string>,
                       calificacionPromedio: real)
      ensures this.id == id && this.nombre == nombre && this.direccion == direccion && this.descripcion == descripcion
      ensures this.calificacionPromedio == calificacionPromedio
      ensures juegosDisponibles == [] && usuariosRegistrados == [] && calificaciones == []
    {
      this.id := id;
      this.nombre := nombre;
      this.direccion := direccion;
      this.descripcion := descripcion;
      this.calificacionPromedio := calificacionPromedio;
      juegosDisponibles := [];
      usuariosRegistrados := [];
      calificaciones := [];
    }

    /**
     * crearLugar: a blank name or address answers false with nothing
     * changed; otherwise name and address are stored as given (untrimmed)
     * and a null description becomes "".
     */
    method CrearLugar(nombre: Option<string>, direccion: Option<string>, descripcion: Option<string>) returns (ok: bool)
      modifies this`nombre, this`direccion, this`descripcion
      ensures ok <==> !NullOrBlank(nombre) && !NullOrBlank(direccion)
      ensures ok ==> this.nombre == nombre && this.direccion == direccion &&
                     this.descripcion == Some(if descripcion.Some? then descripcion.value else "")
      ensures !ok ==> unchanged(this)
    {
      if NullOrBlank(nombre) || NullOrBlank(direccion) {
        return false;
      }
      this.nombre := nombre;
      this.direccion := direccion;
      this.descripcion := Some(if descripcion.Some? then descripcion.value else "");
      return true;
    }

    /**
     * actualizarLugar: a non-blank name or address and a non-null description
     * replace the stored ones; true exactly when one of them did.
     */
    method ActualizarLugar(nombre: Option<string>, direccion: Option<string>, descripcion: Option<string>) returns (ok: bool)
      modifies this`nombre, this`direccion, this`descripcion
      ensures ok <==> !NullOrBlank(nombre) || !NullOrBlank(direccion) || descripcion.Some?
      ensures this.nombre == if !NullOrBlank(nombre) then nombre else old(this.nombre)
      ensures this.direccion == if !NullOrBlank(direccion) then direccion else old(this.direccion)
      ensures this.descripcion == if descripcion.Some? then descripcion else old(this.descripcion)
    {
      ok := false;
      if !NullOrBlank(nombre) {
        this.nombre := nombre;
        ok := true;
      }
      if !NullOrBlank(direccion) {
        this.direccion := direccion;
        ok := true;
      }
      if descripcion.Some? {
        this.descripcion := descripcion;
        ok := true;
      }
    }

    /** eliminarLugar: games, users and ratings are emptied; always true. */
    method EliminarLugar() returns (ok: bool)
      modifies this`juegosDisponibles, this`usuariosRegistrados, this`calificaciones
      ensures ok && juegosDisponibles == [] && usuariosRegistrados == [] && calificaciones == []
    {
      juegosDisponibles := [];
      usuariosRegistrados := [];
      calificaciones := [];
      return true;
    }

    /** consultarLugar: the venue itself, not a copy. */
    function ConsultarLugar(): (l: Lugar)
      ensures l == this
    {
      this
    }

    /** agregarJuego: a game not in the list (by id) joins its end; null or a known game answers false. */
    method AgregarJuego(juego: Juegos.Juego?) returns (ok: bool)
      modifies this`juegosDisponibles
      ensures ok <==> juego != null && !old(Lists.Any(juegosDisponibles, Classes.JuegoConId(juego.id)))
      ensures juegosDisponibles == if ok then old(juegosDisponibles) + [juego] else old(juegosDisponibles)
      ensures old(Lists.SinRepetidos(juegosDisponibles, Classes.IdJuego())) ==>
                Lists.SinRepetidos(juegosDisponibles, Classes.IdJuego())
    {
      if juego != null && !Lists.Any(juegosDisponibles, Classes.JuegoConId(juego.id)) {
        if Lists.SinRepetidos(juegosDisponibles, Classes.IdJuego()) {
          Lists.SinRepetidosAgregar<Juegos.Juego, string>(juegosDisponibles, juego, Classes.IdJuego());
        }
        juegosDisponibles := juegosDisponibles + [juego];
        return true;
      }
      return false;
    }

    /** eliminarJuego: the first game with the id leaves the list; null or an unknown game answers false. */
    method EliminarJuego(juego: Juegos.Juego?) returns (ok: bool)
      modifies this`juegosDisponibles
      ensures ok <==> juego != null && old(Lists.Any(juegosDisponibles, Classes.JuegoConId(juego.id)))
      ensures juegosDisponibles == if ok then Lists.RemoveFirst(old(juegosDisponibles), Classes.JuegoConId(juego.id))
                                   else old(juegosDisponibles)
      ensures ok && old(Lists.SinRepetidos(juegosDisponibles, Classes.IdJuego())) ==>
                !Lists.Any(juegosDisponibles, Classes.JuegoConId(juego.id))
    {
      if juego != null && Lists.Any(juegosDisponibles, Classes.JuegoConId(juego.id)) {
        if Lists.SinRepetidos(juegosDisponibles, Classes.IdJuego()) {
          Lists.QuitarUnico(juegosDisponibles, Classes.JuegoConId(juego.id), Classes.IdJuego(), juego.id);
        }
        juegosDisponibles := Lists.RemoveFirst(juegosDisponibles, Classes.JuegoConId(juego.id));
        return true;
      }
      return false;
    }

    /** registrarUsuario: as agregarJuego, for the venue's users. */
    method RegistrarUsuario(usuario: Usuario?) returns (ok: bool)
      modifies this`usuariosRegistrados
      ensures ok <==> usuario != null && !old(Lists.Any(usuariosRegistrados, UsuarioConId(usuario.id)))
      ensures usuariosRegistrados == if ok then old(usuariosRegistrados) + [usuario] else old(usuariosRegistrados)
      ensures old(Lists.SinRepetidos(usuariosRegistrados, IdUsuario())) ==> Lists.SinRepetidos(usuariosRegistrados, IdUsuario())
    {
      if usuario != null && !Lists.Any(usuariosRegistrados, UsuarioConId(usuario.id)) {
        if Lists.SinRepetidos(usuariosRegistrados, IdUsuario()) {
          Lists.SinRepetidosAgregar<Usuario, string>(usuariosRegistrados, usuario, IdUsuario());
        }
        usuariosRegistrados := usuariosRegistrados + [usuario];
        return true;
      }
      return false;
    }

    /** quitarUsuario: as eliminarJuego, for the venue's users. */
    method QuitarUsuario(usuario: Usuario?) returns (ok: bool)
      modifies this`usuariosRegistrados
      ensures ok <==> usuario != null && old(Lists.Any(usuariosRegistrados, UsuarioConId(usuario.id)))
      ensures usuariosRegistrados == if ok then Lists.RemoveFirst(old(usuariosRegistrados), UsuarioConId(usuario.id))
                                     else old(usuariosRegistrados)
      ensures ok && old(Lists.SinRepetidos(usuariosRegistrados, IdUsuario())) ==>
                !Lists.Any(usuariosRegistrados, UsuarioConId(usuario.id))
    {
      if usuario != null && Lists.Any(usuariosRegistrados, UsuarioConId(usuario.id)) {
        if Lists.SinRepetidos(usuariosRegistrados, IdUsuario()) {
          Lists.QuitarUnico(usuariosRegistrados, UsuarioConId(usuario.id), IdUsuario(), usuario.id);
        }
        usuariosRegistrados := Lists.RemoveFirst(usuariosRegistrados, UsuarioConId(usuario.id));
        return true;
      }
      return false;
    }

    /** agregarCalificacion: a non-null rating joins the list and the average is recomputed. */
    method AgregarCalificacion(calificacion: Classes.Calificacion?) returns (ok: bool)
      modifies this`calificaciones, this`calificacionPromedio
      ensures ok <==> calificacion != null
      ensures ok ==> calificaciones == old(calificaciones) + [calificacion] &&
                     calificacionPromedio == Ratings.Promedio(Classes.Puntuaciones(calificaciones))
      ensures ok && Classes.TodasValidas(calificaciones) ==>
                Ratings.PUNTUACION_MIN as real <= calificacionPromedio <= Ratings.PUNTUACION_MAX as real
      ensures !ok ==> calificaciones == old(calificaciones) && calificacionPromedio == old(calificacionPromedio)
    {
      if calificacion != null {
        calificaciones := calificaciones + [calificacion];
        ActualizarCalificacionPromedio();
        return true;
      }
      return false;
    }

    /** actualizarCalificacionPromedio: 0 without ratings, otherwise the sum of the scores over their count. */
    method ActualizarCalificacionPromedio()
      modifies this`calificacionPromedio
      ensures calificacionPromedio == Ratings.Promedio(Classes.Puntuaciones(calificaciones))
      ensures calificaciones != [] && Classes.TodasValidas(calificaciones) ==>
                Ratings.PUNTUACION_MIN as real <= calificacionPromedio <= Ratings.PUNTUACION_MAX as real
    {
      if calificaciones == [] {
        calificacionPromedio := 0.0;
        return;
      }
      var suma := 0.0;
      var i := 0;
      while i < |calificaciones|
        invariant 0 <= i <= |calificaciones|
        invariant suma == Ratings.Suma(Classes.Puntuaciones(calificaciones[..i]))
      {
        assert calificaciones[..i + 1][..i] == calificaciones[..i];
        Ratings.SumaAgregar(Classes.Puntuaciones(calificaciones[..i]), calificaciones[i].puntuacion);
        suma := suma + calificaciones[i].puntuacion as real;
        i := i + 1;
      }
      assert calificaciones[..i] == calificaciones;
      calificacionPromedio := suma / |calificaciones| as real;
      if Classes.TodasValidas(calificaciones) {
        Ratings.PromedioEnRango(Classes.Puntuaciones(calificaciones));
      }
    }
  }
}
