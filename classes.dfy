/**
 * The domain classes of the betting back end: Usuario (account, balance,
 * venue registrations, bet history), Apuesta (a bet, its stake, its
 * co-bettors, settlement), Lugar (a venue, its games, users and ratings) and
 * Calificacion (a 1..5 rating of a venue). They refer to each other, so they
 * share one module. Each persists itself through the JSON store of its kind;
 * a store write may throw a PersistenciaException, which the model returns
 * as `Thrown` wherever the source lets it propagate.
 *
 * Every entity compares by id (equals() in the source), so list membership
 * and removal go through the `...ConId` predicates below; ids are `const`.
 */
module Classes {
  import opened Common
  import opened Strings
  import Lists
  import Ledger
  import Ratings
  import Cuenta
  import UsuarioDao
  import ApuestaDao
  import LugarDao
  import Juegos

  // ----- equals() by id, and the id lists of the stored snapshots -----

  function UsuarioConId(id: string): Usuario -> bool { (u: Usuario) => u.id == id }
  function IdUsuario(): Usuario -> string { (u: Usuario) => u.id }
  function LugarConId(id: string): Lugar -> bool { (l: Lugar) => l.id == id }
  function IdLugar(): Lugar -> string { (l: Lugar) => l.id }
  function JuegoConId(id: string): Juegos.Juego -> bool { (j: Juegos.Juego) => j.id == id }
  function IdJuego(): Juegos.Juego -> string { (j: Juegos.Juego) => j.id }

  /** `apostador.equals(e)` for an element of a list that may hold null: a null element never matches. */
  function ApostadorConId(id: string): Usuario? -> bool { (u: Usuario?) => u != null && u.id == id }

  function IdDeUsuario(u: Usuario?): Option<string> { if u == null then None else Some(u.id) }
  function IdDeLugar(l: Lugar?): Option<string> { if l == null then None else Some(l.id) }
  function IdDeJuego(j: Juegos.Juego?): Option<string> { if j == null then None else Some(j.id) }

  function IdsUsuarios(us: seq<Usuario>): seq<string>
  {
    seq(|us|, i requires 0 <= i < |us| => us[i].id)
  }

  function IdsApostadores(us: seq<Usuario?>): seq<Option<string>>
  {
    seq(|us|, i requires 0 <= i < |us| => IdDeUsuario(us[i]))
  }

  function IdsJuegos(js: seq<Juegos.Juego>): seq<string>
  {
    seq(|js|, i requires 0 <= i < |js| => js[i].id)
  }

  function IdsCalificaciones(cs: seq<Calificacion>): seq<string>
  {
    seq(|cs|, i requires 0 <= i < |cs| => cs[i].id)
  }

  /** The scores of a list of ratings, in order. */
  function Puntuaciones(cs: seq<Calificacion>): (ps: seq<int>)
    reads cs
    ensures |ps| == |cs|
    ensures forall i :: 0 <= i < |cs| ==> ps[i] == cs[i].puntuacion
  {
    if cs == [] then [] else Puntuaciones(cs[..|cs| - 1]) + [cs[|cs| - 1].puntuacion]
  }

  /** Every rating of the list keeps its score in 1..5. */
  predicate TodasValidas(cs: seq<Calificacion>)
    reads cs
  {
    forall i :: 0 <= i < |cs| ==> cs[i].Valid()
  }

  /** The multiplier of the game of a bet, when there is a game. */
  function FactorDe(j: Juegos.Juego?): Option<real>
    reads j
  {
    if j == null then None else Some(j.factorMultiplicador)
  }

  /** No two non-null co-bettors of a bet share an id. */
  predicate ApostadoresDistintos(s: seq<Usuario?>)
  {
    forall i, j :: 0 <= i < j < |s| && s[i] != null && s[j] != null ==> s[i].id != s[j].id
  }

  // ----- Usuario -----

  class Usuario {
    const id: string
    const uid: string
    var nombre: string
    var apellido: string
    var correo: string
    var contrasena: string
    var carrera: string
    var semestre: int
    var saldoAPUNAB: real
    var historialApuestas: seq<Apuesta>
    var lugaresRegistrados: seq<Lugar>

    /** A new account: no balance, no bets, no venues; `id` is the fresh UUID. */
    constructor (id: string, uid: string, nombre: string, apellido: string, correo: string,
                 contrasena: string, carrera: string, semestre: int)
      ensures this.id == id && this.uid == uid && this.nombre == nombre && this.apellido == apellido
      ensures this.correo == correo && this.contrasena == contrasena && this.carrera == carrera
      ensures this.semestre == semestre
      ensures saldoAPUNAB == 0.0 && historialApuestas == [] && lugaresRegistrados == []
    {
      this.id := id;
      this.uid := uid;
      this.nombre := nombre;
      this.apellido := apellido;
      this.correo := correo;
      this.contrasena := contrasena;
      this.carrera := carrera;
      this.semestre := semestre;
      this.saldoAPUNAB := 0.0;
      this.historialApuestas := [];
      this.lugaresRegistrados := [];
    }

    /** A user rebuilt from a stored record: the record round-trips, the lists start empty. */
    constructor Cargar(u: UsuarioDao.UsuarioJSON)
      ensures ToJson() == u
      ensures historialApuestas == [] && lugaresRegistrados == []
    {
      this.id := u.id;
      this.uid := u.uid;
      this.nombre := u.nombre;
      this.apellido := u.apellido;
      this.correo := u.correo;
      this.contrasena := u.contrasena;
      this.carrera := u.carrera;
      this.semestre := u.semestre;
      this.saldoAPUNAB := u.saldoAPUNAB;
      this.historialApuestas := [];
      this.lugaresRegistrados := [];
    }

    /** The record the users' store keeps for this user. */
    function ToJson(): UsuarioDao.UsuarioJSON
      reads this
    {
      UsuarioDao.UsuarioJSON(id, uid, nombre, apellido, correo, contrasena, carrera, semestre, saldoAPUNAB)
    }

    /**
     * registrarse: the rules are checked in order and the first broken one
     * throws an IllegalArgumentException with its message, changing nothing.
     * Otherwise the fields take the trimmed input (the e-mail also lower-cased,
     * the password hashed) and the answer is the store's: true when the user
     * was appended, false when its id was already stored.
     */
    method Registrarse(nombre: Option<string>, apellido: Option<string>, correo: Option<string>,
                       contrasena: Option<string>, carrera: Option<string>, semestre: int,
                       sha256: string -> string, usuarios: UsuarioDao.UsuarioDAO) returns (r: Outcome<bool>)
      modifies this`nombre, this`apellido, this`correo, this`contrasena, this`carrera, this`semestre, usuarios
      ensures var e := Cuenta.ErrorRegistro(uid, nombre, apellido, correo, contrasena, carrera, semestre,
                                            old(usuarios.ExisteCorreo(correo)));
              if e.Some? then
                r == Thrown(IllegalArgumentException(Cuenta.Mensaje(e.value))) &&
                unchanged(this) && usuarios.archivo == old(usuarios.archivo)
              else
                this.nombre == Trim(nombre.value) && this.apellido == Trim(apellido.value) &&
                this.correo == ToLower(Trim(correo.value)) && this.contrasena == sha256(contrasena.value) &&
                this.carrera == Trim(carrera.value) && this.semestre == semestre &&
                (r == Ok(false) <==> UsuarioDao.ExisteId(old(usuarios.archivo), id)) &&
                (r.Thrown? ==> r.error == PersistenciaException)
      ensures r == Ok(true) ==> usuarios.archivo == old(usuarios.archivo) + [ToJson()]
      ensures r != Ok(true) ==> usuarios.archivo == old(usuarios.archivo)
    {
      var regla := ValidarRegistro(nombre, apellido, correo, contrasena, carrera, semestre, usuarios);
      if regla.Some? {
        return Thrown(IllegalArgumentException(Cuenta.Mensaje(regla.value)));
      }
      r := Asentar(Trim(nombre.value), Trim(apellido.value), ToLower(Trim(correo.value)), sha256(contrasena.value),
                   Trim(carrera.value), semestre, usuarios);
    }

    /** The tail of registrarse once every rule holds: the fields take the cleaned input and the user is saved. */
    method Asentar(nombre: string, apellido: string, correo: string, contrasena: string, carrera: string,
                   semestre: int, usuarios: UsuarioDao.UsuarioDAO) returns (r: Outcome<bool>)
      modifies this`nombre, this`apellido, this`correo, this`contrasena, this`carrera, this`semestre, usuarios
      ensures this.nombre == nombre && this.apellido == apellido && this.correo == correo &&
              this.contrasena == contrasena && this.carrera == carrera && this.semestre == semestre
      ensures r == Ok(false) <==> UsuarioDao.ExisteId(old(usuarios.archivo), id)
      ensures r.Thrown? ==> r.error == PersistenciaException
      ensures r == Ok(true) ==> usuarios.archivo == old(usuarios.archivo) + [ToJson()]
      ensures r != Ok(true) ==> usuarios.archivo == old(usuarios.archivo)
    {
      this.nombre := nombre;
      this.apellido := apellido;
      this.correo := correo;
      this.contrasena := contrasena;
      this.carrera := carrera;
      this.semestre := semestre;
      r := usuarios.GuardarUsuario(Some(ToJson()));
    }

    /** The checks at the head of registrarse, in their order: the first rule found broken, if any. */
    method ValidarRegistro(nombre: Option<string>, apellido: Option<string>, correo: Option<string>,
                           contrasena: Option<string>, carrera: Option<string>, semestre: int,
                           usuarios: UsuarioDao.UsuarioDAO) returns (regla: Option<Cuenta.ReglaRegistro>)
      ensures regla == Cuenta.ErrorRegistro(uid, nombre, apellido, correo, contrasena, carrera, semestre,
                                            usuarios.ExisteCorreo(correo))
      ensures regla.None? ==> nombre.Some? && apellido.Some? && correo.Some? && contrasena.Some? && carrera.Some?
    {
      if IsBlank(uid) {
        return Some(Cuenta.UidVacio);
      }
      if NullOrBlank(nombre) {
        return Some(Cuenta.NombreVacio);
      }
      if NullOrBlank(apellido) {
        return Some(Cuenta.ApellidoVacio);
      }
      if correo.None? || !Cuenta.CorreoValido(correo.value) {
        return Some(Cuenta.CorreoMalFormado);
      }
      if !EndsWith(ToLower(correo.value), Cuenta.DOMINIO_INSTITUCIONAL) {
        return Some(Cuenta.CorreoNoInstitucional);
      }
      if usuarios.ExisteCorreo(correo) {
        return Some(Cuenta.CorreoRegistrado);
      }
      if contrasena.None? || |contrasena.value| < Cuenta.LONGITUD_MINIMA_CONTRASENA {
        return Some(Cuenta.ContrasenaCorta);
      }
      var formato := ValidarFormatoContrasena(contrasena.value);
      if !formato {
        return Some(Cuenta.ContrasenaSinFormato);
      }
      if NullOrBlank(carrera) {
        return Some(Cuenta.CarreraVacia);
      }
      if semestre <= 0 || semestre > 10 {
        return Some(Cuenta.SemestreFueraDeRango);
      }
      return None;
    }

    /** validarFormatoContraseña: one pass over the chars, raising a flag per character class. */
    static method ValidarFormatoContrasena(contrasena: string) returns (ok: bool)
      ensures ok <==> Cuenta.FormatoContrasena(contrasena)
    {
      var tieneMayuscula, tieneMinuscula, tieneNumero := false, false, false;
      var i := 0;
      while i < |contrasena|
        invariant 0 <= i <= |contrasena|
        invariant tieneMayuscula <==> exists k :: 0 <= k < i && Cuenta.EsMayuscula(contrasena[k])
        invariant tieneMinuscula <==> exists k :: 0 <= k < i && Cuenta.EsMinuscula(contrasena[k])
        invariant tieneNumero <==> exists k :: 0 <= k < i && Cuenta.EsDigito(contrasena[k])
      {
        var c := contrasena[i];
        if Cuenta.EsMayuscula(c) {
          tieneMayuscula := true;
        } else if Cuenta.EsMinuscula(c) {
          tieneMinuscula := true;
        } else if Cuenta.EsDigito(c) {
          tieneNumero := true;
        }
        i := i + 1;
      }
      ok := tieneMayuscula && tieneMinuscula && tieneNumero;
    }

    /**
     * iniciarSesion: the record found by e-mail (trimmed, ignoring case),
     * provided its stored hash is the hash of the password given; nothing
     * otherwise.
     */
    static function IniciarSesion(correo: Option<string>, contrasena: string, sha256: string -> string,
                                  usuarios: UsuarioDao.UsuarioDAO): (r: Option<UsuarioDao.UsuarioJSON>)
      reads usuarios
      ensures NullOrBlank(correo) ==> r.None?
      ensures r.Some? ==> r.value in usuarios.archivo && r.value.contrasena == sha256(contrasena) &&
                          EqualsIgnoreCase(r.value.correo, Trim(correo.value))
      ensures r.None? && !NullOrBlank(correo) ==> usuarios.BuscarPorCorreo(correo).None? ||
                                                  usuarios.BuscarPorCorreo(correo).value.contrasena != sha256(contrasena)
    {
      match usuarios.BuscarPorCorreo(correo)
      case None => None
      case Some(u) => if u.contrasena == sha256(contrasena) then Some(u) else None
    }

    /**
     * A user registered with a well-formed address under which nobody was
     * registered logs in with that address as typed and the same password;
     * with a password of another hash the login fails.
     */
    static lemma RegistroPermiteIniciarSesion(antes: seq<UsuarioDao.UsuarioJSON>, u: UsuarioDao.UsuarioJSON,
                                              correo: string, contrasena: string, sha256: string -> string,
                                              usuarios: UsuarioDao.UsuarioDAO)
      requires Cuenta.CorreoValido(correo)
      requires !Lists.Any(antes, UsuarioDao.ConCorreo(Trim(correo)))
      requires u.correo == ToLower(Trim(correo)) && u.contrasena == sha256(contrasena)
      requires usuarios.archivo == antes + [u]
      ensures IniciarSesion(Some(correo), contrasena, sha256, usuarios) == Some(u)
      ensures forall otra :: sha256(otra) != u.contrasena ==> IniciarSesion(Some(correo), otra, sha256, usuarios).None?
    {
      Cuenta.CorreoGuardadoCoincide(correo);
      usuarios.BuscarPorCorreoAgregado(antes, u, correo);
    }

    /** The same user also logs in with the address as registrarse stored it. */
    static lemma RegistroPermiteIniciarSesionConCorreoGuardado(antes: seq<UsuarioDao.UsuarioJSON>,
                                                               u: UsuarioDao.UsuarioJSON, correo: string,
                                                               contrasena: string, sha256: string -> string,
                                                               usuarios: UsuarioDao.UsuarioDAO)
      requires Cuenta.CorreoValido(correo)
      requires !Lists.Any(antes, UsuarioDao.ConCorreo(Trim(correo)))
      requires u.correo == ToLower(Trim(correo)) && u.contrasena == sha256(contrasena)
      requires usuarios.archivo == antes + [u]
      ensures IniciarSesion(Some(u.correo), contrasena, sha256, usuarios) == Some(u)
    {
      Cuenta.CorreoGuardadoCoincide(correo);
      assert !Lists.Any(antes, UsuarioDao.ConCorreo(u.correo)) by {
        forall j | 0 <= j < |antes|
          ensures !UsuarioDao.ConCorreo(u.correo)(antes[j])
        {
          assert !UsuarioDao.ConCorreo(correo)(antes[j]);
        }
      }
      usuarios.BuscarPorCorreoAgregado(antes, u, u.correo);
    }

    /**
     * actualizarPerfil: each non-blank text field takes its trimmed value,
     * the semester changes only within 1..12, and the answer is the store's
     * update of the user's record.
     */
    method ActualizarPerfil(nombre: Option<string>, apellido: Option<string>, carrera: Option<string>, semestre: int,
                            usuarios: UsuarioDao.UsuarioDAO) returns (r: Outcome<bool>)
      modifies this`nombre, this`apellido, this`carrera, this`semestre, usuarios
      ensures this.nombre == if NullOrBlank(nombre) then old(this.nombre) else Trim(nombre.value)
      ensures this.apellido == if NullOrBlank(apellido) then old(this.apellido) else Trim(apellido.value)
      ensures this.carrera == if NullOrBlank(carrera) then old(this.carrera) else Trim(carrera.value)
      ensures this.semestre == if 0 < semestre <= 12 then semestre else old(this.semestre)
      ensures r == Ok(false) <==> !UsuarioDao.ExisteId(old(usuarios.archivo), id)
      ensures r == Ok(true) ==> usuarios.archivo == Lists.ReplaceFirst(old(usuarios.archivo), UsuarioDao.ConId(id), ToJson())
      ensures r.Ok? ==> UsuarioDao.Sincronizado(usuarios.archivo, ToJson())
      ensures r != Ok(true) ==> usuarios.archivo == old(usuarios.archivo)
    {
      this.nombre := if NullOrBlank(nombre) then this.nombre else Trim(nombre.value);
      this.apellido := if NullOrBlank(apellido) then this.apellido else Trim(apellido.value);
      this.carrera := if NullOrBlank(carrera) then this.carrera else Trim(carrera.value);
      this.semestre := if semestre > 0 && semestre <= 12 then semestre else this.semestre;
      var registro := ToJson();
      r := usuarios.ActualizarUsuario(Some(registro));
      assert registro == ToJson();
    }

    /**
     * cambiarContraseña: a wrong current password or an unacceptable new one
     * answers false with nothing changed. Otherwise the hash of the new
     * password replaces the stored one, in memory and in the first record of
     * the user's id.
     */
    method CambiarContrasena(actual: string, nueva: Option<string>, sha256: string -> string,
                             usuarios: UsuarioDao.UsuarioDAO) returns (r: Outcome<bool>)
      modifies this`contrasena, usuarios
      ensures old(contrasena) != sha256(actual) || !Cuenta.ContrasenaAceptable(nueva) ==>
                r == Ok(false) && contrasena == old(contrasena) && usuarios.archivo == old(usuarios.archivo)
      ensures old(contrasena) == sha256(actual) && Cuenta.ContrasenaAceptable(nueva) ==>
                contrasena == sha256(nueva.value) &&
                (r == Ok(false) <==> !UsuarioDao.ExisteId(old(usuarios.archivo), id))
      ensures r == Ok(true) ==>
                var k := Lists.IndexWhere(old(usuarios.archivo), UsuarioDao.ConId(id));
                k < |old(usuarios.archivo)| &&
                usuarios.archivo == old(usuarios.archivo)[k := old(usuarios.archivo)[k].(contrasena := contrasena)]
      ensures r != Ok(true) ==> usuarios.archivo == old(usuarios.archivo)
    {
      if contrasena != sha256(actual) {
        return Ok(false);
      }
      if nueva.None? || |nueva.value| < Cuenta.LONGITUD_MINIMA_CONTRASENA {
        return Ok(false);
      }
      var formato := ValidarFormatoContrasena(nueva.value);
      if !formato {
        return Ok(false);
      }
      var cifrada := sha256(nueva.value);
      contrasena := cifrada;
      r := usuarios.ActualizarContrasena(Some(id), Some(cifrada));
    }

    /** calcularAPUNABFaltantes: what is missing to reach 100000 APUNAB, never negative. */
    function CalcularAPUNABFaltantes(): (f: real)
      reads this
      ensures f >= 0.0
      ensures f == 0.0 <==> saldoAPUNAB >= Ledger.APUNAB_REQUERIDAS
      ensures f > 0.0 ==> saldoAPUNAB + f == Ledger.APUNAB_REQUERIDAS
    {
      Ledger.Faltantes(saldoAPUNAB)
    }

    /**
     * actualizarSaldo: a movement that would leave a negative balance answers
     * false and changes nothing; otherwise the balance moves in memory and the
     * answer is the store's update of the user's record (the in-memory
     * balance keeps the movement even when the write fails).
     */
    method ActualizarSaldo(cantidad: real, usuarios: UsuarioDao.UsuarioDAO) returns (r: Outcome<bool>)
      modifies this`saldoAPUNAB, usuarios
      ensures saldoAPUNAB == Ledger.NuevoSaldo(old(saldoAPUNAB), cantidad)
      ensures !Ledger.Admite(old(saldoAPUNAB), cantidad) ==> r == Ok(false) && usuarios.archivo == old(usuarios.archivo)
      ensures Ledger.Admite(old(saldoAPUNAB), cantidad) ==>
                (r == Ok(false) <==> !UsuarioDao.ExisteId(old(usuarios.archivo), id)) &&
                (r.Ok? ==> UsuarioDao.Sincronizado(usuarios.archivo, ToJson()))
      ensures r == Ok(true) ==> usuarios.archivo == Lists.ReplaceFirst(old(usuarios.archivo), UsuarioDao.ConId(id), ToJson())
      ensures r != Ok(true) ==> usuarios.archivo == old(usuarios.archivo)
      ensures r.Thrown? ==> r.error == PersistenciaException
      ensures UsuarioDao.SoloRegistroDe(old(usuarios.archivo), usuarios.archivo, id)
    {
      var nuevoSaldo := saldoAPUNAB + cantidad;
      if nuevoSaldo >= 0.0 {
        saldoAPUNAB := nuevoSaldo;
        UsuarioDao.ReemplazoSoloRegistroDe(usuarios.archivo, ToJson());
        r := usuarios.ActualizarUsuario(Some(ToJson()));
      } else {
        r := Ok(false);
      }
    }

    /**
     * registrarseEnLugar: a venue the user is not registered at is added to
     * the user's venues and the user to the venue's users (unless already
     * there); null or an already registered venue answers false.
     */
    method RegistrarseEnLugar(lugar: Lugar?, lugares: LugarDao.LugarDAO) returns (ok: bool)
      modifies this`lugaresRegistrados, lugar, lugares
      ensures ok <==> lugar != null && !old(Lists.Any(lugaresRegistrados, LugarConId(lugar.id)))
      ensures ok ==> lugar != null && lugaresRegistrados == old(lugaresRegistrados) + [lugar] &&
                     lugar.usuariosRegistrados == (if old(Lists.Any(lugar.usuariosRegistrados, UsuarioConId(id)))
                                                   then old(lugar.usuariosRegistrados)
                                                   else old(lugar.usuariosRegistrados) + [this]) &&
                     Lists.Any(lugar.usuariosRegistrados, UsuarioConId(id))
      ensures !ok ==> lugaresRegistrados == old(lugaresRegistrados) && lugares.archivo == old(lugares.archivo)
      ensures !ok && lugar != null ==> lugar.usuariosRegistrados == old(lugar.usuariosRegistrados)
      ensures lugar != null ==> lugar.juegosDisponibles == old(lugar.juegosDisponibles) &&
                                lugar.calificaciones == old(lugar.calificaciones)
      ensures old(Lists.SinRepetidos(lugaresRegistrados, IdLugar())) ==> Lists.SinRepetidos(lugaresRegistrados, IdLugar())
    {
      if lugar != null && !Lists.Any(lugaresRegistrados, LugarConId(lugar.id)) {
        if Lists.SinRepetidos(lugaresRegistrados, IdLugar()) {
          Lists.SinRepetidosAgregar<Lugar, string>(lugaresRegistrados, lugar, IdLugar());
        }
        lugaresRegistrados := lugaresRegistrados + [lugar];
        var _ := lugar.RegistrarUsuario(this, lugares);
        if !old(Lists.Any(lugar.usuariosRegistrados, UsuarioConId(id))) {
          assert lugar.usuariosRegistrados[|old(lugar.usuariosRegistrados)|] == this;
        }
        return true;
      }
      return false;
    }

    /**
     * darseDeBajaEnLugar: a venue the user is registered at leaves the user's
     * venues and the user leaves the venue's users; null or a venue the user
     * is not registered at answers false.
     */
    method DarseDeBajaEnLugar(lugar: Lugar?, lugares: LugarDao.LugarDAO) returns (ok: bool)
      modifies this`lugaresRegistrados, lugar, lugares
      ensures ok <==> lugar != null && old(Lists.Any(lugaresRegistrados, LugarConId(lugar.id)))
      ensures ok ==> lugar != null &&
                     lugaresRegistrados == Lists.RemoveFirst(old(lugaresRegistrados), LugarConId(lugar.id)) &&
                     lugar.usuariosRegistrados == Lists.RemoveFirst(old(lugar.usuariosRegistrados), UsuarioConId(id))
      ensures ok && old(Lists.SinRepetidos(lugaresRegistrados, IdLugar())) ==>
                !Lists.Any(lugaresRegistrados, LugarConId(lugar.id))
      ensures ok && old(Lists.SinRepetidos(lugar.usuariosRegistrados, IdUsuario())) ==>
                !Lists.Any(lugar.usuariosRegistrados, UsuarioConId(id))
      ensures !ok ==> lugaresRegistrados == old(lugaresRegistrados) && lugares.archivo == old(lugares.archivo)
      ensures !ok && lugar != null ==> lugar.usuariosRegistrados == old(lugar.usuariosRegistrados)
      ensures lugar != null ==> lugar.juegosDisponibles == old(lugar.juegosDisponibles) &&
                                lugar.calificaciones == old(lugar.calificaciones)
      ensures old(Lists.SinRepetidos(lugaresRegistrados, IdLugar())) ==> Lists.SinRepetidos(lugaresRegistrados, IdLugar())
    {
      if lugar != null && Lists.Any(lugaresRegistrados, LugarConId(lugar.id)) {
        if Lists.SinRepetidos(lugaresRegistrados, IdLugar()) {
          Lists.SinRepetidosQuitar(lugaresRegistrados, LugarConId(lugar.id), IdLugar());
          Lists.QuitarUnico(lugaresRegistrados, LugarConId(lugar.id), IdLugar(), lugar.id);
        }
        lugaresRegistrados := Lists.RemoveFirst(lugaresRegistrados, LugarConId(lugar.id));
        if Lists.SinRepetidos(lugar.usuariosRegistrados, IdUsuario()) {
          Lists.QuitarUnico(lugar.usuariosRegistrados, UsuarioConId(id), IdUsuario(), id);
        }
        var _ := lugar.QuitarUsuario(this, lugares);
        return true;
      }
      return false;
    }

    /** agregarApuesta: a non-null bet joins the end of the history. */
    method AgregarApuesta(apuesta: Apuesta?)
      modifies this`historialApuestas
      ensures historialApuestas == if apuesta == null then old(historialApuestas) else old(historialApuestas) + [apuesta]
    {
      if apuesta != null {
        historialApuestas := historialApuestas + [apuesta];
      }
    }

    /** eliminar: every stored record of the user's id is deleted. */
    method Eliminar(usuarios: UsuarioDao.UsuarioDAO) returns (r: Outcome<bool>)
      modifies usuarios
      ensures r == Ok(false) <==> IsBlank(id) || !UsuarioDao.ExisteId(old(usuarios.archivo), id)
      ensures r == Ok(true) ==> usuarios.archivo == Lists.RemoveAll(old(usuarios.archivo), UsuarioDao.ConId(id)) &&
                                !UsuarioDao.ExisteId(usuarios.archivo, id)
      ensures r != Ok(true) ==> usuarios.archivo == old(usuarios.archivo)
    {
      r := usuarios.EliminarUsuario(Some(id));
    }
  }

  // ----- Lugar -----

  class Lugar {
    const id: string
    var nombre: string
    var direccion: string
    var descripcion: string
    var calificacionPromedio: real
    var juegosDisponibles: seq<Juegos.Juego>
    var usuariosRegistrados: seq<Usuario>
    var calificaciones: seq<Calificacion>

    /** A new venue or one loaded from the store: empty lists, the given average (0.0 for a new one). */
    constructor (id: string, nombre: string, direccion: string, descripcion: string, calificacionPromedio: real)
      ensures this.id == id && this.nombre == nombre && this.direccion == direccion && this.descripcion == descripcion
      ensures this.calificacionPromedio == calificacionPromedio
      ensures juegosDisponibles == [] && usuariosRegistrados == [] && calificaciones == []
    {
      this.id := id;
      this.nombre := nombre;
      this.direccion := direccion;
      this.descripcion := descripcion;
      this.calificacionPromedio := calificacionPromedio;
      this.juegosDisponibles := [];
      this.usuariosRegistrados := [];
      this.calificaciones := [];
    }

    /** The snapshot the venues' store keeps for this venue. */
    function ToJson(): LugarDao.LugarJSON
      reads this
    {
      LugarDao.LugarJSON(id, nombre, direccion, descripcion, calificacionPromedio,
                         IdsJuegos(juegosDisponibles), IdsUsuarios(usuariosRegistrados), IdsCalificaciones(calificaciones))
    }

    /** What guardarCambios may leave in the store: the old contents, or this venue's record rewritten. */
    predicate Persistido(antes: seq<LugarDao.LugarJSON>, despues: seq<LugarDao.LugarJSON>)
      reads this
    {
      despues == antes || despues == Lists.ReplaceFirst(antes, LugarDao.ConId(id), ToJson())
    }

    /**
     * crearLugar: a blank name or address, or a (name, address) pair the
     * store already has, answers false with nothing changed. Otherwise the
     * fields take the input as given (not trimmed) and the answer is whether
     * the store appended the venue; an exception of the store answers false.
     */
    method CrearLugar(nombre: Option<string>, direccion: Option<string>, descripcion: Option<string>,
                      lugares: LugarDao.LugarDAO) returns (ok: bool)
      modifies this`nombre, this`direccion, this`descripcion, lugares
      ensures NullOrBlank(nombre) || NullOrBlank(direccion) || old(lugares.ExisteLugar(nombre, direccion)) ==>
                !ok && unchanged(this) && lugares.archivo == old(lugares.archivo)
      ensures !(NullOrBlank(nombre) || NullOrBlank(direccion) || old(lugares.ExisteLugar(nombre, direccion))) ==>
                this.nombre == nombre.value && this.direccion == direccion.value &&
                this.descripcion == (if descripcion.Some? then descripcion.value else "")
      ensures ok ==> !LugarDao.ExisteId(old(lugares.archivo), id) && lugares.archivo == old(lugares.archivo) + [ToJson()]
      ensures !ok ==> lugares.archivo == old(lugares.archivo)
    {
      if NullOrBlank(nombre) || NullOrBlank(direccion) {
        return false;
      }
      if lugares.ExisteLugar(nombre, direccion) {
        return false;
      }
      this.nombre := nombre.value;
      this.direccion := direccion.value;
      this.descripcion := if descripcion.Some? then descripcion.value else "";
      var registro := ToJson();
      var r := lugares.GuardarLugar(Some(registro));
      assert registro == ToJson();
      ok := r == Ok(true);
    }

    /**
     * As written, crearLugar stores the name as typed while the duplicate
     * check trims its query. When the typed name starts with a blank, the
     * venue just created is not found by the check it passed, so the same
     * input creates a second venue: " Casino" at "Calle 1" twice.
     */
    static lemma NombreConEspaciosSeDuplica(antes: seq<LugarDao.LugarJSON>, l: LugarDao.LugarJSON,
                                            nombre: string, direccion: string, lugares: LugarDao.LugarDAO)
      requires !Lists.Any(antes, LugarDao.MismoLugar(Trim(nombre), Trim(direccion)))
      requires nombre != [] && IsTrimmable(nombre[0]) && l.nombre == nombre
      requires lugares.archivo == antes + [l]
      ensures !lugares.ExisteLugar(Some(nombre), Some(direccion))
    {
    }

    /**
     * crearLugar with the stored name and address trimmed, as the duplicate
     * check compares them: a venue it creates is found by that check, so the
     * same input cannot create a second one.
     */
    method CrearLugarCorregido(nombre: Option<string>, direccion: Option<string>, descripcion: Option<string>,
                               lugares: LugarDao.LugarDAO) returns (ok: bool)
      modifies this`nombre, this`direccion, this`descripcion, lugares
      ensures NullOrBlank(nombre) || NullOrBlank(direccion) || old(lugares.ExisteLugar(nombre, direccion)) ==>
                !ok && unchanged(this) && lugares.archivo == old(lugares.archivo)
      ensures ok ==> this.nombre == Trim(nombre.value) && this.direccion == Trim(direccion.value) &&
                     this.descripcion == (if descripcion.Some? then descripcion.value else "")
      ensures ok ==> !LugarDao.ExisteId(old(lugares.archivo), id) && lugares.archivo == old(lugares.archivo) + [ToJson()]
      ensures ok ==> lugares.ExisteLugar(nombre, direccion)
      ensures !ok ==> lugares.archivo == old(lugares.archivo)
    {
      if NullOrBlank(nombre) || NullOrBlank(direccion) {
        return false;
      }
      if lugares.ExisteLugar(nombre, direccion) {
        return false;
      }
      this.nombre := Trim(nombre.value);
      this.direccion := Trim(direccion.value);
      this.descripcion := if descripcion.Some? then descripcion.value else "";
      var registro := ToJson();
      var r := lugares.GuardarLugar(Some(registro));
      assert registro == ToJson();
      ok := r == Ok(true);
      if ok {
        lugares.ParRegistradoExiste(nombre.value, direccion.value, |lugares.archivo| - 1);
      }
    }

    /**
     * actualizarLugar: each non-blank name or address, and any non-null
     * description, replaces the field as given; with nothing to change the
     * answer is false, otherwise it is the store's update of the record
     * (false on an exception). Field changes stay when the store refuses.
     */
    method ActualizarLugar(nombre: Option<string>, direccion: Option<string>, descripcion: Option<string>,
                           lugares: LugarDao.LugarDAO) returns (ok: bool)
      modifies this`nombre, this`direccion, this`descripcion, lugares
      ensures this.nombre == if NullOrBlank(nombre) then old(this.nombre) else nombre.value
      ensures this.direccion == if NullOrBlank(direccion) then old(this.direccion) else direccion.value
      ensures this.descripcion == if descripcion.Some? then descripcion.value else old(this.descripcion)
      ensures ok ==> (!NullOrBlank(nombre) || !NullOrBlank(direccion) || descripcion.Some?) &&
                     LugarDao.ExisteId(old(lugares.archivo), id) &&
                     lugares.archivo == Lists.ReplaceFirst(old(lugares.archivo), LugarDao.ConId(id), ToJson())
      ensures !ok ==> lugares.archivo == old(lugares.archivo)
    {
      var actualizado := false;
      if !NullOrBlank(nombre) {
        this.nombre := nombre.value;
        actualizado := true;
      }
      if !NullOrBlank(direccion) {
        this.direccion := direccion.value;
        actualizado := true;
      }
      if descripcion.Some? {
        this.descripcion := descripcion.value;
        actualizado := true;
      }
      if actualizado {
        ok := GuardarCambios(lugares);
        return;
      }
      return false;
    }

    /**
     * eliminarLugar: the venue's games, users and ratings are cleared in
     * memory and every stored record of its id is deleted; false when there
     * was none or the store threw.
     */
    method EliminarLugar(lugares: LugarDao.LugarDAO) returns (ok: bool)
      modifies this`juegosDisponibles, this`usuariosRegistrados, this`calificaciones, lugares
      ensures juegosDisponibles == [] && usuariosRegistrados == [] && calificaciones == []
      ensures ok ==> LugarDao.ExisteId(old(lugares.archivo), id) && !LugarDao.ExisteId(lugares.archivo, id) &&
                     lugares.archivo == Lists.RemoveAll(old(lugares.archivo), LugarDao.ConId(id))
      ensures !ok ==> lugares.archivo == old(lugares.archivo)
      ensures !IsBlank(id) && !ok ==> !LugarDao.ExisteId(old(lugares.archivo), id) || lugares.archivo == old(lugares.archivo)
    {
      juegosDisponibles := [];
      usuariosRegistrados := [];
      calificaciones := [];
      var r := lugares.EliminarLugar(Some(id));
      ok := r == Ok(true);
    }

    /**
     * consultarLugar: when the store has a record for this venue, its name,
     * address, description and average rating take the stored values and
     * that record is the answer; otherwise nothing changes and the answer is
     * this venue as it is. The lists are not reloaded.
     */
    method ConsultarLugar(lugares: LugarDao.LugarDAO) returns (r: LugarDao.LugarJSON)
      modifies this`nombre, this`direccion, this`descripcion, this`calificacionPromedio
      ensures r.id == id
      ensures !IsBlank(id) && LugarDao.ExisteId(lugares.archivo, id) ==>
                r in lugares.archivo && nombre == r.nombre && direccion == r.direccion &&
                descripcion == r.descripcion && calificacionPromedio == r.calificacionPromedio
      ensures IsBlank(id) || !LugarDao.ExisteId(lugares.archivo, id) ==> unchanged(this) && r == ToJson()
    {
      var guardado := lugares.BuscarPorId(Some(id));
      if guardado.Some? {
        r := guardado.value;
        nombre := r.nombre;
        direccion := r.direccion;
        descripcion := r.descripcion;
        calificacionPromedio := r.calificacionPromedio;
      } else {
        r := ToJson();
      }
    }

    /** guardarCambios: the store's update of this venue's record; false when it has none or throws. */
    method GuardarCambios(lugares: LugarDao.LugarDAO) returns (ok: bool)
      modifies lugares
      ensures ok ==> LugarDao.ExisteId(old(lugares.archivo), id) &&
                     lugares.archivo == Lists.ReplaceFirst(old(lugares.archivo), LugarDao.ConId(id), ToJson())
      ensures !ok ==> lugares.archivo == old(lugares.archivo)
      ensures Persistido(old(lugares.archivo), lugares.archivo)
    {
      var r := lugares.ActualizarLugar(Some(ToJson()));
      ok := r == Ok(true);
    }

    /**
     * agregarJuego: a game not yet offered joins the end of the list and the
     * venue is saved (the save's answer is ignored); null or a game already
     * offered answers false with nothing changed.
     */
    method AgregarJuego(juego: Juegos.Juego?, lugares: LugarDao.LugarDAO) returns (ok: bool)
      modifies this`juegosDisponibles, lugares
      ensures ok <==> juego != null && !old(Lists.Any(juegosDisponibles, JuegoConId(juego.id)))
      ensures ok ==> juegosDisponibles == old(juegosDisponibles) + [juego]
      ensures !ok ==> juegosDisponibles == old(juegosDisponibles) && lugares.archivo == old(lugares.archivo)
      ensures Persistido(old(lugares.archivo), lugares.archivo)
      ensures old(Lists.SinRepetidos(juegosDisponibles, IdJuego())) ==> Lists.SinRepetidos(juegosDisponibles, IdJuego())
    {
      if juego != null && !Lists.Any(juegosDisponibles, JuegoConId(juego.id)) {
        if Lists.SinRepetidos(juegosDisponibles, IdJuego()) {
          Lists.SinRepetidosAgregar<Juegos.Juego, string>(juegosDisponibles, juego, IdJuego());
        }
        juegosDisponibles := juegosDisponibles + [juego];
        var _ := GuardarCambios(lugares);
        return true;
      }
      return false;
    }

    /**
     * eliminarJuego: the first game with the id leaves the list and the venue
     * is saved; null or a game not offered answers false. In a list without
     * repeated ids the game is then gone.
     */
    method EliminarJuego(juego: Juegos.Juego?, lugares: LugarDao.LugarDAO) returns (ok: bool)
      modifies this`juegosDisponibles, lugares
      ensures ok <==> juego != null && old(Lists.Any(juegosDisponibles, JuegoConId(juego.id)))
      ensures ok ==> juegosDisponibles == Lists.RemoveFirst(old(juegosDisponibles), JuegoConId(juego.id))
      ensures ok && old(Lists.SinRepetidos(juegosDisponibles, IdJuego())) ==>
                !Lists.Any(juegosDisponibles, JuegoConId(juego.id))
      ensures !ok ==> juegosDisponibles == old(juegosDisponibles) && lugares.archivo == old(lugares.archivo)
      ensures Persistido(old(lugares.archivo), lugares.archivo)
      ensures old(Lists.SinRepetidos(juegosDisponibles, IdJuego())) ==> Lists.SinRepetidos(juegosDisponibles, IdJuego())
    {
      if juego != null && Lists.Any(juegosDisponibles, JuegoConId(juego.id)) {
        if Lists.SinRepetidos(juegosDisponibles, IdJuego()) {
          Lists.SinRepetidosQuitar(juegosDisponibles, JuegoConId(juego.id), IdJuego());
          Lists.QuitarUnico(juegosDisponibles, JuegoConId(juego.id), IdJuego(), juego.id);
        }
        juegosDisponibles := Lists.RemoveFirst(juegosDisponibles, JuegoConId(juego.id));
        var _ := GuardarCambios(lugares);
        return true;
      }
      return false;
    }

    /** registrarUsuario: as agregarJuego, for the venue's users. */
    method RegistrarUsuario(usuario: Usuario?, lugares: LugarDao.LugarDAO) returns (ok: bool)
      modifies this`usuariosRegistrados, lugares
      ensures ok <==> usuario != null && !old(Lists.Any(usuariosRegistrados, UsuarioConId(usuario.id)))
      ensures ok ==> usuariosRegistrados == old(usuariosRegistrados) + [usuario]
      ensures !ok ==> usuariosRegistrados == old(usuariosRegistrados) && lugares.archivo == old(lugares.archivo)
      ensures Persistido(old(lugares.archivo), lugares.archivo)
      ensures old(Lists.SinRepetidos(usuariosRegistrados, IdUsuario())) ==> Lists.SinRepetidos(usuariosRegistrados, IdUsuario())
    {
      if usuario != null && !Lists.Any(usuariosRegistrados, UsuarioConId(usuario.id)) {
        if Lists.SinRepetidos(usuariosRegistrados, IdUsuario()) {
          Lists.SinRepetidosAgregar<Usuario, string>(usuariosRegistrados, usuario, IdUsuario());
        }
        usuariosRegistrados := usuariosRegistrados + [usuario];
        var _ := GuardarCambios(lugares);
        return true;
      }
      return false;
    }

    /** quitarUsuario: as eliminarJuego, for the venue's users. */
    method QuitarUsuario(usuario: Usuario?, lugares: LugarDao.LugarDAO) returns (ok: bool)
      modifies this`usuariosRegistrados, lugares
      ensures ok <==> usuario != null && old(Lists.Any(usuariosRegistrados, UsuarioConId(usuario.id)))
      ensures ok ==> usuariosRegistrados == Lists.RemoveFirst(old(usuariosRegistrados), UsuarioConId(usuario.id))
      ensures ok && old(Lists.SinRepetidos(usuariosRegistrados, IdUsuario())) ==>
                !Lists.Any(usuariosRegistrados, UsuarioConId(usuario.id))
      ensures !ok ==> usuariosRegistrados == old(usuariosRegistrados) && lugares.archivo == old(lugares.archivo)
      ensures Persistido(old(lugares.archivo), lugares.archivo)
      ensures old(Lists.SinRepetidos(usuariosRegistrados, IdUsuario())) ==> Lists.SinRepetidos(usuariosRegistrados, IdUsuario())
    {
      if usuario != null && Lists.Any(usuariosRegistrados, UsuarioConId(usuario.id)) {
        if Lists.SinRepetidos(usuariosRegistrados, IdUsuario()) {
          Lists.SinRepetidosQuitar(usuariosRegistrados, UsuarioConId(usuario.id), IdUsuario());
          Lists.QuitarUnico(usuariosRegistrados, UsuarioConId(usuario.id), IdUsuario(), usuario.id);
        }
        usuariosRegistrados := Lists.RemoveFirst(usuariosRegistrados, UsuarioConId(usuario.id));
        var _ := GuardarCambios(lugares);
        return true;
      }
      return false;
    }

    /**
     * agregarCalificacion: a non-null rating joins the list, the average is
     * recomputed over all ratings and the venue is saved.
     */
    method AgregarCalificacion(calificacion: Calificacion?, lugares: LugarDao.LugarDAO) returns (ok: bool)
      modifies this`calificaciones, this`calificacionPromedio, lugares
      ensures ok <==> calificacion != null
      ensures ok ==> calificaciones == old(calificaciones) + [calificacion] &&
                     calificacionPromedio == Ratings.Promedio(Puntuaciones(calificaciones))
      ensures ok && TodasValidas(calificaciones) ==>
                Ratings.PUNTUACION_MIN as real <= calificacionPromedio <= Ratings.PUNTUACION_MAX as real
      ensures !ok ==> unchanged(this) && lugares.archivo == old(lugares.archivo)
      ensures Persistido(old(lugares.archivo), lugares.archivo)
    {
      if calificacion != null {
        calificaciones := calificaciones + [calificacion];
        ActualizarCalificacionPromedio();
        var _ := GuardarCambios(lugares);
        return true;
      }
      return false;
    }

    /** actualizarCalificacionPromedio: 0 without ratings, otherwise the sum of the scores over their count. */
    method ActualizarCalificacionPromedio()
      modifies this`calificacionPromedio
      ensures calificacionPromedio == Ratings.Promedio(Puntuaciones(calificaciones))
      ensures calificaciones != [] && TodasValidas(calificaciones) ==>
                Ratings.PUNTUACION_MIN as real <= calificacionPromedio <= Ratings.PUNTUACION_MAX as real
    {
      if calificaciones == [] {
        calificacionPromedio := 0.0;
        return;
      }
      var suma := 0.0;
      var i := 0;
      while i < |calificaciones|
        invariant 0 <= i <= |calificaciones|
        invariant suma == Ratings.Suma(Puntuaciones(calificaciones[..i]))
      {
        assert calificaciones[..i + 1][..i] == calificaciones[..i];
        Ratings.SumaAgregar(Puntuaciones(calificaciones[..i]), calificaciones[i].puntuacion);
        suma := suma + calificaciones[i].puntuacion as real;
        i := i + 1;
      }
      assert calificaciones[..i] == calificaciones;
      calificacionPromedio := suma / |calificaciones| as real;
      if TodasValidas(calificaciones) {
        Ratings.PromedioEnRango(Puntuaciones(calificaciones));
      }
    }
  }

  // ----- Calificacion -----

  class Calificacion {
    const id: string
    var usuario: Usuario?
    var lugar: Lugar?
    var puntuacion: int
    var comentario: string
    var fecha: int

    /** A score always lies in 1..5: every write goes through setPuntuacion's clamp or a range check. */
    predicate Valid()
      reads this
    {
      Ratings.EnRango(puntuacion)
    }

    /**
     * A rating, new or loaded: the score clamped to 1..5, a null comment
     * as "", a missing date as `ahora`.
     */
    constructor (id: string, usuario: Usuario?, lugar: Lugar?, puntuacion: int, comentario: Option<string>,
                 fecha: Option<int>, ahora: int)
      ensures Valid()
      ensures this.id == id && this.usuario == usuario && this.lugar == lugar
      ensures this.puntuacion == Ratings.Acotar(puntuacion)
      ensures this.comentario == if comentario.Some? then comentario.value else ""
      ensures this.fecha == if fecha.Some? then fecha.value else ahora
    {
      this.id := id;
      this.usuario := usuario;
      this.lugar := lugar;
      this.puntuacion := Ratings.Acotar(puntuacion);
      this.comentario := if comentario.Some? then comentario.value else "";
      this.fecha := if fecha.Some? then fecha.value else ahora;
    }

    /** setPuntuacion: below 1 becomes 1, above 5 becomes 5. */
    method SetPuntuacion(puntuacion: int)
      modifies this`puntuacion
      ensures this.puntuacion == Ratings.Acotar(puntuacion)
      ensures Valid()
    {
      this.puntuacion := Ratings.Acotar(puntuacion);
    }

    /** setComentario: null becomes "". */
    method SetComentario(comentario: Option<string>)
      modifies this`comentario
      ensures this.comentario == if comentario.Some? then comentario.value else ""
    {
      this.comentario := if comentario.Some? then comentario.value else "";
    }

    /**
     * calificarLugar: with a user and a venue, the rating takes them, the
     * clamped score, the comment and the date, and joins the venue's ratings,
     * whose average is recomputed; a null user or venue answers false.
     */
    method CalificarLugar(usuario: Usuario?, lugar: Lugar?, puntuacion: int, comentario: Option<string>,
                          ahora: int, lugares: LugarDao.LugarDAO) returns (ok: bool)
      modifies this, lugar, lugares
      ensures ok <==> usuario != null && lugar != null
      ensures !ok ==> unchanged(this) && lugares.archivo == old(lugares.archivo)
      ensures !ok && lugar != null ==> unchanged(lugar)
      ensures ok ==> this.usuario == usuario && this.lugar == lugar && Valid() &&
                     this.puntuacion == Ratings.Acotar(puntuacion) &&
                     this.comentario == (if comentario.Some? then comentario.value else "") && fecha == ahora
      ensures ok ==> lugar != null && lugar.calificaciones == old(lugar.calificaciones) + [this] &&
                     lugar.calificacionPromedio == Ratings.Promedio(Puntuaciones(lugar.calificaciones))
      ensures ok && old(TodasValidas(lugar.calificaciones)) ==>
                Ratings.PUNTUACION_MIN as real <= lugar.calificacionPromedio <= Ratings.PUNTUACION_MAX as real
    {
      if usuario == null || lugar == null {
        return false;
      }
      this.usuario := usuario;
      this.lugar := lugar;
      this.puntuacion := Ratings.Acotar(puntuacion);
      this.comentario := if comentario.Some? then comentario.value else "";
      this.fecha := ahora;
      ok := lugar.AgregarCalificacion(this, lugares);
    }

    /**
     * actualizarCalificacion: a different score within 1..5 replaces the
     * score, a non-null comment replaces the comment, and either refreshes
     * the date; the answer says whether anything changed. The venue's average
     * is not recomputed.
     */
    method ActualizarCalificacion(puntuacion: int, comentario: Option<string>, ahora: int) returns (ok: bool)
      modifies this`puntuacion, this`comentario, this`fecha
      ensures var cambia := old(this.puntuacion) != puntuacion && Ratings.EnRango(puntuacion);
              this.puntuacion == (if cambia then puntuacion else old(this.puntuacion)) &&
              (ok <==> cambia || comentario.Some?)
      ensures this.comentario == if comentario.Some? then comentario.value else old(this.comentario)
      ensures fecha == if ok then ahora else old(fecha)
      ensures old(Valid()) ==> Valid()
    {
      ok := false;
      if this.puntuacion != puntuacion && puntuacion >= 1 && puntuacion <= 5 {
        this.puntuacion := puntuacion;
        ok := true;
      }
      if comentario.Some? {
        this.comentario := comentario.value;
        ok := true;
      }
      if ok {
        fecha := ahora;
      }
    }

    /** getNombreUsuario: the user's full name, or "Usuario desconocido". */
    function GetNombreUsuario(): string
      reads this, usuario
    {
      if usuario != null then usuario.nombre + " " + usuario.apellido else "Usuario desconocido"
    }

    /** getNombreLugar: the venue's name, or "Lugar desconocido". */
    function GetNombreLugar(): string
      reads this, lugar
    {
      if lugar != null then lugar.nombre else "Lugar desconocido"
    }
  }
  // ----- Apuesta -----

  /** The bettor of a bet as a frame: nobody when there is no bettor. */
  function Unico(u: Usuario?): set<Usuario>
  {
    if u == null then {} else {u}
  }

  /** The lookup of `list.remove(apostador)` and `list.contains(apostador)`. */
  lemma QuitarApostador(s: seq<Usuario?>, id: string)
    requires ApostadoresDistintos(s)
    ensures ApostadoresDistintos(Lists.RemoveFirst(s, ApostadorConId(id)))
    ensures !Lists.Any(Lists.RemoveFirst(s, ApostadorConId(id)), ApostadorConId(id))
  {
    var k := Lists.IndexWhere(s, ApostadorConId(id));
    if k < |s| {
      var r := Lists.RemoveFirst(s, ApostadorConId(id));
      assert forall i :: 0 <= i < |r| ==> r[i] == if i < k then s[i] else s[i + 1];
      forall i | 0 <= i < |r|
        ensures !ApostadorConId(id)(r[i])
      {
        if i >= k {
          assert r[i] == s[i + 1];
        }
      }
    }
  }

  /** Appending a co-bettor whose id is not in the list keeps the ids distinct. */
  lemma AgregarApostadorDistinto(s: seq<Usuario?>, u: Usuario)
    requires ApostadoresDistintos(s) && !Lists.Any(s, ApostadorConId(u.id))
    ensures ApostadoresDistintos(s + [u])
  {
    var t := s + [u];
    forall i, j | 0 <= i < j < |t| && t[i] != null && t[j] != null
      ensures t[i].id != t[j].id
    {
      if j == |s| {
        assert !ApostadorConId(u.id)(s[i]);
      }
    }
  }

  /** The guard of crearApuesta: bettor, venue and game present, a positive stake the balance covers. */
  predicate PuedeApostar(estudiante: Usuario?, lugar: Lugar?, juego: Juegos.Juego?, cantidadAPUNAB: real)
    reads estudiante
  {
    estudiante != null && lugar != null && juego != null && cantidadAPUNAB > 0.0 &&
    estudiante.saldoAPUNAB >= cantidadAPUNAB
  }

  class Apuesta {
    const id: string
    var estudiante: Usuario?
    var lugar: Lugar?
    var juego: Juegos.Juego?
    var cantidadAPUNAB: real
    var fecha: int
    var otrosApostadores: seq<Usuario?>
    var ganada: bool
    var finalizada: bool
    var gananciaPotencial: real
    var gananciaReal: real

    /**
     * A new bet, `id` being its fresh UUID and `ahora` the current time: a
     * non-positive stake becomes 0; the bet is unsettled, not won, with no
     * co-bettors and nothing paid, and its potential payout follows the stake.
     */
    constructor (id: string, estudiante: Usuario?, lugar: Lugar?, juego: Juegos.Juego?, cantidadAPUNAB: real, ahora: int)
      ensures this.id == id && this.estudiante == estudiante && this.lugar == lugar && this.juego == juego
      ensures this.cantidadAPUNAB == (if cantidadAPUNAB > 0.0 then cantidadAPUNAB else 0.0)
      ensures this.cantidadAPUNAB >= 0.0
      ensures fecha == ahora && otrosApostadores == []
      ensures !ganada && !finalizada && gananciaReal == 0.0
      ensures gananciaPotencial == CalcularGananciaPotencial()
    {
      this.id := id;
      this.estudiante := estudiante;
      this.lugar := lugar;
      this.juego := juego;
      this.cantidadAPUNAB := if cantidadAPUNAB > 0.0 then cantidadAPUNAB else 0.0;
      this.fecha := ahora;
      this.otrosApostadores := [];
      this.ganada := false;
      this.finalizada := false;
      this.gananciaPotencial := Ledger.GananciaPotencial(if cantidadAPUNAB > 0.0 then cantidadAPUNAB else 0.0, FactorDe(juego));
      this.gananciaReal := 0.0;
    }

    /** A new bet with co-bettors: as the plain constructor, then the given list (none for null). */
    constructor ConApostadores(id: string, estudiante: Usuario?, lugar: Lugar?, juego: Juegos.Juego?, cantidadAPUNAB: real,
                               ahora: int, otrosApostadores: Option<seq<Usuario?>>)
      ensures this.id == id && this.estudiante == estudiante && this.lugar == lugar && this.juego == juego
      ensures this.cantidadAPUNAB == (if cantidadAPUNAB > 0.0 then cantidadAPUNAB else 0.0)
      ensures fecha == ahora
      ensures this.otrosApostadores == if otrosApostadores.Some? then otrosApostadores.value else []
      ensures !ganada && !finalizada && gananciaReal == 0.0
      ensures gananciaPotencial == CalcularGananciaPotencial()
    {
      this.id := id;
      this.estudiante := estudiante;
      this.lugar := lugar;
      this.juego := juego;
      this.cantidadAPUNAB := if cantidadAPUNAB > 0.0 then cantidadAPUNAB else 0.0;
      this.fecha := ahora;
      this.otrosApostadores := if otrosApostadores.Some? then otrosApostadores.value else [];
      this.ganada := false;
      this.finalizada := false;
      this.gananciaPotencial := Ledger.GananciaPotencial(if cantidadAPUNAB > 0.0 then cantidadAPUNAB else 0.0, FactorDe(juego));
      this.gananciaReal := 0.0;
    }

    /**
     * A bet rebuilt from stored values: the stake is clamped as in the other
     * constructors, a missing date becomes `ahora`, a missing list empty; the
     * flags and payouts are taken as given.
     */
    constructor Cargar(id: string, estudiante: Usuario?, lugar: Lugar?, juego: Juegos.Juego?, cantidadAPUNAB: real,
                       fecha: Option<int>, ahora: int, otrosApostadores: Option<seq<Usuario?>>,
                       ganada: bool, finalizada: bool, gananciaPotencial: real, gananciaReal: real)
      ensures this.id == id && this.estudiante == estudiante && this.lugar == lugar && this.juego == juego
      ensures this.cantidadAPUNAB == (if cantidadAPUNAB > 0.0 then cantidadAPUNAB else 0.0)
      ensures this.fecha == (if fecha.Some? then fecha.value else ahora)
      ensures this.otrosApostadores == if otrosApostadores.Some? then otrosApostadores.value else []
      ensures this.ganada == ganada && this.finalizada == finalizada
      ensures this.gananciaPotencial == gananciaPotencial && this.gananciaReal == gananciaReal
    {
      this.id := id;
      this.estudiante := estudiante;
      this.lugar := lugar;
      this.juego := juego;
      this.cantidadAPUNAB := if cantidadAPUNAB > 0.0 then cantidadAPUNAB else 0.0;
      this.fecha := if fecha.Some? then fecha.value else ahora;
      this.otrosApostadores := if otrosApostadores.Some? then otrosApostadores.value else [];
      this.ganada := ganada;
      this.finalizada := finalizada;
      this.gananciaPotencial := gananciaPotencial;
      this.gananciaReal := gananciaReal;
    }

    /**
     * calcularGananciaPotencial: the stake times the game's multiplier, or the
     * stake alone without a game; never below the stake for a valid game.
     */
    function CalcularGananciaPotencial(): (g: real)
      reads this, juego
      ensures juego == null ==> g == cantidadAPUNAB
      ensures juego != null ==> g == juego.CalcularGananciaPotencial(cantidadAPUNAB)
      ensures juego != null && juego.Valid() && cantidadAPUNAB >= 0.0 ==> g >= cantidadAPUNAB
    {
      Ledger.GananciaPotencial(cantidadAPUNAB, FactorDe(juego))
    }

    /** The balance of the bettor, 0 when there is none. */
    function SaldoEstudiante(): real
      reads this, estudiante
    {
      if estudiante == null then 0.0 else estudiante.saldoAPUNAB
    }

    /** getEstadoTexto: in progress until settled, then won or lost. */
    function GetEstadoTexto(): (t: string)
      reads this
      ensures t == "En progreso" <==> !finalizada
      ensures t == "Ganada" <==> finalizada && ganada
      ensures t == "Perdida" <==> finalizada && !ganada
    {
      if !finalizada then "En progreso" else if ganada then "Ganada" else "Perdida"
    }

    /** setCantidadAPUNAB: the stake as given (no clamp) and the potential payout recomputed from it. */
    method SetCantidadAPUNAB(cantidadAPUNAB: real)
      modifies this`cantidadAPUNAB, this`gananciaPotencial
      ensures this.cantidadAPUNAB == cantidadAPUNAB
      ensures gananciaPotencial == Ledger.GananciaPotencial(cantidadAPUNAB, FactorDe(juego))
    {
      this.cantidadAPUNAB := cantidadAPUNAB;
      gananciaPotencial := CalcularGananciaPotencial();
    }

    /** What the bets' file holds for this bet: the referenced objects by id. */
    function ToJson(): ApuestaDao.ApuestaJSON
      reads this
    {
      ApuestaDao.ApuestaJSON(id, IdDeUsuario(estudiante), IdDeLugar(lugar), IdDeJuego(juego), cantidadAPUNAB, fecha,
                             IdsApostadores(otrosApostadores), ganada, finalizada, gananciaPotencial, gananciaReal)
    }

    /** consultarApuesta: the stored copy of the bet when there is one, this bet otherwise. */
    function ConsultarApuesta(apuestas: ApuestaDao.ApuestaDAO): (r: ApuestaDao.ApuestaJSON)
      reads this, apuestas
      ensures r.id == id
      ensures apuestas.ExisteApuesta(id) ==> r in apuestas.archivo
      ensures !apuestas.ExisteApuesta(id) ==> r == ToJson()
    {
      var guardada := apuestas.BuscarPorId(id);
      if guardada.Some? then guardada.value else ToJson()
    }

    /**
     * crearApuesta: nothing happens for a missing bettor, venue or game, a
     * non-positive stake or a stake above the balance. Otherwise the bet takes
     * its values, the stake is debited, the bet joins the bettor's history
     * and is saved; a failed save credits the stake back but keeps the
     * history entry.
     */
    method CrearApuesta(estudiante: Usuario?, lugar: Lugar?, juego: Juegos.Juego?, cantidadAPUNAB: real,
                        otrosApostadores: Option<seq<Usuario?>>, ahora: int,
                        usuarios: UsuarioDao.UsuarioDAO, apuestas: ApuestaDao.ApuestaDAO) returns (r: Outcome<bool>)
      modifies this, Unico(estudiante)`saldoAPUNAB, Unico(estudiante)`historialApuestas, usuarios, apuestas
      ensures !old(PuedeApostar(estudiante, lugar, juego, cantidadAPUNAB)) ==>
                r == Ok(false) && unchanged(this) && unchanged(Unico(estudiante)) &&
                usuarios.archivo == old(usuarios.archivo) && apuestas.archivo == old(apuestas.archivo)
      ensures old(PuedeApostar(estudiante, lugar, juego, cantidadAPUNAB)) ==>
                this.estudiante == estudiante && this.lugar == lugar && this.juego == juego &&
                this.cantidadAPUNAB == cantidadAPUNAB && fecha == ahora &&
                this.otrosApostadores == (if otrosApostadores.Some? then otrosApostadores.value else old(this.otrosApostadores)) &&
                gananciaPotencial == CalcularGananciaPotencial() &&
                ganada == old(ganada) && finalizada == old(finalizada) && gananciaReal == old(gananciaReal)
      ensures r == Ok(true) ==>
                estudiante != null &&
                estudiante.saldoAPUNAB == old(estudiante.saldoAPUNAB) - cantidadAPUNAB &&
                estudiante.historialApuestas == old(estudiante.historialApuestas) + [this] &&
                apuestas.archivo == old(apuestas.archivo) + [ToJson()] &&
                apuestas.BuscarPorId(id) == Some(ToJson())
      ensures r == Ok(false) && old(PuedeApostar(estudiante, lugar, juego, cantidadAPUNAB)) ==>
                estudiante != null &&
                estudiante.saldoAPUNAB == old(estudiante.saldoAPUNAB) &&
                estudiante.historialApuestas == old(estudiante.historialApuestas) + [this] &&
                apuestas.archivo == old(apuestas.archivo)
      ensures r.Thrown? ==>
                estudiante != null && r.error == PersistenciaException &&
                apuestas.archivo == old(apuestas.archivo) &&
                ((estudiante.saldoAPUNAB == old(estudiante.saldoAPUNAB) - cantidadAPUNAB &&
                  estudiante.historialApuestas == old(estudiante.historialApuestas)) ||
                 (estudiante.saldoAPUNAB == old(estudiante.saldoAPUNAB) &&
                  estudiante.historialApuestas == old(estudiante.historialApuestas) + [this]))
      ensures ApuestaDao.ExisteId(old(apuestas.archivo), id) ==> r != Ok(true)
      ensures estudiante != null ==> UsuarioDao.SoloRegistroDe(old(usuarios.archivo), usuarios.archivo, estudiante.id)
    {
      if !PuedeApostar(estudiante, lugar, juego, cantidadAPUNAB) {
        return Ok(false);
      }
      this.estudiante := estudiante;
      this.lugar := lugar;
      this.juego := juego;
      this.cantidadAPUNAB := cantidadAPUNAB;
      fecha := ahora;
      if otrosApostadores.Some? {
        this.otrosApostadores := otrosApostadores.value;
      }
      gananciaPotencial := CalcularGananciaPotencial();
      r := Colocar(estudiante, usuarios, apuestas);
    }

    /**
     * The second half of crearApuesta, once the bet holds its values: debit
     * the stake, add the bet to the bettor's history, save it, and credit the
     * stake back when the save throws.
     */
    method Colocar(estudiante: Usuario, usuarios: UsuarioDao.UsuarioDAO, apuestas: ApuestaDao.ApuestaDAO) returns (r: Outcome<bool>)
      requires 0.0 < cantidadAPUNAB <= estudiante.saldoAPUNAB
      modifies estudiante`saldoAPUNAB, estudiante`historialApuestas, usuarios, apuestas
      ensures r == Ok(true) ==>
                estudiante.saldoAPUNAB == old(estudiante.saldoAPUNAB) - cantidadAPUNAB &&
                estudiante.historialApuestas == old(estudiante.historialApuestas) + [this] &&
                apuestas.archivo == old(apuestas.archivo) + [ToJson()] &&
                apuestas.BuscarPorId(id) == Some(ToJson())
      ensures r == Ok(false) ==>
                estudiante.saldoAPUNAB == old(estudiante.saldoAPUNAB) &&
                estudiante.historialApuestas == old(estudiante.historialApuestas) + [this] &&
                apuestas.archivo == old(apuestas.archivo)
      ensures r.Thrown? ==>
                r.error == PersistenciaException && apuestas.archivo == old(apuestas.archivo) &&
                ((estudiante.saldoAPUNAB == old(estudiante.saldoAPUNAB) - cantidadAPUNAB &&
                  estudiante.historialApuestas == old(estudiante.historialApuestas)) ||
                 (estudiante.saldoAPUNAB == old(estudiante.saldoAPUNAB) &&
                  estudiante.historialApuestas == old(estudiante.historialApuestas) + [this]))
      ensures ApuestaDao.ExisteId(old(apuestas.archivo), id) ==> r != Ok(true)
      ensures UsuarioDao.SoloRegistroDe(old(usuarios.archivo), usuarios.archivo, estudiante.id)
    {
      var debito := estudiante.ActualizarSaldo(-cantidadAPUNAB, usuarios);
      if debito.Thrown? {
        return Thrown(debito.error);
      }
      ghost var trasDebito := usuarios.archivo;
      estudiante.AgregarApuesta(this);
      var antes := apuestas.archivo;
      var guardado := apuestas.GuardarApuesta(ToJson());
      if guardado.Thrown? {
        var reintegro := estudiante.ActualizarSaldo(cantidadAPUNAB, usuarios);
        UsuarioDao.SoloRegistroDeTransitivo(old(usuarios.archivo), trasDebito, usuarios.archivo, estudiante.id);
        if reintegro.Thrown? {
          return Thrown(reintegro.error);
        }
        return Ok(false);
      }
      assert guardado.value by {
        assert guardado != Ok(false);
      }
      apuestas.GuardadaSeEncuentra(antes, ToJson());
      return Ok(true);
    }

    /**
     * The stake step of actualizarApuesta: an increase the balance covers is
     * debited, a decrease to a positive stake is credited, anything else
     * leaves the stake alone. The balance write happens before the stake
     * changes, so a throwing write leaves the balance moved and the stake as
     * it was.
     */
    method CambiarCantidad(cantidad: real, usuarios: UsuarioDao.UsuarioDAO) returns (r: Outcome<bool>)
      requires estudiante != null
      modifies this`cantidadAPUNAB, this`gananciaPotencial, estudiante`saldoAPUNAB, usuarios
      ensures estudiante.saldoAPUNAB == Ledger.SaldoTrasCambio(old(cantidadAPUNAB), cantidad, old(estudiante.saldoAPUNAB))
      ensures r.Ok? ==> cantidadAPUNAB == Ledger.Aplicada(old(cantidadAPUNAB), cantidad, old(estudiante.saldoAPUNAB))
      ensures r.Ok? ==> (r.value <==> cantidadAPUNAB != old(cantidadAPUNAB))
      ensures Ledger.Aplicada(old(cantidadAPUNAB), cantidad, old(estudiante.saldoAPUNAB)) == old(cantidadAPUNAB) ==> r == Ok(false)
      ensures r == Ok(true) ==> gananciaPotencial == CalcularGananciaPotencial()
      ensures r != Ok(true) ==> cantidadAPUNAB == old(cantidadAPUNAB) && gananciaPotencial == old(gananciaPotencial)
      ensures r.Thrown? ==> r.error == PersistenciaException && usuarios.archivo == old(usuarios.archivo)
      ensures r == Ok(false) ==> usuarios.archivo == old(usuarios.archivo)
      ensures UsuarioDao.SoloRegistroDe(old(usuarios.archivo), usuarios.archivo, estudiante.id)
    {
      if cantidad > cantidadAPUNAB {
        var diferencia := cantidad - cantidadAPUNAB;
        if estudiante.saldoAPUNAB >= diferencia {
          var x := estudiante.ActualizarSaldo(-diferencia, usuarios);
          if x.Thrown? {
            return Thrown(x.error);
          }
          cantidadAPUNAB := cantidad;
          gananciaPotencial := CalcularGananciaPotencial();
          return Ok(true);
        }
      } else if cantidad < cantidadAPUNAB && cantidad > 0.0 {
        var diferencia := cantidadAPUNAB - cantidad;
        var x := estudiante.ActualizarSaldo(diferencia, usuarios);
        if x.Thrown? {
          return Thrown(x.error);
        }
        cantidadAPUNAB := cantidad;
        gananciaPotencial := CalcularGananciaPotencial();
        return Ok(true);
      }
      return Ok(false);
    }

    /**
     * One compensation after a failed store write, guarded as the source
     * guards it: when the requested stake differs from the old one, the
     * balance is moved by `diferencia`, then the old stake and its payout come
     * back. A throwing balance write leaves the stake as it is.
     */
    method Revertir(cantidad: real, anterior: real, diferencia: real, usuarios: UsuarioDao.UsuarioDAO) returns (r: Outcome<()>)
      requires estudiante != null
      modifies this`cantidadAPUNAB, this`gananciaPotencial, estudiante`saldoAPUNAB, usuarios
      ensures cantidad == anterior ==>
                r.Ok? && cantidadAPUNAB == old(cantidadAPUNAB) && gananciaPotencial == old(gananciaPotencial) &&
                estudiante.saldoAPUNAB == old(estudiante.saldoAPUNAB) && usuarios.archivo == old(usuarios.archivo)
      ensures cantidad != anterior ==> estudiante.saldoAPUNAB == Ledger.NuevoSaldo(old(estudiante.saldoAPUNAB), diferencia)
      ensures cantidad != anterior && r.Ok? ==> cantidadAPUNAB == anterior && gananciaPotencial == CalcularGananciaPotencial()
      ensures r.Thrown? ==>
                r.error == PersistenciaException && usuarios.archivo == old(usuarios.archivo) &&
                cantidadAPUNAB == old(cantidadAPUNAB) && gananciaPotencial == old(gananciaPotencial)
      ensures UsuarioDao.SoloRegistroDe(old(usuarios.archivo), usuarios.archivo, estudiante.id)
    {
      if cantidad != anterior {
        var x := estudiante.ActualizarSaldo(diferencia, usuarios);
        if x.Thrown? {
          return Thrown(x.error);
        }
        cantidadAPUNAB := anterior;
        gananciaPotencial := CalcularGananciaPotencial();
      }
      return Ok(());
    }

    /**
     * The store write of actualizarApuesta with its compensation as written:
     * the compensation moves the balance by `anterior - cantidadAPUNAB`; when
     * the store answers false it runs inside the try block, and if it throws
     * there the catch block runs it a second time; when the store throws it
     * runs once, from the catch block.
     */
    method PersistirCambio(cantidad: real, anterior: real, usuarios: UsuarioDao.UsuarioDAO, apuestas: ApuestaDao.ApuestaDAO)
      returns (r: Outcome<bool>)
      requires estudiante != null
      modifies this`cantidadAPUNAB, this`gananciaPotencial, estudiante`saldoAPUNAB, usuarios, apuestas
      ensures r == Ok(true) ==>
                cantidadAPUNAB == old(cantidadAPUNAB) && gananciaPotencial == old(gananciaPotencial) &&
                estudiante.saldoAPUNAB == old(estudiante.saldoAPUNAB) && usuarios.archivo == old(usuarios.archivo) &&
                apuestas.archivo == Lists.ReplaceFirst(old(apuestas.archivo), ApuestaDao.ConId(id), ToJson())
      ensures r != Ok(true) ==> apuestas.archivo == old(apuestas.archivo)
      ensures r == Ok(false) && cantidad != anterior ==>
                cantidadAPUNAB == anterior && gananciaPotencial == CalcularGananciaPotencial()
      ensures r == Ok(false) && cantidad == anterior ==>
                cantidadAPUNAB == old(cantidadAPUNAB) && gananciaPotencial == old(gananciaPotencial) &&
                estudiante.saldoAPUNAB == old(estudiante.saldoAPUNAB)
      ensures r.Thrown? ==>
                r.error == PersistenciaException && cantidad != anterior &&
                cantidadAPUNAB == old(cantidadAPUNAB) && gananciaPotencial == old(gananciaPotencial)
      ensures cantidad != anterior && r != Ok(true) ==>
                var una := Ledger.NuevoSaldo(old(estudiante.saldoAPUNAB), anterior - old(cantidadAPUNAB));
                estudiante.saldoAPUNAB == una || estudiante.saldoAPUNAB == Ledger.NuevoSaldo(una, anterior - old(cantidadAPUNAB))
      ensures UsuarioDao.SoloRegistroDe(old(usuarios.archivo), usuarios.archivo, estudiante.id)
    {
      var w := apuestas.ActualizarApuesta(ToJson());
      if w == Ok(true) {
        return Ok(true);
      }
      ghost var antes := usuarios.archivo;
      if w == Ok(false) {
        var x := Revertir(cantidad, anterior, anterior - cantidadAPUNAB, usuarios);
        if x.Ok? {
          return Ok(false);
        }
      }
      ghost var medio := usuarios.archivo;
      var y := Revertir(cantidad, anterior, anterior - cantidadAPUNAB, usuarios);
      UsuarioDao.SoloRegistroDeTransitivo(antes, medio, usuarios.archivo, estudiante.id);
      if y.Thrown? {
        return Thrown(y.error);
      }
      return Ok(false);
    }

    /**
     * actualizarApuesta as written. A settled bet is left alone. Otherwise the
     * stake step runs, a given co-bettor list replaces the old one, and a call
     * that changed neither answers false. A changed bet is written to the
     * store; when the write does not succeed the stake and its payout come
     * back but the co-bettor list does not, and the balance compensation has
     * the sign of the original move, so the balance moves a second time (a
     * third time when the compensation throws after a refused write) instead
     * of coming back.
     */
    method ActualizarApuesta(cantidad: real, otrosApostadores: Option<seq<Usuario?>>,
                             usuarios: UsuarioDao.UsuarioDAO, apuestas: ApuestaDao.ApuestaDAO) returns (r: Outcome<bool>)
      requires !finalizada ==> estudiante != null
      modifies this`cantidadAPUNAB, this`gananciaPotencial, this`otrosApostadores, Unico(estudiante)`saldoAPUNAB
      modifies usuarios, apuestas
      ensures old(finalizada) ==>
                r == Ok(false) && cantidadAPUNAB == old(cantidadAPUNAB) && gananciaPotencial == old(gananciaPotencial) &&
                this.otrosApostadores == old(this.otrosApostadores) && SaldoEstudiante() == old(SaldoEstudiante()) &&
                usuarios.archivo == old(usuarios.archivo) && apuestas.archivo == old(apuestas.archivo)
      ensures !old(finalizada) && r == Ok(true) ==>
                cantidadAPUNAB == Ledger.Aplicada(old(cantidadAPUNAB), cantidad, old(SaldoEstudiante())) &&
                gananciaPotencial == (if cantidadAPUNAB != old(cantidadAPUNAB) then CalcularGananciaPotencial()
                                      else old(gananciaPotencial)) &&
                SaldoEstudiante() == Ledger.SaldoTrasCambio(old(cantidadAPUNAB), cantidad, old(SaldoEstudiante())) &&
                this.otrosApostadores == (if otrosApostadores.Some? then otrosApostadores.value else old(this.otrosApostadores)) &&
                apuestas.archivo == Lists.ReplaceFirst(old(apuestas.archivo), ApuestaDao.ConId(id), ToJson())
      ensures !old(finalizada) && Ledger.Aplicada(old(cantidadAPUNAB), cantidad, old(SaldoEstudiante())) == old(cantidadAPUNAB) &&
              otrosApostadores.None? ==>
                r == Ok(false) && cantidadAPUNAB == old(cantidadAPUNAB) && gananciaPotencial == old(gananciaPotencial) &&
                this.otrosApostadores == old(this.otrosApostadores) && SaldoEstudiante() == old(SaldoEstudiante()) &&
                usuarios.archivo == old(usuarios.archivo) && apuestas.archivo == old(apuestas.archivo)
      ensures !old(finalizada) && r == Ok(false) ==>
                cantidadAPUNAB == old(cantidadAPUNAB) && apuestas.archivo == old(apuestas.archivo) &&
                this.otrosApostadores == (if otrosApostadores.Some? then otrosApostadores.value else old(this.otrosApostadores))
      ensures !old(finalizada) && r == Ok(false) && cantidad != old(cantidadAPUNAB) &&
              (Ledger.Aplicada(old(cantidadAPUNAB), cantidad, old(SaldoEstudiante())) != old(cantidadAPUNAB) ||
               otrosApostadores.Some?) ==>
                gananciaPotencial == CalcularGananciaPotencial() &&
                var una := Ledger.SaldoTrasReversion(old(cantidadAPUNAB), cantidad, old(SaldoEstudiante()));
                var aplicada := Ledger.Aplicada(old(cantidadAPUNAB), cantidad, old(SaldoEstudiante()));
                SaldoEstudiante() == una || SaldoEstudiante() == Ledger.NuevoSaldo(una, old(cantidadAPUNAB) - aplicada)
      ensures !old(finalizada) && r == Ok(false) && cantidad == old(cantidadAPUNAB) ==>
                gananciaPotencial == old(gananciaPotencial) && SaldoEstudiante() == old(SaldoEstudiante())
      ensures !old(finalizada) && r == Ok(false) && old(SaldoEstudiante()) >= 0.0 &&
              Ledger.Aplicada(old(cantidadAPUNAB), cantidad, old(SaldoEstudiante())) != old(cantidadAPUNAB) ==>
                SaldoEstudiante() != old(SaldoEstudiante())
      ensures r.Thrown? ==> r.error == PersistenciaException && apuestas.archivo == old(apuestas.archivo)
      ensures estudiante != null ==> UsuarioDao.SoloRegistroDe(old(usuarios.archivo), usuarios.archivo, estudiante.id)
      ensures estudiante == null ==> usuarios.archivo == old(usuarios.archivo)
    {
      if finalizada {
        return Ok(false);
      }
      var anterior := cantidadAPUNAB;
      var paso := CambiarCantidad(cantidad, usuarios);
      if paso.Thrown? {
        return Thrown(paso.error);
      }
      var actualizado := paso.value;
      if otrosApostadores.Some? {
        this.otrosApostadores := otrosApostadores.value;
        actualizado := true;
      }
      if !actualizado {
        return Ok(false);
      }
      ghost var trasPaso := usuarios.archivo;
      r := PersistirCambio(cantidad, anterior, usuarios, apuestas);
      UsuarioDao.SoloRegistroDeTransitivo(old(usuarios.archivo), trasPaso, usuarios.archivo, estudiante.id);
      if old(estudiante.saldoAPUNAB) >= 0.0 && cantidadAPUNAB == anterior && paso.value {
        Ledger.ReversionNoRestaura(anterior, cantidad, old(estudiante.saldoAPUNAB));
        Ledger.ReversionDobleNoRestaura(anterior, cantidad, old(estudiante.saldoAPUNAB));
      }
    }

    /**
     * actualizarApuesta with the compensation the source evidently intends:
     * the balance moves back by the applied stake difference, once, and a
     * throw while compensating reaches the caller. An update that is not
     * stored leaves the balance, the stake and the store where they were.
     */
    method ActualizarApuestaCorregida(cantidad: real, otrosApostadores: Option<seq<Usuario?>>,
                                      usuarios: UsuarioDao.UsuarioDAO, apuestas: ApuestaDao.ApuestaDAO)
      returns (r: Outcome<bool>)
      requires !finalizada ==> estudiante != null
      modifies this`cantidadAPUNAB, this`gananciaPotencial, this`otrosApostadores, Unico(estudiante)`saldoAPUNAB
      modifies usuarios, apuestas
      ensures old(finalizada) ==>
                r == Ok(false) && cantidadAPUNAB == old(cantidadAPUNAB) && gananciaPotencial == old(gananciaPotencial) &&
                this.otrosApostadores == old(this.otrosApostadores) && SaldoEstudiante() == old(SaldoEstudiante()) &&
                usuarios.archivo == old(usuarios.archivo) && apuestas.archivo == old(apuestas.archivo)
      ensures !old(finalizada) && r == Ok(true) ==>
                cantidadAPUNAB == Ledger.Aplicada(old(cantidadAPUNAB), cantidad, old(SaldoEstudiante())) &&
                gananciaPotencial == (if cantidadAPUNAB != old(cantidadAPUNAB) then CalcularGananciaPotencial()
                                      else old(gananciaPotencial)) &&
                SaldoEstudiante() == Ledger.SaldoTrasCambio(old(cantidadAPUNAB), cantidad, old(SaldoEstudiante())) &&
                this.otrosApostadores == (if otrosApostadores.Some? then otrosApostadores.value else old(this.otrosApostadores)) &&
                apuestas.archivo == Lists.ReplaceFirst(old(apuestas.archivo), ApuestaDao.ConId(id), ToJson())
      ensures !old(finalizada) && r == Ok(false) ==>
                cantidadAPUNAB == old(cantidadAPUNAB) && apuestas.archivo == old(apuestas.archivo)
      ensures !old(finalizada) && r == Ok(false) && old(SaldoEstudiante()) >= 0.0 ==>
                SaldoEstudiante() == old(SaldoEstudiante())
      ensures r.Thrown? ==> r.error == PersistenciaException && apuestas.archivo == old(apuestas.archivo)
      ensures estudiante != null ==> UsuarioDao.SoloRegistroDe(old(usuarios.archivo), usuarios.archivo, estudiante.id)
    {
      if finalizada {
        return Ok(false);
      }
      var anterior := cantidadAPUNAB;
      ghost var saldo := estudiante.saldoAPUNAB;
      var paso := CambiarCantidad(cantidad, usuarios);
      if paso.Thrown? {
        return Thrown(paso.error);
      }
      var actualizado := paso.value;
      if otrosApostadores.Some? {
        this.otrosApostadores := otrosApostadores.value;
        actualizado := true;
      }
      if !actualizado {
        return Ok(false);
      }
      var w := apuestas.ActualizarApuesta(ToJson());
      if w == Ok(true) {
        return Ok(true);
      }
      ghost var trasPaso := usuarios.archivo;
      var x := Revertir(cantidad, anterior, cantidadAPUNAB - anterior, usuarios);
      UsuarioDao.SoloRegistroDeTransitivo(old(usuarios.archivo), trasPaso, usuarios.archivo, estudiante.id);
      if x.Thrown? {
        return Thrown(x.error);
      }
      if saldo >= 0.0 {
        Ledger.ReversionCorregidaRestaura(anterior, cantidad, saldo);
      }
      return Ok(false);
    }

    /**
     * eliminarApuesta: a settled bet stays. Otherwise the stake is credited
     * back and the bet is deleted from the store; when the delete does not
     * happen the stake is debited again, and when that re-debit throws after
     * the store refused, the catch block debits it once more.
     */
    method EliminarApuesta(usuarios: UsuarioDao.UsuarioDAO, apuestas: ApuestaDao.ApuestaDAO) returns (r: Outcome<bool>)
      requires !finalizada ==> estudiante != null
      modifies Unico(estudiante)`saldoAPUNAB, usuarios, apuestas
      ensures old(finalizada) ==>
                r == Ok(false) && SaldoEstudiante() == old(SaldoEstudiante()) &&
                usuarios.archivo == old(usuarios.archivo) && apuestas.archivo == old(apuestas.archivo)
      ensures r == Ok(true) ==>
                !old(finalizada) && SaldoEstudiante() == Ledger.NuevoSaldo(old(SaldoEstudiante()), cantidadAPUNAB) &&
                apuestas.archivo == Lists.RemoveAll(old(apuestas.archivo), ApuestaDao.ConId(id)) &&
                !ApuestaDao.ExisteId(apuestas.archivo, id)
      ensures !old(finalizada) && r == Ok(false) ==>
                apuestas.archivo == old(apuestas.archivo) &&
                var una := Ledger.NuevoSaldo(Ledger.NuevoSaldo(old(SaldoEstudiante()), cantidadAPUNAB), -cantidadAPUNAB);
                SaldoEstudiante() == una || SaldoEstudiante() == Ledger.NuevoSaldo(una, -cantidadAPUNAB)
      ensures !old(finalizada) && r == Ok(false) && old(SaldoEstudiante()) >= 0.0 && cantidadAPUNAB >= 0.0 ==>
                SaldoEstudiante() == old(SaldoEstudiante()) ||
                SaldoEstudiante() == Ledger.NuevoSaldo(old(SaldoEstudiante()), -cantidadAPUNAB)
      ensures r.Thrown? ==> r.error == PersistenciaException && apuestas.archivo == old(apuestas.archivo)
      ensures !ApuestaDao.ExisteId(old(apuestas.archivo), id) ==> r != Ok(true)
      ensures estudiante != null ==> UsuarioDao.SoloRegistroDe(old(usuarios.archivo), usuarios.archivo, estudiante.id)
    {
      if finalizada {
        return Ok(false);
      }
      var reintegro := estudiante.ActualizarSaldo(cantidadAPUNAB, usuarios);
      if reintegro.Thrown? {
        return Thrown(reintegro.error);
      }
      ghost var trasReintegro := usuarios.archivo;
      var eliminado := apuestas.EliminarApuesta(id);
      if eliminado == Ok(true) {
        return Ok(true);
      }
      r := DebitarDeNuevo(eliminado, usuarios);
      UsuarioDao.SoloRegistroDeTransitivo(old(usuarios.archivo), trasReintegro, usuarios.archivo, estudiante.id);
      if old(SaldoEstudiante()) >= 0.0 && cantidadAPUNAB >= 0.0 {
        Ledger.ReintegroYDebito(old(SaldoEstudiante()), cantidadAPUNAB);
      }
    }

    /**
     * The compensation of eliminarApuesta once the delete did not happen:
     * the stake is debited again; when the store refused the delete and that
     * debit throws, the catch block debits it once more.
     */
    method DebitarDeNuevo(eliminado: Outcome<bool>, usuarios: UsuarioDao.UsuarioDAO) returns (r: Outcome<bool>)
      requires estudiante != null && eliminado != Ok(true)
      modifies Unico(estudiante)`saldoAPUNAB, usuarios
      ensures r.Ok? ==> r == Ok(false)
      ensures r == Ok(false) ==>
                var una := Ledger.NuevoSaldo(old(SaldoEstudiante()), -cantidadAPUNAB);
                SaldoEstudiante() == una || SaldoEstudiante() == Ledger.NuevoSaldo(una, -cantidadAPUNAB)
      ensures r.Thrown? ==> r.error == PersistenciaException
      ensures UsuarioDao.SoloRegistroDe(old(usuarios.archivo), usuarios.archivo, estudiante.id)
    {
      ghost var antes := usuarios.archivo;
      if eliminado == Ok(false) {
        var debito := estudiante.ActualizarSaldo(-cantidadAPUNAB, usuarios);
        if debito.Ok? {
          return Ok(false);
        }
      }
      ghost var medio := usuarios.archivo;
      var otraVez := estudiante.ActualizarSaldo(-cantidadAPUNAB, usuarios);
      UsuarioDao.SoloRegistroDeTransitivo(antes, medio, usuarios.archivo, estudiante.id);
      if otraVez.Thrown? {
        return Thrown(otraVez.error);
      }
      return Ok(false);
    }

    /**
     * The first half of finalizarApuesta: the bet is marked settled with the
     * given result; a won bet pays its potential payout into the balance.
     * The flags stay set when the balance write throws.
     */
    method Liquidar(ganada: bool, usuarios: UsuarioDao.UsuarioDAO) returns (r: Outcome<()>)
      requires ganada ==> estudiante != null
      modifies this`ganada, this`finalizada, this`gananciaReal, Unico(estudiante)`saldoAPUNAB, usuarios
      ensures this.ganada == ganada && finalizada
      ensures gananciaReal == if ganada then gananciaPotencial else 0.0
      ensures ganada ==> SaldoEstudiante() == Ledger.NuevoSaldo(old(SaldoEstudiante()), gananciaPotencial)
      ensures !ganada ==> r.Ok? && SaldoEstudiante() == old(SaldoEstudiante()) && usuarios.archivo == old(usuarios.archivo)
      ensures r.Thrown? ==> r.error == PersistenciaException && usuarios.archivo == old(usuarios.archivo)
      ensures estudiante != null ==> UsuarioDao.SoloRegistroDe(old(usuarios.archivo), usuarios.archivo, estudiante.id)
    {
      this.ganada := ganada;
      finalizada := true;
      if ganada {
        gananciaReal := gananciaPotencial;
        var x := estudiante.ActualizarSaldo(gananciaReal, usuarios);
        if x.Thrown? {
          return Thrown(x.error);
        }
      } else {
        gananciaReal := 0.0;
      }
      return Ok(());
    }

    /**
     * The rollback of finalizarApuesta: the flags are cleared, a won bet's
     * payout is taken back from the balance, and the actual payout returns to
     * 0 unless that balance write throws.
     */
    method DeshacerLiquidacion(ganada: bool, usuarios: UsuarioDao.UsuarioDAO) returns (r: Outcome<()>)
      requires ganada ==> estudiante != null
      modifies this`ganada, this`finalizada, this`gananciaReal, Unico(estudiante)`saldoAPUNAB, usuarios
      ensures !this.ganada && !finalizada
      ensures r.Ok? ==> gananciaReal == 0.0
      ensures ganada ==> SaldoEstudiante() == Ledger.NuevoSaldo(old(SaldoEstudiante()), -old(gananciaReal))
      ensures !ganada ==> r.Ok? && SaldoEstudiante() == old(SaldoEstudiante()) && usuarios.archivo == old(usuarios.archivo)
      ensures r.Thrown? ==>
                ganada && r.error == PersistenciaException && gananciaReal == old(gananciaReal) &&
                usuarios.archivo == old(usuarios.archivo)
      ensures estudiante != null ==> UsuarioDao.SoloRegistroDe(old(usuarios.archivo), usuarios.archivo, estudiante.id)
    {
      this.ganada := false;
      finalizada := false;
      if ganada {
        var x := estudiante.ActualizarSaldo(-gananciaReal, usuarios);
        if x.Thrown? {
          return Thrown(x.error);
        }
      }
      gananciaReal := 0.0;
      return Ok(());
    }

    /**
     * The second half of finalizarApuesta, given the store's answer: success
     * keeps the settlement; otherwise it is rolled back, from the try block
     * when the store answered false (and once more from the catch block if
     * that rollback throws), from the catch block when the store threw.
     */
    method ConcluirLiquidacion(ganada: bool, respuesta: Outcome<bool>, usuarios: UsuarioDao.UsuarioDAO) returns (r: Outcome<bool>)
      requires ganada ==> estudiante != null
      modifies this`ganada, this`finalizada, this`gananciaReal, Unico(estudiante)`saldoAPUNAB, usuarios
      ensures respuesta == Ok(true) ==>
                r == Ok(true) && this.ganada == old(this.ganada) && finalizada == old(finalizada) &&
                gananciaReal == old(gananciaReal) && SaldoEstudiante() == old(SaldoEstudiante()) &&
                usuarios.archivo == old(usuarios.archivo)
      ensures respuesta != Ok(true) ==> r != Ok(true) && !this.ganada && !finalizada
      ensures r == Ok(false) ==> gananciaReal == 0.0
      ensures ganada && respuesta != Ok(true) ==>
                var una := Ledger.NuevoSaldo(old(SaldoEstudiante()), -old(gananciaReal));
                SaldoEstudiante() == una || SaldoEstudiante() == Ledger.NuevoSaldo(una, -old(gananciaReal))
      ensures !ganada ==>
                r == (if respuesta == Ok(true) then Ok(true) else Ok(false)) &&
                SaldoEstudiante() == old(SaldoEstudiante()) && usuarios.archivo == old(usuarios.archivo)
      ensures r.Thrown? ==> ganada && r.error == PersistenciaException && gananciaReal == old(gananciaReal)
      ensures estudiante != null ==> UsuarioDao.SoloRegistroDe(old(usuarios.archivo), usuarios.archivo, estudiante.id)
    {
      if respuesta == Ok(true) {
        return Ok(true);
      }
      ghost var antes := usuarios.archivo;
      if respuesta == Ok(false) {
        var y := DeshacerLiquidacion(ganada, usuarios);
        if y.Ok? {
          return Ok(false);
        }
      }
      ghost var medio := usuarios.archivo;
      var z := DeshacerLiquidacion(ganada, usuarios);
      if estudiante != null {
        UsuarioDao.SoloRegistroDeTransitivo(antes, medio, usuarios.archivo, estudiante.id);
      }
      if z.Thrown? {
        return Thrown(z.error);
      }
      return Ok(false);
    }

    /**
     * finalizarApuesta with the bets' JSON file: a settled bet stays as it
     * is, so settling is one-way and a second call changes nothing.
     * Otherwise a won bet pays its potential payout, a lost one pays 0, and
     * the settled bet is written to the file; when that write does not
     * succeed the flags and the payout are reset and the credit is taken
     * back (twice when the first take-back throws after a refused write).
     */
    method FinalizarApuesta(ganada: bool, usuarios: UsuarioDao.UsuarioDAO, apuestas: ApuestaDao.ApuestaDAO)
      returns (r: Outcome<bool>)
      requires !finalizada && ganada ==> estudiante != null
      modifies this`ganada, this`finalizada, this`gananciaReal, Unico(estudiante)`saldoAPUNAB, usuarios, apuestas
      ensures old(finalizada) ==>
                r == Ok(false) && finalizada && this.ganada == old(this.ganada) && gananciaReal == old(gananciaReal) &&
                SaldoEstudiante() == old(SaldoEstudiante()) &&
                usuarios.archivo == old(usuarios.archivo) && apuestas.archivo == old(apuestas.archivo)
      ensures r == Ok(true) ==>
                !old(finalizada) && finalizada && this.ganada == ganada &&
                gananciaReal == (if ganada then gananciaPotencial else 0.0) &&
                SaldoEstudiante() == (if ganada then Ledger.NuevoSaldo(old(SaldoEstudiante()), gananciaPotencial)
                                      else old(SaldoEstudiante())) &&
                apuestas.archivo == Lists.ReplaceFirst(old(apuestas.archivo), ApuestaDao.ConId(id), ToJson())
      ensures !old(finalizada) && r == Ok(false) ==>
                !finalizada && !this.ganada && gananciaReal == 0.0 && apuestas.archivo == old(apuestas.archivo)
      ensures !old(finalizada) && r == Ok(false) && !ganada ==> SaldoEstudiante() == old(SaldoEstudiante())
      ensures !old(finalizada) && r == Ok(false) && ganada ==>
                var una := Ledger.NuevoSaldo(Ledger.NuevoSaldo(old(SaldoEstudiante()), gananciaPotencial), -gananciaPotencial);
                SaldoEstudiante() == una || SaldoEstudiante() == Ledger.NuevoSaldo(una, -gananciaPotencial)
      ensures r.Thrown? ==>
                ganada && gananciaReal == gananciaPotencial && r.error == PersistenciaException &&
                apuestas.archivo == old(apuestas.archivo)
      ensures !old(finalizada) && !ApuestaDao.ExisteId(old(apuestas.archivo), id) ==> r != Ok(true)
      ensures estudiante != null ==> UsuarioDao.SoloRegistroDe(old(usuarios.archivo), usuarios.archivo, estudiante.id)
    {
      if finalizada {
        return Ok(false);
      }
      var liquidada := Liquidar(ganada, usuarios);
      if liquidada.Thrown? {
        return Thrown(liquidada.error);
      }
      ghost var trasLiquidar := usuarios.archivo;
      var respuesta := apuestas.ActualizarApuesta(ToJson());
      r := ConcluirLiquidacion(ganada, respuesta, usuarios);
      if estudiante != null {
        UsuarioDao.SoloRegistroDeTransitivo(old(usuarios.archivo), trasLiquidar, usuarios.archivo, estudiante.id);
      }
    }

    /**
     * finalizarApuesta of the database-backed copy: the same settlement and
     * rollback, with the store's dedicated finalize operation, whose answer
     * is `respuesta`.
     */
    method FinalizarApuestaEnBD(ganada: bool, respuesta: Outcome<bool>, usuarios: UsuarioDao.UsuarioDAO)
      returns (r: Outcome<bool>)
      requires !finalizada && ganada ==> estudiante != null
      modifies this`ganada, this`finalizada, this`gananciaReal, Unico(estudiante)`saldoAPUNAB, usuarios
      ensures old(finalizada) ==>
                r == Ok(false) && finalizada && this.ganada == old(this.ganada) && gananciaReal == old(gananciaReal) &&
                SaldoEstudiante() == old(SaldoEstudiante()) && usuarios.archivo == old(usuarios.archivo)
      ensures r == Ok(true) ==>
                !old(finalizada) && respuesta == Ok(true) && finalizada && this.ganada == ganada &&
                gananciaReal == (if ganada then gananciaPotencial else 0.0) &&
                SaldoEstudiante() == (if ganada then Ledger.NuevoSaldo(old(SaldoEstudiante()), gananciaPotencial)
                                      else old(SaldoEstudiante()))
      ensures !old(finalizada) && respuesta == Ok(true) && !ganada ==> r == Ok(true)
      ensures !old(finalizada) && r == Ok(false) ==> !finalizada && !this.ganada && gananciaReal == 0.0
      ensures !old(finalizada) && r == Ok(false) && !ganada ==> SaldoEstudiante() == old(SaldoEstudiante())
      ensures !old(finalizada) && r == Ok(false) && ganada ==>
                var una := Ledger.NuevoSaldo(Ledger.NuevoSaldo(old(SaldoEstudiante()), gananciaPotencial), -gananciaPotencial);
                SaldoEstudiante() == una || SaldoEstudiante() == Ledger.NuevoSaldo(una, -gananciaPotencial)
      ensures r.Thrown? ==> ganada && gananciaReal == gananciaPotencial && r.error == PersistenciaException
      ensures estudiante != null ==> UsuarioDao.SoloRegistroDe(old(usuarios.archivo), usuarios.archivo, estudiante.id)
    {
      if finalizada {
        return Ok(false);
      }
      var liquidada := Liquidar(ganada, usuarios);
      if liquidada.Thrown? {
        return Thrown(liquidada.error);
      }
      ghost var trasLiquidar := usuarios.archivo;
      r := ConcluirLiquidacion(ganada, respuesta, usuarios);
      if estudiante != null {
        UsuarioDao.SoloRegistroDeTransitivo(old(usuarios.archivo), trasLiquidar, usuarios.archivo, estudiante.id);
      }
    }

    /**
     * agregarApostador: a co-bettor is added only when present, not in the
     * list by id and not the bettor object itself; the updated bet is
     * written to the store. Only a throwing write takes the co-bettor out
     * again; a refused write keeps the addition and answers false.
     */
    method AgregarApostador(apostador: Usuario?, apuestas: ApuestaDao.ApuestaDAO) returns (ok: bool)
      modifies this`otrosApostadores, apuestas
      ensures !(apostador != null && !old(Lists.Any(otrosApostadores, ApostadorConId(apostador.id))) && apostador != estudiante) ==>
                !ok && otrosApostadores == old(otrosApostadores) && apuestas.archivo == old(apuestas.archivo)
      ensures ok ==>
                apostador != null && otrosApostadores == old(otrosApostadores) + [apostador] &&
                apuestas.archivo == Lists.ReplaceFirst(old(apuestas.archivo), ApuestaDao.ConId(id), ToJson())
      ensures apostador != null && !old(Lists.Any(otrosApostadores, ApostadorConId(apostador.id))) && apostador != estudiante &&
              !ApuestaDao.ExisteId(old(apuestas.archivo), id) ==>
                !ok && otrosApostadores == old(otrosApostadores) + [apostador] && apuestas.archivo == old(apuestas.archivo)
      ensures !ok ==> apuestas.archivo == old(apuestas.archivo)
      ensures !ok ==> otrosApostadores == old(otrosApostadores) || otrosApostadores == old(otrosApostadores) + [apostador]
      ensures old(ApostadoresDistintos(otrosApostadores)) ==> ApostadoresDistintos(otrosApostadores)
      ensures old(null !in otrosApostadores) ==> null !in otrosApostadores
      ensures old(estudiante !in otrosApostadores) ==> estudiante !in otrosApostadores
    {
      if apostador != null && !Lists.Any(otrosApostadores, ApostadorConId(apostador.id)) && apostador != estudiante {
        var antes := otrosApostadores;
        if ApostadoresDistintos(antes) {
          AgregarApostadorDistinto(antes, apostador);
        }
        otrosApostadores := otrosApostadores + [apostador];
        var w := apuestas.ActualizarApuesta(ToJson());
        if w.Thrown? {
          Lists.QuitarAgregado(antes, apostador, ApostadorConId(apostador.id));
          otrosApostadores := Lists.RemoveFirst(otrosApostadores, ApostadorConId(apostador.id));
          return false;
        }
        return w.value;
      }
      return false;
    }

    /**
     * eliminarApostador: a co-bettor in the list (by id) is taken out and the
     * updated bet is written to the store. Only a throwing write puts the
     * co-bettor back, at the end of the list; a refused write keeps the
     * removal and answers false.
     */
    method EliminarApostador(apostador: Usuario?, apuestas: ApuestaDao.ApuestaDAO) returns (ok: bool)
      modifies this`otrosApostadores, apuestas
      ensures !(apostador != null && old(Lists.Any(otrosApostadores, ApostadorConId(apostador.id)))) ==>
                !ok && otrosApostadores == old(otrosApostadores) && apuestas.archivo == old(apuestas.archivo)
      ensures ok ==>
                apostador != null &&
                otrosApostadores == Lists.RemoveFirst(old(otrosApostadores), ApostadorConId(apostador.id)) &&
                apuestas.archivo == Lists.ReplaceFirst(old(apuestas.archivo), ApuestaDao.ConId(id), ToJson())
      ensures apostador != null && old(Lists.Any(otrosApostadores, ApostadorConId(apostador.id))) &&
              !ApuestaDao.ExisteId(old(apuestas.archivo), id) ==>
                !ok && otrosApostadores == Lists.RemoveFirst(old(otrosApostadores), ApostadorConId(apostador.id)) &&
                apuestas.archivo == old(apuestas.archivo)
      ensures !ok ==> apuestas.archivo == old(apuestas.archivo)
      ensures !ok && apostador != null ==>
                otrosApostadores == old(otrosApostadores) ||
                otrosApostadores == Lists.RemoveFirst(old(otrosApostadores), ApostadorConId(apostador.id)) ||
                otrosApostadores == Lists.RemoveFirst(old(otrosApostadores), ApostadorConId(apostador.id)) + [apostador]
      ensures old(ApostadoresDistintos(otrosApostadores)) ==> ApostadoresDistintos(otrosApostadores)
      ensures old(ApostadoresDistintos(otrosApostadores)) && apostador != null && ok ==>
                !Lists.Any(otrosApostadores, ApostadorConId(apostador.id))
    {
      if apostador != null && Lists.Any(otrosApostadores, ApostadorConId(apostador.id)) {
        var antes := otrosApostadores;
        otrosApostadores := Lists.RemoveFirst(otrosApostadores, ApostadorConId(apostador.id));
        if ApostadoresDistintos(antes) {
          QuitarApostador(antes, apostador.id);
        }
        var w := apuestas.ActualizarApuesta(ToJson());
        if w.Thrown? {
          if ApostadoresDistintos(antes) {
            AgregarApostadorDistinto(otrosApostadores, apostador);
          }
          otrosApostadores := otrosApostadores + [apostador];
          return false;
        }
        return w.value;
      }
      return false;
    }
  }
}
