/**
 * The account rules of Usuario.registrarse and Usuario.cambiarContraseña:
 * the password format, the e-mail pattern, the institutional domain, and the
 * order in which registration rejects its input. Character classes are
 * ASCII.
 */
module Cuenta {
  import opened Common
  import opened Strings
  import Lists

  predicate EsMayuscula(c: char) { 'A' <= c <= 'Z' }
  predicate EsMinuscula(c: char) { 'a' <= c <= 'z' }
  predicate EsDigito(c: char) { '0' <= c <= '9' }
  predicate EsLetra(c: char) { EsMayuscula(c) || EsMinuscula(c) }

  predicate TieneMayuscula(s: string) { exists i :: 0 <= i < |s| && EsMayuscula(s[i]) }
  predicate TieneMinuscula(s: string) { exists i :: 0 <= i < |s| && EsMinuscula(s[i]) }
  predicate TieneDigito(s: string) { exists i :: 0 <= i < |s| && EsDigito(s[i]) }

  /** What validarFormatoContraseña accepts: an upper-case letter, a lower-case letter and a digit somewhere. */
  predicate FormatoContrasena(s: string)
  {
    TieneMayuscula(s) && TieneMinuscula(s) && TieneDigito(s)
  }

  const LONGITUD_MINIMA_CONTRASENA: int := 8

  /** A new password both registrarse and cambiarContraseña accept: present, 8 chars or more, right format. */
  predicate ContrasenaAceptable(s: Option<string>)
  {
    s.Some? && |s.value| >= LONGITUD_MINIMA_CONTRASENA && FormatoContrasena(s.value)
  }

  /*
   * The e-mail pattern of validarFormatoCorreo,
   * [a-zA-Z0-9_+&*-]+(\.[a-zA-Z0-9_+&*-]+)*@([a-zA-Z0-9-]+\.)+[a-zA-Z]{2,7}
   * matched against the whole string, read as the automaton that scans the
   * string left to right.
   */

  predicate CaracterLocal(c: char) { EsLetra(c) || EsDigito(c) || c in "_+&*-" }

  predicate CaracterEtiqueta(c: char) { EsLetra(c) || EsDigito(c) || c == '-' }

  /**
   * Where the scan stands. Local: inside the part before '@', with the length
   * of the current dot-separated run. Dominio: after '@', with whether a dot
   * has been seen, the length of the current label and whether that label
   * is letters only (a candidate top-level domain).
   */
  datatype EstadoCorreo =
    | Local(largo: nat)
    | Dominio(conPunto: bool, largo: nat, soloLetras: bool)

  /** The state after reading c, or None when the pattern cannot continue. */
  function Paso(e: EstadoCorreo, c: char): Option<EstadoCorreo>
  {
    match e
    case Local(largo) =>
      if CaracterLocal(c) then Some(Local(largo + 1))
      else if (c == '.' || c == '@') && largo == 0 then None
      else if c == '.' then Some(Local(0))
      else if c == '@' then Some(Dominio(false, 0, true))
      else None
    case Dominio(conPunto, largo, soloLetras) =>
      if CaracterEtiqueta(c) then Some(Dominio(conPunto, largo + 1, soloLetras && EsLetra(c)))
      else if c == '.' && largo > 0 then Some(Dominio(true, 0, true))
      else None
  }

  /** The end of the input is accepted after at least one dotted label and a last run of 2 to 7 letters. */
  predicate Final(e: EstadoCorreo)
  {
    e.Dominio? && e.conPunto && 2 <= e.largo <= 7 && e.soloLetras
  }

  /** Whether the scan of s[i..] from state e ends in an accepting state. */
  predicate Acepta(s: string, i: nat, e: EstadoCorreo)
    requires i <= |s|
    decreases |s| - i
  {
    if i == |s| then Final(e)
    else
      var siguiente := Paso(e, s[i]);
      siguiente.Some? && Acepta(s, i + 1, siguiente.value)
  }

  /** validarFormatoCorreo */
  predicate CorreoValido(s: string)
  {
    Acepta(s, 0, Local(0))
  }

  /** A scan that still accepts ends on a letter: the last char read, or one read later. */
  lemma {:induction false} AceptaTerminaEnLetra(s: string, i: nat, e: EstadoCorreo)
    requires i <= |s| && Acepta(s, i, e)
    requires e.Dominio? && e.largo > 0 && e.soloLetras ==> i > 0 && EsLetra(s[i - 1])
    ensures |s| > 0 && EsLetra(s[|s| - 1])
    decreases |s| - i
  {
    if i < |s| {
      AceptaTerminaEnLetra(s, i + 1, Paso(e, s[i]).value);
    }
  }

  /** A well-formed address has no blank padding: trim() leaves it as it is. */
  lemma CorreoValidoSinBordes(s: string)
    requires CorreoValido(s)
    ensures s != [] && !IsTrimmable(s[0]) && !IsTrimmable(s[|s| - 1])
    ensures Trim(s) == s
  {
    AceptaTerminaEnLetra(s, 0, Local(0));
    assert CaracterLocal(s[0]);
    TrimSinBordes(s);
  }

  /** A well-formed address and its lower-cased form are non-blank and unpadded. */
  lemma CorreoValidoNormalizado(s: string)
    requires CorreoValido(s)
    ensures Trim(s) == s && !IsBlank(s)
    ensures Trim(ToLower(s)) == ToLower(s) && !IsBlank(ToLower(s))
  {
    CorreoValidoSinBordes(s);
    ToLowerSinBordes(s);
  }

  /** The stored form of a well-formed address matches the address as typed, ignoring case. */
  lemma CorreoGuardadoCoincide(correo: string)
    requires CorreoValido(correo)
    ensures !IsBlank(correo) && Trim(correo) == correo
    ensures EqualsIgnoreCase(ToLower(Trim(correo)), Trim(correo))
    ensures Trim(ToLower(Trim(correo))) == ToLower(Trim(correo)) && !IsBlank(ToLower(Trim(correo)))
  {
    CorreoValidoNormalizado(correo);
    ToLowerIdempotente(correo);
  }

  const DOMINIO_INSTITUCIONAL: string := "@unab.edu.co"

  /** The rules registrarse checks, in the order it checks them. */
  datatype ReglaRegistro =
    | UidVacio | NombreVacio | ApellidoVacio | CorreoMalFormado | CorreoNoInstitucional
    | CorreoRegistrado | ContrasenaCorta | ContrasenaSinFormato | CarreraVacia | SemestreFueraDeRango

  /** The message of the IllegalArgumentException thrown for each broken rule. */
  function Mensaje(r: ReglaRegistro): string
  {
    match r
    case UidVacio => "El id universitario no puede estar vacío"
    case NombreVacio => "El nombre no puede estar vacío"
    case ApellidoVacio => "El apellido no puede estar vacío"
    case CorreoMalFormado => "El formato del correo electrónico no es válido"
    case CorreoNoInstitucional => "Debe utilizar un correo institucional (@unab.edu.co)"
    case CorreoRegistrado => "El correo electrónico ya está registrado en el sistema"
    case ContrasenaCorta => "La contraseña debe tener al menos 8 caracteres"
    case ContrasenaSinFormato => "La contraseña debe contener al menos una letra mayúscula, una minúscula y un número"
    case CarreraVacia => "La carrera no puede estar vacía"
    case SemestreFueraDeRango => "El semestre debe estar entre 1 y 12"
  }

  /** Every rule registrarse enforces, in no particular order (the semester must lie in 1..10). */
  predicate RegistroValido(uid: string, nombre: Option<string>, apellido: Option<string>, correo: Option<string>,
                           contrasena: Option<string>, carrera: Option<string>, semestre: int, correoRegistrado: bool)
  {
    !IsBlank(uid) && !NullOrBlank(nombre) && !NullOrBlank(apellido) &&
    correo.Some? && CorreoValido(correo.value) && EndsWith(ToLower(correo.value), DOMINIO_INSTITUCIONAL) &&
    !correoRegistrado && ContrasenaAceptable(contrasena) && !NullOrBlank(carrera) &&
    1 <= semestre <= 10
  }

  /** The outcome of each rule registrarse checks: true when the rule holds. */
  datatype Chequeo = Chequeo(uid: bool, nombre: bool, apellido: bool, correoBienFormado: bool,
                             correoInstitucional: bool, correoLibre: bool, contrasenaLarga: bool,
                             contrasenaConFormato: bool, carrera: bool, semestre: bool)

  /** Each rule of registrarse evaluated on the input. */
  function Chequear(uid: string, nombre: Option<string>, apellido: Option<string>, correo: Option<string>,
                    contrasena: Option<string>, carrera: Option<string>, semestre: int,
                    correoRegistrado: bool): Chequeo
  {
    Chequeo(!IsBlank(uid), !NullOrBlank(nombre), !NullOrBlank(apellido),
            correo.Some? && CorreoValido(correo.value),
            correo.Some? && EndsWith(ToLower(correo.value), DOMINIO_INSTITUCIONAL),
            !correoRegistrado,
            contrasena.Some? && |contrasena.value| >= LONGITUD_MINIMA_CONTRASENA,
            contrasena.Some? && FormatoContrasena(contrasena.value),
            !NullOrBlank(carrera), 1 <= semestre <= 10)
  }

  /** The first broken rule in the order registrarse checks them, or None. */
  function PrimeraRota(c: Chequeo): Option<ReglaRegistro>
  {
    if !c.uid then Some(UidVacio)
    else if !c.nombre then Some(NombreVacio)
    else if !c.apellido then Some(ApellidoVacio)
    else if !c.correoBienFormado then Some(CorreoMalFormado)
    else if !c.correoInstitucional then Some(CorreoNoInstitucional)
    else if !c.correoLibre then Some(CorreoRegistrado)
    else if !c.contrasenaLarga then Some(ContrasenaCorta)
    else if !c.contrasenaConFormato then Some(ContrasenaSinFormato)
    else if !c.carrera then Some(CarreraVacia)
    else if !c.semestre then Some(SemestreFueraDeRango)
    else None
  }

  /**
   * The first rule registrarse finds broken, in the order the source checks
   * them; None when every rule holds. `correoRegistrado` is existeCorreo's
   * answer for the address.
   */
  function ErrorRegistro(uid: string, nombre: Option<string>, apellido: Option<string>, correo: Option<string>,
                         contrasena: Option<string>, carrera: Option<string>, semestre: int,
                         correoRegistrado: bool): (e: Option<ReglaRegistro>)
    ensures IsBlank(uid) ==> e == Some(UidVacio)
    ensures e == Some(SemestreFueraDeRango) ==> semestre <= 0 || semestre > 10
    ensures e == Some(CorreoRegistrado) ==> correoRegistrado
    ensures e == Some(ContrasenaSinFormato) ==> contrasena.Some? && !FormatoContrasena(contrasena.value)
  {
    PrimeraRota(Chequear(uid, nombre, apellido, correo, contrasena, carrera, semestre, correoRegistrado))
  }

  /** Checking the rules one by one in the source's order finds none broken exactly when all of them hold. */
  lemma ErrorRegistroNoneSiValido(uid: string, nombre: Option<string>, apellido: Option<string>, correo: Option<string>,
                                  contrasena: Option<string>, carrera: Option<string>, semestre: int,
                                  correoRegistrado: bool)
    ensures ErrorRegistro(uid, nombre, apellido, correo, contrasena, carrera, semestre, correoRegistrado).None? <==>
            RegistroValido(uid, nombre, apellido, correo, contrasena, carrera, semestre, correoRegistrado)
  {
    var c := Chequear(uid, nombre, apellido, correo, contrasena, carrera, semestre, correoRegistrado);
    assert RegistroValido(uid, nombre, apellido, correo, contrasena, carrera, semestre, correoRegistrado) <==>
           c.uid && c.nombre && c.apellido && c.correoBienFormado && c.correoInstitucional && c.correoLibre &&
           c.contrasenaLarga && c.contrasenaConFormato && c.carrera && c.semestre;
  }

  /**
   * The address registrarse stores, correo.trim().toLowerCase(), is the
   * typed address in lower case: institutional, already lower-case and
   * already trimmed.
   */
  lemma CorreoGuardado(correo: string)
    requires CorreoValido(correo) && EndsWith(ToLower(correo), DOMINIO_INSTITUCIONAL)
    ensures ToLower(Trim(correo)) == ToLower(correo)
    ensures EndsWith(ToLower(Trim(correo)), DOMINIO_INSTITUCIONAL)
    ensures ToLower(ToLower(Trim(correo))) == ToLower(Trim(correo))
    ensures Trim(ToLower(Trim(correo))) == ToLower(Trim(correo))
  {
    CorreoValidoSinBordes(correo);
    ToLowerIdempotente(correo);
    ToLowerSinBordes(correo);
  }
}
