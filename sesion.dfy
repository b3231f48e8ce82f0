/**
 * SessionManager: the one shared holder of the logged-in user. The static
 * `instance` field lives in a class of its own, SesionGlobal, whose single
 * object stands for the class's static state.
 */
module Sesion {
  import Classes

  const SIN_USUARIO: string := "Usuario no encontrado"

  class SessionManager {
    var usuarioActual: Classes.Usuario?

    /** The private constructor: nobody is logged in. */
    constructor ()
      ensures usuarioActual == null
    {
      usuarioActual := null;
    }

    /** setUsuarioActual: the given user (or null) becomes the current user. */
    method SetUsuarioActual(usuario: Classes.Usuario?)
      modifies this
      ensures usuarioActual == usuario && GetUsuarioActual() == usuario
      ensures HayUsuarioLogueado() <==> usuario != null
    {
      usuarioActual := usuario;
    }

    /** getUsuarioActual: the user last set, or null when nobody is logged in. */
    function GetUsuarioActual(): (u: Classes.Usuario?)
      reads this
      ensures u == usuarioActual
      ensures u == null <==> !HayUsuarioLogueado()
    {
      usuarioActual
    }

    /** hayUsuarioLogueado: somebody is logged in exactly when the current user is not null. */
    function HayUsuarioLogueado(): (b: bool)
      reads this
      ensures b <==> usuarioActual != null
    {
      usuarioActual != null
    }

    /** cerrarSesion: nobody is logged in afterwards, and the name shown is the placeholder. */
    method CerrarSesion()
      modifies this
      ensures usuarioActual == null
      ensures !HayUsuarioLogueado() && GetNombreUsuario() == SIN_USUARIO
    {
      usuarioActual := null;
    }

    /**
     * getNombreUsuario: the current user's name and surname separated by a
     * space, or the placeholder when nobody is logged in.
     */
    function GetNombreUsuario(): (n: string)
      reads this, usuarioActual
      ensures usuarioActual == null ==> n == SIN_USUARIO
      ensures usuarioActual != null ==>
                |n| == |usuarioActual.nombre| + 1 + |usuarioActual.apellido| &&
                n[..|usuarioActual.nombre|] == usuarioActual.nombre &&
                n[|usuarioActual.nombre|] == ' ' &&
                n[|usuarioActual.nombre| + 1..] == usuarioActual.apellido
    {
      if usuarioActual != null then usuarioActual.nombre + " " + usuarioActual.apellido else SIN_USUARIO
    }
  }

  /** The static state of SessionManager: the lazily created instance. */
  class SesionGlobal {
    var instance: SessionManager?

    constructor ()
      ensures instance == null
    {
      instance := null;
    }

    /**
     * getInstance: the first call creates the instance, with nobody logged
     * in; every later call returns that same instance.
     */
    method GetInstance() returns (s: SessionManager)
      modifies this
      ensures instance == s
      ensures old(instance) != null ==> s == old(instance)
      ensures old(instance) == null ==> fresh(s) && s.usuarioActual == null
    {
      if instance == null {
        instance := new SessionManager();
      }
      return instance;
    }
  }
}
