/**
 * UsuarioDAO: the users' JSON file as a list of UsuarioJSON records keyed by
 * id. The file is the `archivo` field; writing it may fail with a
 * PersistenciaException, in which case the file keeps its old contents.
 */
module UsuarioDao {
  import opened Common
  import opened Strings
  import Lists

  /** The flat record stored for each user. */
  datatype UsuarioJSON = UsuarioJSON(
    id: string,
    uid: string,
    nombre: string,
    apellido: string,
    correo: string,
    contrasena: string,
    carrera: string,
    semestre: int,
    saldoAPUNAB: real)

  /** The `u.getId().equals(id)` test of every id lookup. */
  function ConId(id: string): UsuarioJSON -> bool
  {
    (u: UsuarioJSON) => u.id == id
  }

  predicate ExisteId(usuarios: seq<UsuarioJSON>, id: string)
  {
    Lists.Any(usuarios, ConId(id))
  }

  /** The `u.getCorreo().equalsIgnoreCase(correo)` test of buscarPorCorreo. */
  function ConCorreo(correo: string): UsuarioJSON -> bool
  {
    (u: UsuarioJSON) => EqualsIgnoreCase(u.correo, correo)
  }

  /**
   * `despues` differs from `antes` at most in the records with the given id,
   * which keep their id and place: what any number of writes of that one
   * user's record leave behind.
   */
  predicate SoloRegistroDe(antes: seq<UsuarioJSON>, despues: seq<UsuarioJSON>, id: string)
  {
    |despues| == |antes| &&
    forall i :: 0 <= i < |antes| ==> despues[i].id == antes[i].id && (antes[i].id != id ==> despues[i] == antes[i])
  }

  /** Writing one user's record twice still touches only that user's record. */
  lemma SoloRegistroDeTransitivo(a: seq<UsuarioJSON>, b: seq<UsuarioJSON>, c: seq<UsuarioJSON>, id: string)
    requires SoloRegistroDe(a, b, id) && SoloRegistroDe(b, c, id)
    ensures SoloRegistroDe(a, c, id)
  {
  }

  /** Replacing the first record of an id by a record with that id touches only that id's records. */
  lemma ReemplazoSoloRegistroDe(usuarios: seq<UsuarioJSON>, u: UsuarioJSON)
    ensures SoloRegistroDe(usuarios, Lists.ReplaceFirst(usuarios, ConId(u.id), u), u.id)
  {
  }

  /** The store holds `u` as the first record of its id, or no record of that id at all. */
  predicate Sincronizado(usuarios: seq<UsuarioJSON>, u: UsuarioJSON)
  {
    Lists.FindFirst(usuarios, ConId(u.id)) in {None, Some(u)}
  }

  class UsuarioDAO {
    /** The parsed contents of the users' file. */
    var archivo: seq<UsuarioJSON>

    constructor ()
      ensures archivo == []
    {
      archivo := [];
    }

    /** escribirUsuariosJSON: the file takes the new contents, or the write throws and nothing changes. */
    method Escribir(usuarios: seq<UsuarioJSON>) returns (r: Outcome<()>)
      modifies this
      ensures r.Ok? ==> archivo == usuarios
      ensures r.Thrown? ==> archivo == old(archivo) && r.error == PersistenciaException
    {
      var escrito: bool :| true;
      if escrito {
        archivo := usuarios;
        r := Ok(());
      } else {
        r := Thrown(PersistenciaException);
      }
    }

    /** contarUsuarios: the number of stored users, zero exactly when no id is stored. */
    function ContarUsuarios(): (n: nat)
      reads this
      ensures n == |archivo|
      ensures n == 0 <==> forall id :: !ExisteId(archivo, id)
    {
      if archivo == [] then 0
      else
        assert ConId(archivo[0].id)(archivo[0]);
        assert ExisteId(archivo, archivo[0].id);
        |archivo|
    }

    /** guardarUsuario: appends a user whose id is new; refuses null and known ids. */
    method GuardarUsuario(usuario: Option<UsuarioJSON>) returns (r: Outcome<bool>)
      modifies this
      ensures r == Ok(false) <==> usuario.None? || ExisteId(old(archivo), usuario.value.id)
      ensures r == Ok(true) ==> archivo == old(archivo) + [usuario.value]
      ensures r == Ok(true) ==> ContarUsuarios() == old(ContarUsuarios()) + 1
      ensures r != Ok(true) ==> archivo == old(archivo)
      ensures r.Thrown? ==> r.error == PersistenciaException
    {
      if usuario.None? {
        return Ok(false);
      }
      var usuarios := archivo;
      var existe := Lists.Any(usuarios, ConId(usuario.value.id));
      if !existe {
        usuarios := usuarios + [usuario.value];
        var w := Escribir(usuarios);
        if w.Thrown? {
          return Thrown(w.error);
        }
        return Ok(true);
      }
      return Ok(false);
    }

    /** buscarPorId: the first record with the id; nothing for a null or blank id. */
    function BuscarPorId(id: Option<string>): (r: Option<UsuarioJSON>)
      reads this
      ensures r.None? <==> NullOrBlank(id) || !ExisteId(archivo, id.value)
      ensures r.Some? ==> r.value in archivo && r.value.id == id.value
      ensures r.Some? ==> r.value == archivo[Lists.IndexWhere(archivo, ConId(id.value))]
    {
      if NullOrBlank(id) then None else Lists.FindFirst(archivo, ConId(id.value))
    }

    /** buscarPorCorreo: the first record whose email equals the trimmed input ignoring case. */
    function BuscarPorCorreo(correo: Option<string>): (r: Option<UsuarioJSON>)
      reads this
      ensures r.None? <==> NullOrBlank(correo) || !Lists.Any(archivo, ConCorreo(Trim(correo.value)))
      ensures r.Some? ==> r.value in archivo && EqualsIgnoreCase(r.value.correo, Trim(correo.value))
      ensures r.Some? ==> r.value == archivo[Lists.IndexWhere(archivo, ConCorreo(Trim(correo.value)))]
    {
      if NullOrBlank(correo) then None else Lists.FindFirst(archivo, ConCorreo(Trim(correo.value)))
    }

    /** A record appended after none with its address is the one buscarPorCorreo finds for that address. */
    lemma BuscarPorCorreoAgregado(antes: seq<UsuarioJSON>, u: UsuarioJSON, correo: string)
      requires archivo == antes + [u] && !IsBlank(correo)
      requires !Lists.Any(antes, ConCorreo(Trim(correo))) && EqualsIgnoreCase(u.correo, Trim(correo))
      ensures BuscarPorCorreo(Some(correo)) == Some(u)
    {
      Lists.PrimeroAgregado(antes, u, ConCorreo(Trim(correo)));
    }

    /** existeCorreo: some user is registered under that email, compared as buscarPorCorreo does. */
    function ExisteCorreo(correo: Option<string>): (b: bool)
      reads this
      ensures b <==> !NullOrBlank(correo) &&
                     exists i :: 0 <= i < |archivo| && EqualsIgnoreCase(archivo[i].correo, Trim(correo.value))
    {
      BuscarPorCorreo(correo).Some?
    }

    lemma ExisteCorreoSiHayRegistro(correo: string, i: int)
      requires 0 <= i < |archivo| && EqualsIgnoreCase(archivo[i].correo, Trim(correo))
      requires !IsBlank(correo)
      ensures ExisteCorreo(Some(correo))
    {
      assert ConCorreo(Trim(correo))(archivo[i]);
    }

    /** actualizarUsuario: the first record with the user's id is replaced; false when there is none. */
    method ActualizarUsuario(usuario: Option<UsuarioJSON>) returns (r: Outcome<bool>)
      modifies this
      ensures r == Ok(false) <==> usuario.None? || !ExisteId(old(archivo), usuario.value.id)
      ensures r == Ok(true) ==> archivo == Lists.ReplaceFirst(old(archivo), ConId(usuario.value.id), usuario.value)
      ensures r.Ok? && usuario.Some? ==> Sincronizado(archivo, usuario.value)
      ensures r != Ok(true) ==> archivo == old(archivo)
      ensures r.Thrown? ==> r.error == PersistenciaException
    {
      if usuario.None? {
        return Ok(false);
      }
      var u := usuario.value;
      var usuarios := archivo;
      var i := 0;
      while i < |usuarios|
        invariant 0 <= i <= |usuarios|
        invariant usuarios == archivo == old(archivo)
        invariant forall j :: 0 <= j < i ==> usuarios[j].id != u.id
      {
        if usuarios[i].id == u.id {
          assert Lists.IndexWhere(usuarios, ConId(u.id)) == i;
          usuarios := usuarios[i := u];
          var w := Escribir(usuarios);
          if w.Thrown? {
            return Thrown(w.error);
          }
          return Ok(true);
        }
        i := i + 1;
      }
      return Ok(false);
    }

    /** actualizarContraseña: only the password of the first record with the id changes. */
    method ActualizarContrasena(id: Option<string>, nueva: Option<string>) returns (r: Outcome<bool>)
      modifies this
      ensures r == Ok(false) <==> id.None? || nueva.None? || !ExisteId(old(archivo), id.value)
      ensures r == Ok(true) ==>
        var k := Lists.IndexWhere(old(archivo), ConId(id.value));
        k < |old(archivo)| && archivo == old(archivo)[k := old(archivo)[k].(contrasena := nueva.value)]
      ensures r != Ok(true) ==> archivo == old(archivo)
      ensures r.Thrown? ==> r.error == PersistenciaException
    {
      if id.None? || nueva.None? {
        return Ok(false);
      }
      var usuarios := archivo;
      var i := 0;
      while i < |usuarios|
        invariant 0 <= i <= |usuarios|
        invariant usuarios == archivo == old(archivo)
        invariant forall j :: 0 <= j < i ==> usuarios[j].id != id.value
      {
        if usuarios[i].id == id.value {
          assert Lists.IndexWhere(usuarios, ConId(id.value)) == i;
          usuarios := usuarios[i := usuarios[i].(contrasena := nueva.value)];
          var w := Escribir(usuarios);
          if w.Thrown? {
            return Thrown(w.error);
          }
          return Ok(true);
        }
        i := i + 1;
      }
      return Ok(false);
    }

    /** eliminarUsuario: every record with the id goes; true exactly when the list shrank. */
    method EliminarUsuario(id: Option<string>) returns (r: Outcome<bool>)
      modifies this
      ensures r == Ok(false) <==> NullOrBlank(id) || !ExisteId(old(archivo), id.value)
      ensures r == Ok(true) ==> archivo == Lists.RemoveAll(old(archivo), ConId(id.value))
      ensures r == Ok(true) ==> ContarUsuarios() < old(ContarUsuarios()) && !ExisteId(archivo, id.value)
      ensures r != Ok(true) ==> archivo == old(archivo)
      ensures r.Thrown? ==> r.error == PersistenciaException
    {
      if NullOrBlank(id) {
        return Ok(false);
      }
      var usuarios := archivo;
      var tamanoInicial := |usuarios|;
      usuarios := Lists.RemoveAll(usuarios, ConId(id.value));
      if |usuarios| < tamanoInicial {
        var w := Escribir(usuarios);
        if w.Thrown? {
          return Thrown(w.error);
        }
        return Ok(true);
      }
      return Ok(false);
    }
  }
}
