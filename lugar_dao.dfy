/**
 * LugarDAO: the venues' JSON file as a list of venue snapshots keyed by id.
 * A venue refers to its games, registered users and ratings by their ids.
 * Writing the file may fail with a PersistenciaException, in which case it
 * keeps its old contents.
 */
module LugarDao {
  import opened Common
  import opened Strings
  import Lists

  /** What the file holds for one venue. */
  datatype LugarJSON = LugarJSON(
    id: string,
    nombre: string,
    direccion: string,
    descripcion: string,
    calificacionPromedio: real,
    juegosDisponibles: seq<string>,
    usuariosRegistrados: seq<string>,
    calificaciones: seq<string>)

  function ConId(id: string): LugarJSON -> bool
  {
    (l: LugarJSON) => l.id == id
  }

  /** Same name and same address, both ignoring case. */
  function MismoLugar(nombre: string, direccion: string): LugarJSON -> bool
  {
    (l: LugarJSON) => EqualsIgnoreCase(l.nombre, nombre) && EqualsIgnoreCase(l.direccion, direccion)
  }

  function NombreContiene(nombre: string): LugarJSON -> bool
  {
    (l: LugarJSON) => Contains(ToLower(l.nombre), ToLower(nombre))
  }

  function Calificacion(): LugarJSON -> real
  {
    (l: LugarJSON) => l.calificacionPromedio
  }

  function CalificacionEntre(minimo: real, maximo: real): LugarJSON -> bool
  {
    (l: LugarJSON) => l.calificacionPromedio >= minimo && l.calificacionPromedio <= maximo
  }

  predicate ExisteId(lugares: seq<LugarJSON>, id: string)
  {
    Lists.Any(lugares, ConId(id))
  }

  class LugarDAO {
    /** The parsed contents of the venues' file. */
    var archivo: seq<LugarJSON>

    constructor ()
      ensures archivo == []
    {
      archivo := [];
    }

    /** escribirLugares: the file takes the new contents, or the write throws and nothing changes. */
    method Escribir(lugares: seq<LugarJSON>) returns (r: Outcome<()>)
      modifies this
      ensures r.Ok? ==> archivo == lugares
      ensures r.Thrown? ==> archivo == old(archivo) && r.error == PersistenciaException
    {
      var escrito: bool :| true;
      if escrito {
        archivo := lugares;
        r := Ok(());
      } else {
        r := Thrown(PersistenciaException);
      }
    }

    /** guardarLugar: appends a venue with a new id; refuses null and known ids. */
    method GuardarLugar(lugar: Option<LugarJSON>) returns (r: Outcome<bool>)
      modifies this
      ensures r == Ok(false) <==> lugar.None? || ExisteId(old(archivo), lugar.value.id)
      ensures r == Ok(true) ==> archivo == old(archivo) + [lugar.value]
      ensures r != Ok(true) ==> archivo == old(archivo)
    {
      if lugar.None? {
        return Ok(false);
      }
      var lugares := archivo;
      var existe := Lists.Any(lugares, ConId(lugar.value.id));
      if !existe {
        lugares := lugares + [lugar.value];
        var w := Escribir(lugares);
        if w.Thrown? {
          return Thrown(w.error);
        }
        return Ok(true);
      }
      return Ok(false);
    }

    /** actualizarLugar: the first venue with the same id is replaced; false when there is none. */
    method ActualizarLugar(lugar: Option<LugarJSON>) returns (r: Outcome<bool>)
      modifies this
      ensures r == Ok(false) <==> lugar.None? || !ExisteId(old(archivo), lugar.value.id)
      ensures r == Ok(true) ==> archivo == Lists.ReplaceFirst(old(archivo), ConId(lugar.value.id), lugar.value)
      ensures r != Ok(true) ==> archivo == old(archivo)
    {
      if lugar.None? {
        return Ok(false);
      }
      var l := lugar.value;
      var lugares := archivo;
      var i := 0;
      while i < |lugares|
        invariant 0 <= i <= |lugares|
        invariant lugares == archivo == old(archivo)
        invariant forall k :: 0 <= k < i ==> lugares[k].id != l.id
      {
        if lugares[i].id == l.id {
          assert Lists.IndexWhere(lugares, ConId(l.id)) == i;
          lugares := lugares[i := l];
          var w := Escribir(lugares);
          if w.Thrown? {
            return Thrown(w.error);
          }
          return Ok(true);
        }
        i := i + 1;
      }
      return Ok(false);
    }

    /** eliminarLugar: every venue with the id goes; false for a blank id or when none went. */
    method EliminarLugar(id: Option<string>) returns (r: Outcome<bool>)
      modifies this
      ensures r == Ok(false) <==> NullOrBlank(id) || !ExisteId(old(archivo), id.value)
      ensures r == Ok(true) ==> archivo == Lists.RemoveAll(old(archivo), ConId(id.value)) && !ExisteId(archivo, id.value)
      ensures r != Ok(true) ==> archivo == old(archivo)
    {
      if NullOrBlank(id) {
        return Ok(false);
      }
      var lugares := Lists.RemoveAll(archivo, ConId(id.value));
      var eliminado := |lugares| < |archivo|;
      if eliminado {
        var w := Escribir(lugares);
        if w.Thrown? {
          return Thrown(w.error);
        }
      }
      return Ok(eliminado);
    }

    /** buscarPorId: the first venue with the id; nothing for a null or blank id. */
    function BuscarPorId(id: Option<string>): (r: Option<LugarJSON>)
      reads this
      ensures r.None? <==> NullOrBlank(id) || !ExisteId(archivo, id.value)
      ensures r.Some? ==> r.value in archivo && r.value.id == id.value
      ensures r.Some? ==> r.value == archivo[Lists.IndexWhere(archivo, ConId(id.value))]
    {
      if NullOrBlank(id) then None else Lists.FindFirst(archivo, ConId(id.value))
    }

    /** buscarPorNombre: the venues whose lower-cased name contains the lower-cased input; none for blank input. */
    function BuscarPorNombre(nombre: Option<string>): (r: seq<LugarJSON>)
      reads this
      ensures NullOrBlank(nombre) ==> r == []
      ensures !NullOrBlank(nombre) ==> forall l :: (multiset(r)[l] ==
                                      if Contains(ToLower(l.nombre), ToLower(nombre.value)) then multiset(archivo)[l] else 0)
    {
      if NullOrBlank(nombre) then [] else Lists.Filter(archivo, NombreContiene(nombre.value))
    }

    /** obtenerLugaresPorCalificacion: every venue, best average first. */
    function ObtenerLugaresPorCalificacion(): (r: seq<LugarJSON>)
      reads this
      ensures multiset(r) == multiset(archivo)
      ensures Lists.SortedDesc(r, Calificacion())
      ensures forall k :: Lists.Filter(r, Lists.ConClave(Calificacion(), k)) ==
                          Lists.Filter(archivo, Lists.ConClave(Calificacion(), k))
    {
      Lists.OrdenEstable(archivo, Calificacion());
      Lists.SortDesc(archivo, Calificacion())
    }

    /** existeLugar: some venue has the trimmed name and the trimmed address, ignoring case; false for null input. */
    function ExisteLugar(nombre: Option<string>, direccion: Option<string>): (b: bool)
      reads this
      ensures b <==> nombre.Some? && direccion.Some? &&
                     exists i :: 0 <= i < |archivo| && EqualsIgnoreCase(archivo[i].nombre, Trim(nombre.value)) &&
                                 EqualsIgnoreCase(archivo[i].direccion, Trim(direccion.value))
    {
      nombre.Some? && direccion.Some? &&
      Lists.Any(archivo, MismoLugar(Trim(nombre.value), Trim(direccion.value)))
    }

    /** A stored venue makes its (name, address) pair taken, whatever the case and padding of the query. */
    lemma ParRegistradoExiste(nombre: string, direccion: string, i: int)
      requires 0 <= i < |archivo|
      requires EqualsIgnoreCase(archivo[i].nombre, Trim(nombre))
      requires EqualsIgnoreCase(archivo[i].direccion, Trim(direccion))
      ensures ExisteLugar(Some(nombre), Some(direccion))
    {
      assert MismoLugar(Trim(nombre), Trim(direccion))(archivo[i]);
    }

    /** contarLugares: the number of stored venues, zero exactly when no id is stored. */
    function ContarLugares(): (n: nat)
      reads this
      ensures n == |archivo|
      ensures n == 0 <==> forall id :: !ExisteId(archivo, id)
    {
      if archivo == [] then 0
      else
        assert ConId(archivo[0].id)(archivo[0]);
        assert ExisteId(archivo, archivo[0].id);
        |archivo|
    }

    /** buscarPorRangoCalificacion: exactly the venues whose average lies in [minimo, maximo]. */
    function BuscarPorRangoCalificacion(minimo: real, maximo: real): (r: seq<LugarJSON>)
      reads this
      ensures forall l :: (multiset(r)[l] ==
                             if minimo <= l.calificacionPromedio <= maximo then multiset(archivo)[l] else 0)
    {
      Lists.Filter(archivo, CalificacionEntre(minimo, maximo))
    }
  }
}
