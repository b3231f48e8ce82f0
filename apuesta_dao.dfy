/**
 * ApuestaDAO: the bets' JSON file as a list of bet snapshots keyed by id.
 * A bet refers to its bettor, venue, game and co-bettors by their ids.
 * Every operation wraps its failures into a PersistenciaException; writing
 * the file may fail, in which case it keeps its old contents.
 */
module ApuestaDao {
  import opened Common
  import Lists

  /** What the file holds for one bet. */
  datatype ApuestaJSON = ApuestaJSON(
    id: string,
    estudiante: Option<string>,
    lugar: Option<string>,
    juego: Option<string>,
    cantidadAPUNAB: real,
    fecha: int,
    otrosApostadores: seq<Option<string>>,
    ganada: bool,
    finalizada: bool,
    gananciaPotencial: real,
    gananciaReal: real)

  function ConId(id: string): ApuestaJSON -> bool
  {
    (a: ApuestaJSON) => a.id == id
  }

  /** `a.getEstudiante() != null && a.getEstudiante().getId().equals(usuarioId)` */
  function DeUsuario(usuarioId: string): ApuestaJSON -> bool
  {
    (a: ApuestaJSON) => a.estudiante == Some(usuarioId)
  }

  function Activa(): ApuestaJSON -> bool
  {
    (a: ApuestaJSON) => !a.finalizada
  }

  /** The sort key of `a2.getFecha().compareTo(a1.getFecha())`: newest first. */
  function Fecha(): ApuestaJSON -> real
  {
    (a: ApuestaJSON) => a.fecha as real
  }

  predicate ExisteId(apuestas: seq<ApuestaJSON>, id: string)
  {
    Lists.Any(apuestas, ConId(id))
  }

  class ApuestaDAO {
    /** The parsed contents of the bets' file. */
    var archivo: seq<ApuestaJSON>

    constructor ()
      ensures archivo == []
    {
      archivo := [];
    }

    /** guardarApuestasEnArchivo: the file takes the new contents, or the write throws and nothing changes. */
    method Escribir(apuestas: seq<ApuestaJSON>) returns (r: Outcome<()>)
      modifies this
      ensures r.Ok? ==> archivo == apuestas
      ensures r.Thrown? ==> archivo == old(archivo) && r.error == PersistenciaException
    {
      var escrito: bool :| true;
      if escrito {
        archivo := apuestas;
        r := Ok(());
      } else {
        r := Thrown(PersistenciaException);
      }
    }

    /** guardarApuesta: appends a bet with a new id; a known id is an exception, never `false`. */
    method GuardarApuesta(apuesta: ApuestaJSON) returns (r: Outcome<bool>)
      modifies this
      ensures r != Ok(false)
      ensures ExisteId(old(archivo), apuesta.id) ==> r.Thrown?
      ensures r == Ok(true) ==> archivo == old(archivo) + [apuesta]
      ensures r.Thrown? ==> archivo == old(archivo) && r.error == PersistenciaException
    {
      var apuestas := archivo;
      var existe := Lists.Any(apuestas, ConId(apuesta.id));
      if existe {
        return Thrown(PersistenciaException);
      }
      apuestas := apuestas + [apuesta];
      var w := Escribir(apuestas);
      if w.Thrown? {
        return Thrown(w.error);
      }
      return Ok(true);
    }

    /** buscarPorId: the first bet with that id, if any. */
    function BuscarPorId(id: string): (r: Option<ApuestaJSON>)
      reads this
      ensures r.None? <==> !ExisteId(archivo, id)
      ensures r.Some? ==> r.value in archivo && r.value.id == id
      ensures r.Some? ==> r.value == archivo[Lists.IndexWhere(archivo, ConId(id))]
    {
      Lists.FindFirst(archivo, ConId(id))
    }

    /** buscarPorUsuario: exactly the bets of that bettor, newest first. */
    function BuscarPorUsuario(usuarioId: string): (r: seq<ApuestaJSON>)
      reads this
      ensures forall a :: multiset(r)[a] == if a.estudiante == Some(usuarioId) then multiset(archivo)[a] else 0
      ensures Lists.SortedDesc(r, Fecha())
      ensures forall k :: Lists.Filter(r, Lists.ConClave(Fecha(), k)) ==
                          Lists.Filter(Lists.Filter(archivo, DeUsuario(usuarioId)), Lists.ConClave(Fecha(), k))
    {
      Lists.OrdenEstable(Lists.Filter(archivo, DeUsuario(usuarioId)), Fecha());
      Lists.SortDesc(Lists.Filter(archivo, DeUsuario(usuarioId)), Fecha())
    }

    /** obtenerTodasLasApuestas: every bet, newest first. */
    function ObtenerTodasLasApuestas(): (r: seq<ApuestaJSON>)
      reads this
      ensures multiset(r) == multiset(archivo)
      ensures Lists.SortedDesc(r, Fecha())
      ensures forall k :: Lists.Filter(r, Lists.ConClave(Fecha(), k)) == Lists.Filter(archivo, Lists.ConClave(Fecha(), k))
    {
      Lists.OrdenEstable(archivo, Fecha());
      Lists.SortDesc(archivo, Fecha())
    }

    /** obtenerApuestasActivas: exactly the unsettled bets, newest first. */
    function ObtenerApuestasActivas(): (r: seq<ApuestaJSON>)
      reads this
      ensures forall a :: multiset(r)[a] == if a.finalizada then 0 else multiset(archivo)[a]
      ensures Lists.SortedDesc(r, Fecha())
      ensures forall k :: Lists.Filter(r, Lists.ConClave(Fecha(), k)) ==
                          Lists.Filter(Lists.Filter(archivo, Activa()), Lists.ConClave(Fecha(), k))
    {
      Lists.OrdenEstable(Lists.Filter(archivo, Activa()), Fecha());
      Lists.SortDesc(Lists.Filter(archivo, Activa()), Fecha())
    }

    /** actualizarApuesta: the first bet with the same id is replaced; false when there is none. */
    method ActualizarApuesta(apuesta: ApuestaJSON) returns (r: Outcome<bool>)
      modifies this
      ensures r == Ok(false) <==> !ExisteId(old(archivo), apuesta.id)
      ensures r == Ok(true) ==> archivo == Lists.ReplaceFirst(old(archivo), ConId(apuesta.id), apuesta)
      ensures r == Ok(true) ==> BuscarPorId(apuesta.id) == Some(apuesta)
      ensures r != Ok(true) ==> archivo == old(archivo)
      ensures r.Thrown? ==> r.error == PersistenciaException
    {
      var apuestas := archivo;
      var i := 0;
      while i < |apuestas|
        invariant 0 <= i <= |apuestas|
        invariant apuestas == archivo == old(archivo)
        invariant forall j :: 0 <= j < i ==> apuestas[j].id != apuesta.id
      {
        if apuestas[i].id == apuesta.id {
          assert Lists.IndexWhere(apuestas, ConId(apuesta.id)) == i;
          apuestas := apuestas[i := apuesta];
          var w := Escribir(apuestas);
          if w.Thrown? {
            return Thrown(w.error);
          }
          assert forall j :: 0 <= j < i ==> !ConId(apuesta.id)(archivo[j]);
          return Ok(true);
        }
        i := i + 1;
      }
      return Ok(false);
    }

    /** eliminarApuesta: every bet with the id goes; the file is written only when one went. */
    method EliminarApuesta(id: string) returns (r: Outcome<bool>)
      modifies this
      ensures r == Ok(false) <==> !ExisteId(old(archivo), id)
      ensures r == Ok(true) ==> archivo == Lists.RemoveAll(old(archivo), ConId(id)) && !ExisteId(archivo, id)
      ensures r != Ok(true) ==> archivo == old(archivo)
      ensures r.Thrown? ==> r.error == PersistenciaException
    {
      var apuestas := Lists.RemoveAll(archivo, ConId(id));
      var eliminada := |apuestas| < |archivo|;
      if eliminada {
        var w := Escribir(apuestas);
        if w.Thrown? {
          return Thrown(w.error);
        }
      }
      return Ok(eliminada);
    }

    /** eliminarApuestasPorUsuario: exactly the bets of that bettor go, the others stay in order. */
    method EliminarApuestasPorUsuario(usuarioId: string) returns (r: Outcome<bool>)
      modifies this
      ensures r == Ok(false) <==> !Lists.Any(old(archivo), DeUsuario(usuarioId))
      ensures r == Ok(true) ==> archivo == Lists.RemoveAll(old(archivo), DeUsuario(usuarioId))
      ensures r == Ok(true) ==> BuscarPorUsuario(usuarioId) == []
      ensures r != Ok(true) ==> archivo == old(archivo)
      ensures r.Thrown? ==> r.error == PersistenciaException
    {
      var apuestas := Lists.RemoveAll(archivo, DeUsuario(usuarioId));
      var eliminadas := |apuestas| < |archivo|;
      if eliminadas {
        var w := Escribir(apuestas);
        if w.Thrown? {
          return Thrown(w.error);
        }
      }
      return Ok(eliminadas);
    }

    /** existeApuesta: some bet has that id, exactly when buscarPorId finds one. */
    function ExisteApuesta(id: string): (b: bool)
      reads this
      ensures b <==> exists i :: 0 <= i < |archivo| && archivo[i].id == id
      ensures b <==> BuscarPorId(id).Some?
    {
      ExisteId(archivo, id)
    }

    /** Saving a bet makes it exist, and it is the one found under its id. */
    lemma GuardadaSeEncuentra(antes: seq<ApuestaJSON>, apuesta: ApuestaJSON)
      requires !ExisteId(antes, apuesta.id) && archivo == antes + [apuesta]
      ensures ExisteApuesta(apuesta.id) && BuscarPorId(apuesta.id) == Some(apuesta)
    {
      assert archivo[|antes|] == apuesta;
      assert Lists.IndexWhere(archivo, ConId(apuesta.id)) == |antes| by {
        forall j | 0 <= j < |antes|
          ensures !ConId(apuesta.id)(archivo[j])
        {
          assert archivo[j] == antes[j];
        }
      }
    }
  }
}
