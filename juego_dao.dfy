/**
 * JuegoDAO: the games' JSON file as a list of game snapshots keyed by id,
 * with the stream queries the game screens use. Writing the file may fail
 * with a PersistenciaException, in which case it keeps its old contents.
 */
module JuegoDao {
  import opened Common
  import opened Strings
  import Lists

  /** What the file holds for one game. */
  datatype JuegoJSON = JuegoJSON(
    id: string,
    nombre: string,
    descripcion: string,
    factorMultiplicador: real,
    activo: bool,
    fechaCreacion: int)

  /** The figures of obtenerEstadisticas. */
  datatype JuegoEstadisticas = JuegoEstadisticas(
    totalJuegos: int,
    juegosActivos: int,
    juegosInactivos: int,
    factorPromedio: real,
    factorMinimo: real,
    factorMaximo: real)

  function ConId(id: string): JuegoJSON -> bool
  {
    (j: JuegoJSON) => j.id == id
  }

  /** `juego.getNombre().equalsIgnoreCase(nombre)` */
  function ConNombre(nombre: string): JuegoJSON -> bool
  {
    (j: JuegoJSON) => EqualsIgnoreCase(j.nombre, nombre)
  }

  /** `juego.getNombre().toLowerCase().contains(nombre.toLowerCase())` */
  function NombreContiene(nombre: string): JuegoJSON -> bool
  {
    (j: JuegoJSON) => Contains(ToLower(j.nombre), ToLower(nombre))
  }

  function Activo(): JuegoJSON -> bool
  {
    (j: JuegoJSON) => j.activo
  }

  function Factor(): JuegoJSON -> real
  {
    (j: JuegoJSON) => j.factorMultiplicador
  }

  function FechaCreacion(): JuegoJSON -> real
  {
    (j: JuegoJSON) => j.fechaCreacion as real
  }

  function FactorEntre(minimo: real, maximo: real): JuegoJSON -> bool
  {
    (j: JuegoJSON) => j.factorMultiplicador >= minimo && j.factorMultiplicador <= maximo
  }

  /** `fechaCreacion.isAfter(fechaInicio) && fechaCreacion.isBefore(fechaFin)`: both bounds excluded. */
  function CreadoEntre(inicio: int, fin: int): JuegoJSON -> bool
  {
    (j: JuegoJSON) => inicio < j.fechaCreacion < fin
  }

  predicate ExisteId(juegos: seq<JuegoJSON>, id: string)
  {
    Lists.Any(juegos, ConId(id))
  }

  class JuegoDAO {
    /** The parsed contents of the games' file. */
    var archivo: seq<JuegoJSON>

    constructor ()
      ensures archivo == []
    {
      archivo := [];
    }

    /** escribirJuegos: the file takes the new contents, or the write throws and nothing changes. */
    method Escribir(juegos: seq<JuegoJSON>) returns (r: Outcome<()>)
      modifies this
      ensures r.Ok? ==> archivo == juegos
      ensures r.Thrown? ==> archivo == old(archivo) && r.error == PersistenciaException
    {
      var escrito: bool :| true;
      if escrito {
        archivo := juegos;
        r := Ok(());
      } else {
        r := Thrown(PersistenciaException);
      }
    }

    /** guardarJuego: appends a game with a new id; refuses null and known ids. */
    method GuardarJuego(juego: Option<JuegoJSON>) returns (r: Outcome<bool>)
      modifies this
      ensures r == Ok(false) <==> juego.None? || ExisteId(old(archivo), juego.value.id)
      ensures r == Ok(true) ==> archivo == old(archivo) + [juego.value]
      ensures r != Ok(true) ==> archivo == old(archivo)
    {
      if juego.None? {
        return Ok(false);
      }
      var juegos := archivo;
      var existe := Lists.Any(juegos, ConId(juego.value.id));
      if !existe {
        juegos := juegos + [juego.value];
        var w := Escribir(juegos);
        if w.Thrown? {
          return Thrown(w.error);
        }
        return Ok(true);
      }
      return Ok(false);
    }

    /** actualizarJuego: the first game with the same id is replaced; false when there is none. */
    method ActualizarJuego(juego: Option<JuegoJSON>) returns (r: Outcome<bool>)
      modifies this
      ensures r == Ok(false) <==> juego.None? || !ExisteId(old(archivo), juego.value.id)
      ensures r == Ok(true) ==> archivo == Lists.ReplaceFirst(old(archivo), ConId(juego.value.id), juego.value)
      ensures r != Ok(true) ==> archivo == old(archivo)
    {
      if juego.None? {
        return Ok(false);
      }
      var j := juego.value;
      var juegos := archivo;
      var i := 0;
      while i < |juegos|
        invariant 0 <= i <= |juegos|
        invariant juegos == archivo == old(archivo)
        invariant forall k :: 0 <= k < i ==> juegos[k].id != j.id
      {
        if juegos[i].id == j.id {
          assert Lists.IndexWhere(juegos, ConId(j.id)) == i;
          juegos := juegos[i := j];
          var w := Escribir(juegos);
          if w.Thrown? {
            return Thrown(w.error);
          }
          return Ok(true);
        }
        i := i + 1;
      }
      return Ok(false);
    }

    /** eliminarJuegoFisico: every game with the id goes; false for a blank id or when none went. */
    method EliminarJuegoFisico(id: Option<string>) returns (r: Outcome<bool>)
      modifies this
      ensures r == Ok(false) <==> NullOrBlank(id) || !ExisteId(old(archivo), id.value)
      ensures r == Ok(true) ==> archivo == Lists.RemoveAll(old(archivo), ConId(id.value)) && !ExisteId(archivo, id.value)
      ensures r != Ok(true) ==> archivo == old(archivo)
    {
      if NullOrBlank(id) {
        return Ok(false);
      }
      var juegos := Lists.RemoveAll(archivo, ConId(id.value));
      var eliminado := |juegos| < |archivo|;
      if eliminado {
        var w := Escribir(juegos);
        if w.Thrown? {
          return Thrown(w.error);
        }
      }
      return Ok(eliminado);
    }

    /** buscarPorId: the first game with the id; nothing for a null or blank id. */
    function BuscarPorId(id: Option<string>): (r: Option<JuegoJSON>)
      reads this
      ensures r.None? <==> NullOrBlank(id) || !ExisteId(archivo, id.value)
      ensures r.Some? ==> r.value in archivo && r.value.id == id.value
      ensures r.Some? ==> r.value == archivo[Lists.IndexWhere(archivo, ConId(id.value))]
    {
      if NullOrBlank(id) then None else Lists.FindFirst(archivo, ConId(id.value))
    }

    /** buscarPorNombre: the games whose lower-cased name contains the lower-cased input; none for blank input. */
    function BuscarPorNombre(nombre: Option<string>): (r: seq<JuegoJSON>)
      reads this
      ensures NullOrBlank(nombre) ==> r == []
      ensures !NullOrBlank(nombre) ==> forall j :: (multiset(r)[j] ==
                                      if Contains(ToLower(j.nombre), ToLower(nombre.value)) then multiset(archivo)[j] else 0)
    {
      if NullOrBlank(nombre) then [] else Lists.Filter(archivo, NombreContiene(nombre.value))
    }

    /** obtenerJuegosActivos: exactly the active games, in file order. */
    function ObtenerJuegosActivos(): (r: seq<JuegoJSON>)
      reads this
      ensures forall j :: multiset(r)[j] == if j.activo then multiset(archivo)[j] else 0
    {
      Lists.Filter(archivo, Activo())
    }

    /** obtenerJuegosPorFactor: every game, largest multiplier first. */
    function ObtenerJuegosPorFactor(): (r: seq<JuegoJSON>)
      reads this
      ensures multiset(r) == multiset(archivo)
      ensures Lists.SortedDesc(r, Factor())
      ensures forall k :: Lists.Filter(r, Lists.ConClave(Factor(), k)) == Lists.Filter(archivo, Lists.ConClave(Factor(), k))
    {
      Lists.OrdenEstable(archivo, Factor());
      Lists.SortDesc(archivo, Factor())
    }

    /** existeJuego: some game's name equals the trimmed input ignoring case; false for blank input. */
    function ExisteJuego(nombre: Option<string>): (b: bool)
      reads this
      ensures b <==> !NullOrBlank(nombre) &&
                     exists i :: 0 <= i < |archivo| && EqualsIgnoreCase(archivo[i].nombre, Trim(nombre.value))
    {
      !NullOrBlank(nombre) && Lists.Any(archivo, ConNombre(Trim(nombre.value)))
    }

    /** A game stored under a name makes that name, in any case and padding, already taken. */
    lemma NombreRegistradoExiste(nombre: string, i: int)
      requires 0 <= i < |archivo| && EqualsIgnoreCase(archivo[i].nombre, Trim(nombre))
      requires !IsBlank(nombre)
      ensures ExisteJuego(Some(nombre))
    {
      assert ConNombre(Trim(nombre))(archivo[i]);
    }

    /** contarJuegos: the number of stored games, zero exactly when no id is stored. */
    function ContarJuegos(): (n: nat)
      reads this
      ensures n == |archivo|
      ensures n == 0 <==> forall id :: !ExisteId(archivo, id)
    {
      if archivo == [] then 0
      else
        assert ConId(archivo[0].id)(archivo[0]);
        assert ExisteId(archivo, archivo[0].id);
        |archivo|
    }

    /** contarJuegosActivos: the number of active games, never more than all games. */
    function ContarJuegosActivos(): (n: nat)
      reads this
      ensures n <= ContarJuegos()
      ensures n == |ObtenerJuegosActivos()|
      ensures n == 0 <==> !Lists.Any(archivo, Activo())
    {
      Lists.Count(archivo, Activo())
    }

    /** buscarPorRangoFactor: exactly the games whose multiplier lies in [minimo, maximo]. */
    function BuscarPorRangoFactor(minimo: real, maximo: real): (r: seq<JuegoJSON>)
      reads this
      ensures forall j :: (multiset(r)[j] ==
                             if minimo <= j.factorMultiplicador <= maximo then multiset(archivo)[j] else 0)
    {
      Lists.Filter(archivo, FactorEntre(minimo, maximo))
    }

    /** buscarPorRangoFechas: exactly the games created strictly between the two instants. */
    function BuscarPorRangoFechas(inicio: int, fin: int): (r: seq<JuegoJSON>)
      reads this
      ensures forall j :: (multiset(r)[j] ==
                             if inicio < j.fechaCreacion < fin then multiset(archivo)[j] else 0)
    {
      Lists.Filter(archivo, CreadoEntre(inicio, fin))
    }

    /** obtenerJuegosRecientes: the newest `limite` games; a negative limit is an IllegalArgumentException. */
    function ObtenerJuegosRecientes(limite: int): (r: Outcome<seq<JuegoJSON>>)
      reads this
      ensures limite < 0 <==> r.Thrown?
      ensures r.Ok? ==> |r.value| == if limite < |archivo| then limite else |archivo|
      ensures r.Ok? ==> Lists.SortedDesc(r.value, FechaCreacion())
      ensures r.Ok? ==> multiset(r.value) <= multiset(archivo)
      ensures r.Ok? ==> forall x, y :: x in r.value && y in multiset(archivo) - multiset(r.value) ==>
                                         y.fechaCreacion <= x.fechaCreacion
      ensures r.Ok? ==> forall k :: Lists.Filter(r.value, Lists.ConClave(FechaCreacion(), k)) <=
                                    Lists.Filter(archivo, Lists.ConClave(FechaCreacion(), k))
    {
      if limite < 0 then Thrown(IllegalArgumentException("limite negativo"))
      else
        var todos := Lists.SortDesc(archivo, FechaCreacion());
        var r := Lists.Limit(todos, limite);
        PrimerosMasRecientes(archivo, todos, |r|);
        Lists.PrefijoEstable(archivo, FechaCreacion(), |r|);
        Ok(r)
    }

    /** obtenerEstadisticas: counts and multiplier average / minimum / maximum; all zero without games. */
    function ObtenerEstadisticas(): (e: JuegoEstadisticas)
      reads this
      ensures archivo == [] ==> e == JuegoEstadisticas(0, 0, 0, 0.0, 0.0, 0.0)
      ensures e.totalJuegos == |archivo|
      ensures e.juegosActivos + e.juegosInactivos == e.totalJuegos
      ensures 0 <= e.juegosActivos == ContarJuegosActivos() <= e.totalJuegos
      ensures archivo != [] ==> e.factorMinimo <= e.factorPromedio <= e.factorMaximo
      ensures forall i :: 0 <= i < |archivo| ==>
                            e.factorMinimo <= archivo[i].factorMultiplicador <= e.factorMaximo
      ensures archivo != [] ==> exists i :: 0 <= i < |archivo| && archivo[i].factorMultiplicador == e.factorMinimo
      ensures archivo != [] ==> exists i :: 0 <= i < |archivo| && archivo[i].factorMultiplicador == e.factorMaximo
      ensures archivo != [] ==> Lists.EsMedia(e.factorPromedio, archivo, Factor())
    {
      if archivo == [] then JuegoEstadisticas(0, 0, 0, 0.0, 0.0, 0.0)
      else
        var activos := ContarJuegosActivos();
        ExtremosAlcanzados(archivo);
        JuegoEstadisticas(|archivo|, activos, |archivo| - activos,
                          FactorPromedio(archivo), Lists.Min(archivo, Factor()), Lists.Max(archivo, Factor()))
    }
  }

  /**
   * The first k games of the list sorted newest first are some of the stored
   * games, and none of the games left out is newer than one kept.
   */
  lemma PrimerosMasRecientes(juegos: seq<JuegoJSON>, todos: seq<JuegoJSON>, k: nat)
    requires Lists.SortedDesc(todos, FechaCreacion()) && multiset(todos) == multiset(juegos)
    requires k <= |todos|
    ensures multiset(todos[..k]) <= multiset(juegos)
    ensures forall x, y :: x in todos[..k] && y in multiset(juegos) - multiset(todos[..k]) ==>
                             y.fechaCreacion <= x.fechaCreacion
  {
    assert todos == todos[..k] + todos[k..];
    assert multiset(todos) == multiset(todos[..k]) + multiset(todos[k..]);
    assert multiset(juegos) - multiset(todos[..k]) == multiset(todos[k..]);
    Lists.PrefijoDeOrdenado(todos, k, FechaCreacion());
  }

  /** The least and the greatest multiplier are those of some stored game. */
  lemma ExtremosAlcanzados(juegos: seq<JuegoJSON>)
    requires juegos != []
    ensures exists i :: 0 <= i < |juegos| && juegos[i].factorMultiplicador == Lists.Min(juegos, Factor())
    ensures exists i :: 0 <= i < |juegos| && juegos[i].factorMultiplicador == Lists.Max(juegos, Factor())
  {
    var i :| 0 <= i < |juegos| && Lists.Min(juegos, Factor()) == Factor()(juegos[i]);
    var j :| 0 <= j < |juegos| && Lists.Max(juegos, Factor()) == Factor()(juegos[j]);
  }

  /** `mapToDouble(getFactorMultiplicador).average()`: a mean, so between the least and greatest multiplier. */
  function FactorPromedio(juegos: seq<JuegoJSON>): (p: real)
    requires juegos != []
    ensures Lists.Min(juegos, Factor()) <= p <= Lists.Max(juegos, Factor())
    ensures Lists.EsMedia(p, juegos, Factor())
  {
    Lists.MediaEntreExtremos(juegos, Factor());
    Lists.Media(juegos, Factor())
  }
}
