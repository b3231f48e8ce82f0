# unabBet back end in Dafny

unabBet is a student betting platform for the UNAB university. Students
register with an institutional e-mail and hold a balance of APUNAB points.
They place bets on games offered at venues and rate the venues, and the
back end settles the bets. This project models that back end:

- the domain classes of `back_end.Classes`: `Usuario`, `Apuesta` (both
  copies), `Juego`, `Lugar`, `Calificacion` and `SessionManager`;
- the four JSON data-access objects `UsuarioDAO`, `ApuestaDAO`, `JuegoDAO`
  and `LugarDAO`;
- the older in-memory `back_end.Usuario` and `back_end.Lugar`.

## Modules

| module | file | models |
|---|---|---|
| `Common` | common.dfy | Java's `null` as `Option`; thrown exceptions as `Outcome` (`Ok(value)` or `Thrown(error)`), with `PersistenciaException` and `IllegalArgumentException(message)` |
| `Strings` | strings.dfy | the `String` operations the code relies on: `trim`, `isEmpty`, `toLowerCase`, `equalsIgnoreCase`, `endsWith`, `contains`, over ASCII |
| `Lists` | lists.dfy | the `List` and stream operations the code uses (filter, find by id, remove the first match, replace, sort descending, limit, min/max/average), each with its own contract |
| `Ledger` | ledger.dfy | the APUNAB arithmetic: a balance movement that is refused when it would go negative, the potential payout, the stake update step and its rollback |
| `Ratings` | ratings.dfy | the 1..5 score clamp and the average rating |
| `Cuenta` | cuenta.dfy | the registration rules: the e-mail pattern (as an automaton), the institutional domain, the password format, and the first rule a registration breaks |
| `UsuarioDao`, `ApuestaDao`, `JuegoDao`, `LugarDao` | usuario_dao.dfy, apuesta_dao.dfy, juego_dao.dfy, lugar_dao.dfy | each DAO as an object whose `archivo` field is the list of records in its JSON file |
| `Juegos` | juego.dfy | the `Juego` class |
| `Classes` | classes.dfy | `Usuario`, `Lugar`, `Calificacion` and `Apuesta`, which refer to one another and so share a module |
| `Sesion` | sesion.dfy | `SessionManager` and its lazily created singleton |
| `BackEnd` | backend.dfy | the older `back_end.Usuario` and `back_end.Lugar`, with no persistence |

### Modelling choices

- **Classes and fields.** Objects whose fields the methods update are Dafny
  classes, and their methods list exactly the fields they may change. An
  entity's `id` is a `const`. The `equals` methods compare ids, so every
  "contains" and "remove" on a list compares ids. The one comparison written
  with `!=`, of a co-bettor with the bet's owner, compares references.
- **The JSON files.** Each file is a `seq` of records. The stores of the
  model hold the same flat snapshots Gson writes, with references replaced
  by ids.
  - Reading a file always succeeds.
  - Writing it either replaces the contents or throws
    `PersistenciaException` and leaves the file as it was. Which of the two
    happens is a free choice of the model.
- **Order of operations.** Every method keeps the source's order of
  side effects:
  - `actualizarSaldo` changes the balance in memory before it writes the
    record;
  - compensating actions run in the source's order;
  - a compensation that throws inside the `try` block is run a second time
    by the `catch` block, which the contracts state as "one or two
    compensations".
- **Shadowing.** In `actualizarApuesta` the rollback test compares the
  parameter `cantidadAPUNAB`, which shadows the field. In `finalizarApuesta`
  the undo branch tests the parameter `ganada`. The model does the same in
  both places.
- **Validation order.** The order of the registration checks is kept, so
  `Cuenta.ErrorRegistro` names the same first failing rule and message as
  the source.
  - The semester check accepts 1..10, while its message says "1 y 12".
  - `actualizarPerfil` accepts semesters 1..12.
- **The other `Apuesta` copy.** `parcial/src/back_end/Classes/Apuesta.java`
  matches the `Proyecto` copy except in `finalizarApuesta`, which asks a SQL
  store. That store is not part of this model, so its answer is the
  parameter `respuesta` of `Classes.Apuesta.FinalizarApuestaEnBD`.
- **Persistence of `Classes.Usuario`.** `parcial/src/back_end/Classes/Usuario.java`
  persists through a JDBC `UsuarioDAO`, which is not part of this model. It
  is modelled with the JSON `UsuarioDAO` of the `Proyecto` tree, which has
  the same operation names. The two stores match addresses differently;
  "## Left out" says how.
- **Collaborators of `Classes.Usuario`.** `registrarseEnLugar` and
  `darseDeBajaEnLugar` call the `Proyecto` `Lugar`. That class saves the
  venue after every change, so those two methods also take the venue store.

## Model

| member | source | states |
|---|---|---|
| Ledger.NuevoSaldo | parcial/src/back_end/Classes/Usuario.java:280-292 | a movement that would make the balance negative is refused and the balance stays; otherwise it is added; a non-negative balance stays non-negative |
| Ledger.DebitoYReintegro | Proyecto/parcial/src/back_end/Classes/Apuesta.java:89-107 | debiting an affordable stake and crediting it back restores the balance (the compensation of a failed save in crearApuesta) |
| Ledger.ReintegroYDebito | Proyecto/parcial/src/back_end/Classes/Apuesta.java:178-194 | crediting a stake and debiting it again restores a non-negative balance (the compensation of a failed delete in eliminarApuesta) |
| Ledger.Faltantes | parcial/src/back_end/Classes/Usuario.java:247-251 | the points missing to reach 100000 are never negative, are zero exactly when the balance reaches the goal, and otherwise complete it exactly |
| Ledger.GananciaPotencial | Proyecto/parcial/src/back_end/Classes/Apuesta.java:211-216 | without a game the payout is the stake; with a multiplier of at least 1 it is at least the stake, and equals it for a multiplier of 1 |
| Ledger.GananciaMonotona | Proyecto/parcial/src/back_end/Classes/Juego.java:369-371 | a larger stake never pays less, and the payout grows at least as fast as the stake |
| Ledger.Aplicada | Proyecto/parcial/src/back_end/Classes/Apuesta.java:115-134 | the stake after the update step is the new or the old one; it changes only for a raise the balance covers or a positive reduction |
| Ledger.SaldoTrasCambio | Proyecto/parcial/src/back_end/Classes/Apuesta.java:115-134 | balance plus stake is conserved by the update step |
| Ledger.ReversionDuplicaReintegro | Proyecto/parcial/src/back_end/Classes/Apuesta.java:148-166 | stake 40 changed to 20 with balance 100: 120 after the change, 140 after the as-written revert, 100 after the corrected one |
| Ledger.ReversionNoRestaura | Proyecto/parcial/src/back_end/Classes/Apuesta.java:148-166 | whenever the stake changed, the as-written revert does not restore the balance: it moves it by twice the difference again (or once, when the balance cannot cover the second debit) |
| Ledger.ReversionDobleNoRestaura | Proyecto/parcial/src/back_end/Classes/Apuesta.java:143-167 | a revert run twice (try, then catch) does not restore the balance either |
| Ledger.ReversionCorregidaRestaura | Proyecto/parcial/src/back_end/Classes/Apuesta.java:148-166 | with the compensation of opposite sign the revert restores every non-negative balance |
| Ratings.Acotar | Proyecto/parcial/src/back_end/Classes/Calificacion.java:74-82 | the score is always in 1..5, is kept when already in range, and is clamped to the nearer bound otherwise |
| Ratings.AcotarIdempotente | Proyecto/parcial/src/back_end/Classes/Calificacion.java:74-82 | clamping twice is clamping once |
| Ratings.Promedio | Proyecto/parcial/src/back_end/Classes/Lugar.java:269-281 | the average of no ratings is 0; otherwise average times count is the sum |
| Ratings.SumaAgregar | Proyecto/parcial/src/back_end/Classes/Lugar.java:269-281 | the running sum of the loop: adding one score adds it to the sum |
| Ratings.PromedioEnRango | Proyecto/parcial/src/back_end/Classes/Lugar.java:269-281 | the average of a non-empty list of valid scores lies in 1..5 |
| Cuenta.AceptaTerminaEnLetra | parcial/src/back_end/Classes/Usuario.java:118-122 | an address the pattern accepts ends in a letter of the top-level domain |
| Cuenta.CorreoValidoSinBordes | parcial/src/back_end/Classes/Usuario.java:118-122 | an accepted address has no blank at either end, so trimming keeps it |
| Cuenta.CorreoValidoNormalizado | parcial/src/back_end/Classes/Usuario.java:103-105 | an accepted address is non-blank, and its lower-case form is trimmed and non-blank |
| Cuenta.CorreoGuardadoCoincide | parcial/src/back_end/Classes/Usuario.java:105 | the address as stored (trimmed, lower case) equals the typed one ignoring case, and trimming it again keeps it |
| Cuenta.CorreoGuardado | parcial/src/back_end/Classes/Usuario.java:73-105 | an accepted institutional address keeps the @unab.edu.co ending once stored, and storing it again changes nothing |
| Cuenta.ErrorRegistro | parcial/src/back_end/Classes/Usuario.java:56-100 | a blank university id is the first error; a semester error means outside 1..10; an e-mail error means the address is taken; a format error means the password lacks a class of character |
| Cuenta.ErrorRegistroNoneSiValido | parcial/src/back_end/Classes/Usuario.java:56-100 | no rule is broken exactly when every registration rule holds |
| Lists.SortDescEstable | Proyecto/parcial/src/back_end/dao/ApuestaDAO.java:105-115 | the descending sort behind every `sorted(...reversed())` query is stable: for each key, the elements with that key come out in input order |
| Lists.PrefijoEstable | Proyecto/parcial/src/back_end/dao/JuegoDAO.java:275-281 | `sorted` then `limit(n)` keeps, for each key, the first elements of that key in input order |
| UsuarioDao.UsuarioDAO.constructor | Proyecto/parcial/src/back_end/dao/UsuarioDAO.java:87-105 | a new file holds no users |
| UsuarioDao.UsuarioDAO.Escribir | Proyecto/parcial/src/back_end/dao/UsuarioDAO.java:131-137 | the file takes the new list, or it throws PersistenciaException and keeps the old one |
| UsuarioDao.UsuarioDAO.GuardarUsuario | Proyecto/parcial/src/back_end/dao/UsuarioDAO.java:142-161 | false exactly for null or an id already stored; success appends the record and adds one to the count; anything else leaves the file |
| UsuarioDao.UsuarioDAO.BuscarPorId | Proyecto/parcial/src/back_end/dao/UsuarioDAO.java:166-178 | nothing exactly for a blank id or an id not stored; otherwise the first stored record with that id |
| UsuarioDao.UsuarioDAO.ContarUsuarios | Proyecto/parcial/src/back_end/dao/UsuarioDAO.java:288-291 | the number of stored users, zero exactly when no id is stored |
| UsuarioDao.UsuarioDAO.BuscarPorCorreo | Proyecto/parcial/src/back_end/dao/UsuarioDAO.java:183-195 | nothing exactly for a blank address or one no record has (trimmed, ignoring case); otherwise the first stored record with that address, as `findFirst` returns it |
| UsuarioDao.UsuarioDAO.BuscarPorCorreoAgregado | Proyecto/parcial/src/back_end/dao/UsuarioDAO.java:183-195 | a user appended under an address nobody had is the one found by that address |
| UsuarioDao.UsuarioDAO.ExisteCorreoSiHayRegistro | Proyecto/parcial/src/back_end/dao/UsuarioDAO.java:200-202 | an address some record has (ignoring case and blanks) is reported as taken |
| UsuarioDao.UsuarioDAO.ExisteCorreo | Proyecto/parcial/src/back_end/dao/UsuarioDAO.java:200-202 | true exactly for a non-blank address that some stored record has, trimmed and ignoring case |
| UsuarioDao.UsuarioDAO.ActualizarUsuario | Proyecto/parcial/src/back_end/dao/UsuarioDAO.java:221-238 | false exactly for null or an unknown id; success rewrites that user's record only; anything else leaves the file |
| UsuarioDao.UsuarioDAO.ActualizarContrasena | Proyecto/parcial/src/back_end/dao/UsuarioDAO.java:243-260 | false exactly for a null argument or an unknown id; success changes the password of the first record with that id and nothing else |
| UsuarioDao.UsuarioDAO.EliminarUsuario | Proyecto/parcial/src/back_end/dao/UsuarioDAO.java:265-283 | false exactly for a blank or unknown id; success removes every record with that id and lowers the count |
| UsuarioDao.SoloRegistroDeTransitivo | Proyecto/parcial/src/back_end/dao/UsuarioDAO.java:221-238 | two writes that each touch only one user's record together touch only that record |
| UsuarioDao.ReemplazoSoloRegistroDe | Proyecto/parcial/src/back_end/dao/UsuarioDAO.java:221-238 | replacing a user's record leaves every other record as it was |
| ApuestaDao.ApuestaDAO.constructor | Proyecto/parcial/src/back_end/dao/ApuestaDAO.java:30-46 | a new file holds no bets |
| ApuestaDao.ApuestaDAO.Escribir | Proyecto/parcial/src/back_end/dao/ApuestaDAO.java:258-266 | the file takes the new list, or it throws PersistenciaException and keeps the old one |
| ApuestaDao.ApuestaDAO.GuardarApuesta | Proyecto/parcial/src/back_end/dao/ApuestaDAO.java:51-68 | a duplicate id throws; success appends the bet; it never answers false |
| ApuestaDao.ApuestaDAO.GuardadaSeEncuentra | Proyecto/parcial/src/back_end/dao/ApuestaDAO.java:223-231 | a bet just saved exists and is the one found by its id |
| ApuestaDao.ApuestaDAO.ExisteApuesta | Proyecto/parcial/src/back_end/dao/ApuestaDAO.java:223-231 | true exactly when some stored bet has the id, which is exactly when buscarPorId finds one |
| ApuestaDao.ApuestaDAO.BuscarPorId | Proyecto/parcial/src/back_end/dao/ApuestaDAO.java:73-84 | nothing exactly when no stored bet has the id; otherwise the first one that does |
| ApuestaDao.ApuestaDAO.BuscarPorUsuario | Proyecto/parcial/src/back_end/dao/ApuestaDAO.java:89-100 | exactly that user's bets, with their multiplicities, newest first; bets of equal date stay in file order, as the stable `sorted` keeps them |
| ApuestaDao.ApuestaDAO.ObtenerTodasLasApuestas | Proyecto/parcial/src/back_end/dao/ApuestaDAO.java:105-115 | a permutation of the file, newest first; bets of equal date stay in file order |
| ApuestaDao.ApuestaDAO.ObtenerApuestasActivas | Proyecto/parcial/src/back_end/dao/ApuestaDAO.java:120-131 | exactly the unsettled bets, newest first; bets of equal date stay in file order |
| ApuestaDao.ApuestaDAO.ActualizarApuesta | Proyecto/parcial/src/back_end/dao/ApuestaDAO.java:136-153 | false exactly for an unknown id; success replaces that bet, which is then the one found by its id |
| ApuestaDao.ApuestaDAO.EliminarApuesta | Proyecto/parcial/src/back_end/dao/ApuestaDAO.java:183-197 | false exactly for an unknown id; success leaves no bet with that id |
| ApuestaDao.ApuestaDAO.EliminarApuestasPorUsuario | Proyecto/parcial/src/back_end/dao/ApuestaDAO.java:202-218 | false exactly when the user has no bets; success leaves the user none and keeps every other bet |
| JuegoDao.JuegoDAO.constructor | Proyecto/parcial/src/back_end/dao/JuegoDAO.java:51-64 | a new file holds no games |
| JuegoDao.JuegoDAO.Escribir | Proyecto/parcial/src/back_end/dao/JuegoDAO.java:84-90 | the file takes the new list, or it throws PersistenciaException and keeps the old one |
| JuegoDao.JuegoDAO.GuardarJuego | Proyecto/parcial/src/back_end/dao/JuegoDAO.java:95-113 | false exactly for null or a duplicate id; success appends the game |
| JuegoDao.JuegoDAO.ActualizarJuego | Proyecto/parcial/src/back_end/dao/JuegoDAO.java:118-134 | false exactly for null or an unknown id; success replaces that game's record |
| JuegoDao.JuegoDAO.EliminarJuegoFisico | Proyecto/parcial/src/back_end/dao/JuegoDAO.java:139-152 | false exactly for a blank or unknown id; success leaves no game with that id |
| JuegoDao.JuegoDAO.BuscarPorId | Proyecto/parcial/src/back_end/dao/JuegoDAO.java:157-167 | nothing exactly for a blank or unknown id; otherwise the first stored game with that id |
| JuegoDao.JuegoDAO.BuscarPorNombre | Proyecto/parcial/src/back_end/dao/JuegoDAO.java:172-182 | a blank query finds nothing; otherwise exactly the games whose name contains it, ignoring case |
| JuegoDao.JuegoDAO.ObtenerJuegosActivos | Proyecto/parcial/src/back_end/dao/JuegoDAO.java:194-199 | exactly the active games |
| JuegoDao.JuegoDAO.ObtenerJuegosPorFactor | Proyecto/parcial/src/back_end/dao/JuegoDAO.java:204-209 | a permutation of the file, highest multiplier first; games of equal multiplier stay in file order |
| JuegoDao.JuegoDAO.NombreRegistradoExiste | Proyecto/parcial/src/back_end/dao/JuegoDAO.java:214-227 | a name some game has (ignoring case, query trimmed) is reported as existing |
| JuegoDao.JuegoDAO.ExisteJuego | Proyecto/parcial/src/back_end/dao/JuegoDAO.java:214-227 | true exactly for a non-blank name that some stored game has, compared ignoring case with the trimmed query |
| JuegoDao.JuegoDAO.ContarJuegos | Proyecto/parcial/src/back_end/dao/JuegoDAO.java:232-234 | the number of stored games, zero exactly when no id is stored |
| JuegoDao.JuegoDAO.ContarJuegosActivos | Proyecto/parcial/src/back_end/dao/JuegoDAO.java:239-244 | the number of active games, at most the total, and zero exactly when none is active |
| JuegoDao.JuegoDAO.BuscarPorRangoFactor | Proyecto/parcial/src/back_end/dao/JuegoDAO.java:249-256 | exactly the games whose multiplier lies in the closed range |
| JuegoDao.JuegoDAO.BuscarPorRangoFechas | Proyecto/parcial/src/back_end/dao/JuegoDAO.java:261-270 | exactly the games created strictly between the two instants |
| JuegoDao.JuegoDAO.ObtenerJuegosRecientes | Proyecto/parcial/src/back_end/dao/JuegoDAO.java:275-281 | a negative limit throws; otherwise min(limit, count) stored games, newest first, and no game left out is newer than a game kept; among games of one date, those kept are the first ones in file order |
| JuegoDao.JuegoDAO.ObtenerEstadisticas | Proyecto/parcial/src/back_end/dao/JuegoDAO.java:286-314 | all zero for no games; active plus inactive is the total; the minimum and the maximum are multipliers of stored games and every multiplier lies between them; the average times the count is the sum of the multipliers |
| JuegoDao.FactorPromedio | Proyecto/parcial/src/back_end/dao/JuegoDAO.java:297-300 | the average multiplier of a non-empty list lies between its minimum and its maximum, and times the count it is the sum |
| LugarDao.LugarDAO.constructor | Proyecto/parcial/src/back_end/dao/LugarDAO.java:25-38 | a new file holds no venues |
| LugarDao.LugarDAO.Escribir | Proyecto/parcial/src/back_end/dao/LugarDAO.java:58-64 | the file takes the new list, or it throws PersistenciaException and keeps the old one |
| LugarDao.LugarDAO.GuardarLugar | Proyecto/parcial/src/back_end/dao/LugarDAO.java:69-87 | false exactly for null or a duplicate id; success appends the venue |
| LugarDao.LugarDAO.ActualizarLugar | Proyecto/parcial/src/back_end/dao/LugarDAO.java:92-108 | false exactly for null or an unknown id; success replaces that venue's record |
| LugarDao.LugarDAO.EliminarLugar | Proyecto/parcial/src/back_end/dao/LugarDAO.java:113-126 | false exactly for a blank or unknown id; success leaves no venue with that id |
| LugarDao.LugarDAO.BuscarPorId | Proyecto/parcial/src/back_end/dao/LugarDAO.java:131-141 | nothing exactly for a blank or unknown id; otherwise the first stored venue with that id |
| LugarDao.LugarDAO.BuscarPorNombre | Proyecto/parcial/src/back_end/dao/LugarDAO.java:146-156 | a blank query finds nothing; otherwise exactly the venues whose name contains it, ignoring case |
| LugarDao.LugarDAO.ObtenerLugaresPorCalificacion | Proyecto/parcial/src/back_end/dao/LugarDAO.java:168-174 | a permutation of the file, best rated first; venues of equal average stay in file order |
| LugarDao.LugarDAO.ParRegistradoExiste | Proyecto/parcial/src/back_end/dao/LugarDAO.java:179-193 | a stored (name, address) pair, compared ignoring case against the trimmed query, is reported as existing |
| LugarDao.LugarDAO.ExisteLugar | Proyecto/parcial/src/back_end/dao/LugarDAO.java:179-193 | true exactly when name and address are not null and some stored venue has both, compared ignoring case with the trimmed query |
| LugarDao.LugarDAO.ContarLugares | Proyecto/parcial/src/back_end/dao/LugarDAO.java:198-200 | the number of stored venues, zero exactly when no id is stored |
| LugarDao.LugarDAO.BuscarPorRangoCalificacion | Proyecto/parcial/src/back_end/dao/LugarDAO.java:205-212 | exactly the venues whose average rating lies in the closed range |
| Juegos.AcotarFactor | Proyecto/parcial/src/back_end/Classes/Juego.java:410-412 | the multiplier is at least 1.0, is kept when it already is, and becomes 1.0 otherwise |
| Juegos.DatosTras | Proyecto/parcial/src/back_end/Classes/Juego.java:92-114 | an update keeps a valid multiplier valid, and one with nothing to change changes nothing |
| Juegos.Juego.constructor | Proyecto/parcial/src/back_end/Classes/Juego.java:21-28 | a new game is active, created now, with its multiplier clamped to at least 1.0 |
| Juegos.Juego.Cargar | Proyecto/parcial/src/back_end/Classes/Juego.java:31-39 | a loaded game keeps its values, with the multiplier clamped and a missing date replaced by now |
| Juegos.Juego.SetFactorMultiplicador | Proyecto/parcial/src/back_end/Classes/Juego.java:410-412 | the multiplier is clamped, so the game stays valid |
| Juegos.Juego.CalcularGananciaPotencial | Proyecto/parcial/src/back_end/Classes/Juego.java:369-371 | the payout of a valid game is at least the stake |
| Juegos.Juego.GetEstadoTexto | Proyecto/parcial/src/back_end/Classes/Juego.java:376-378 | "Activo" exactly for an active game and "Inactivo" exactly for an inactive one |
| Juegos.Juego.CrearJuego | Proyecto/parcial/src/back_end/Classes/Juego.java:50-81 | a blank name, a multiplier below 1.0 or a taken name answers false with nothing changed; otherwise the trimmed values are taken, the game is active, and success appends it to the store |
| Juegos.Juego.ActualizarJuego | Proyecto/parcial/src/back_end/Classes/Juego.java:86-139 | a taken name changes nothing; a multiplier below 1.0 answers false but keeps the name and description already changed; no change answers false; success writes the new values; a failed write restores all three |
| Juegos.Juego.EliminarJuego | Proyecto/parcial/src/back_end/Classes/Juego.java:144-162 | success leaves the game inactive and written; failure leaves it active and the file as it was |
| Juegos.Juego.EliminarJuegoCompleto | Proyecto/parcial/src/back_end/Classes/Juego.java:167-174 | success removes every stored record of the game; failure changes nothing |
| Juegos.Juego.ReactivarJuego | Proyecto/parcial/src/back_end/Classes/Juego.java:179-199 | an active game answers true without writing; otherwise success leaves it active and written, and failure leaves it inactive |
| Juegos.Juego.ConsultarJuego | Proyecto/parcial/src/back_end/Classes/Juego.java:204-221 | a stored game is reloaded, so the object then matches the stored record, which is returned; otherwise nothing changes |
| Juegos.Juego.GuardarCambios | Proyecto/parcial/src/back_end/Classes/Juego.java:226-233 | an unknown game answers false; success rewrites its record; failure leaves the file |
| Classes.QuitarApostador | Proyecto/parcial/src/back_end/Classes/Apuesta.java:277-292 | removing a co-bettor from a list without repeats keeps it without repeats and leaves no entry for that user |
| Classes.AgregarApostadorDistinto | Proyecto/parcial/src/back_end/Classes/Apuesta.java:260-275 | appending a user not yet in the list keeps it without repeats |
| Classes.Usuario.constructor | parcial/src/back_end/Classes/Usuario.java:24-36 | a new user has balance 0, no bets and no venues |
| Classes.Usuario.Cargar | Proyecto/parcial/src/back_end/dao/UsuarioDAO.java:38-53 | loading a record and writing it back gives the same record (round trip) |
| Classes.Usuario.Registrarse | parcial/src/back_end/Classes/Usuario.java:52-116 | the first broken rule throws its message with nothing changed; otherwise the user keeps the trimmed data, the lower-case trimmed e-mail and the password's hash, and is appended to the store unless the id exists |
| Classes.Usuario.ValidarRegistro | parcial/src/back_end/Classes/Usuario.java:56-100 | the checks in source order find the first broken rule; passing them all means no input is null |
| Classes.Usuario.Asentar | parcial/src/back_end/Classes/Usuario.java:102-116 | the fields take the normalised values and the save answers false exactly for an id already stored |
| Classes.Usuario.ValidarFormatoContrasena | parcial/src/back_end/Classes/Usuario.java:124-141 | the one-pass scan accepts exactly the passwords with an upper-case letter, a lower-case letter and a digit |
| Classes.Usuario.IniciarSesion | parcial/src/back_end/Classes/Usuario.java:163-181 | a blank e-mail fails; a login returns a stored user whose hash is that of the password; a failure means no such user or another hash |
| Classes.Usuario.RegistroPermiteIniciarSesion | parcial/src/back_end/Classes/Usuario.java:163-181 | after a registration the user logs in with the address as typed and the same password, and with no password of another hash |
| Classes.Usuario.RegistroPermiteIniciarSesionConCorreoGuardado | parcial/src/back_end/Classes/Usuario.java:163-181 | the user also logs in with the address as it was stored |
| Classes.Usuario.ActualizarPerfil | parcial/src/back_end/Classes/Usuario.java:199-217 | each non-blank text field takes its trimmed value, the semester changes only within 1..12, and the store rewrites only this user's record |
| Classes.Usuario.CambiarContrasena | parcial/src/back_end/Classes/Usuario.java:219-241 | a wrong current password or an unacceptable new one answers false with nothing changed; otherwise the new hash is kept and written into this user's record only |
| Classes.Usuario.CalcularAPUNABFaltantes | parcial/src/back_end/Classes/Usuario.java:247-251 | never negative, zero exactly when the balance reaches 100000, and otherwise exactly 100000 minus the balance |
| Classes.Usuario.ActualizarSaldo | parcial/src/back_end/Classes/Usuario.java:280-292 | a movement to a negative balance is refused with no write; otherwise the balance moves before the write and stays moved when the write fails; only this user's record is touched |
| Classes.Usuario.RegistrarseEnLugar | parcial/src/back_end/Classes/Usuario.java:253-261 | succeeds exactly for a venue not yet registered; both sides then list each other, the user's venues stay without repeats, and the venue's other lists are untouched |
| Classes.Usuario.DarseDeBajaEnLugar | parcial/src/back_end/Classes/Usuario.java:263-271 | succeeds exactly for a registered venue; both sides then drop each other |
| Classes.Usuario.AgregarApuesta | parcial/src/back_end/Classes/Usuario.java:273-278 | a non-null bet is appended to the history; null is ignored |
| Classes.Usuario.Eliminar | parcial/src/back_end/Classes/Usuario.java:298-301 | false exactly for a blank or unknown id; success leaves no record of the user |
| Classes.Lugar.constructor | Proyecto/parcial/src/back_end/Classes/Lugar.java:36-45 | a venue starts with the given values and empty lists |
| Classes.Lugar.CrearLugar | Proyecto/parcial/src/back_end/Classes/Lugar.java:57-81 | a blank name or address, or an existing pair, answers false with nothing changed; otherwise the values are taken untrimmed and success appends the venue |
| Classes.Lugar.NombreConEspaciosSeDuplica | Proyecto/parcial/src/back_end/Classes/Lugar.java:65-73 | a venue created with a leading blank in its name is not found by the duplicate check it passed |
| Classes.Lugar.CrearLugarCorregido | Proyecto/parcial/src/back_end/Classes/Lugar.java:57-81 | storing trimmed values, a venue just created is found by the duplicate check |
| Classes.Lugar.ActualizarLugar | Proyecto/parcial/src/back_end/Classes/Lugar.java:86-115 | each given field changes (blank name and address ignored); success needs a change and an existing record, and rewrites that record |
| Classes.Lugar.EliminarLugar | Proyecto/parcial/src/back_end/Classes/Lugar.java:120-138 | the lists are emptied; success removes every stored record of the venue |
| Classes.Lugar.ConsultarLugar | Proyecto/parcial/src/back_end/Classes/Lugar.java:143-158 | a stored venue reloads its name, address, description and rating, and the record is returned; otherwise nothing changes |
| Classes.Lugar.GuardarCambios | Proyecto/parcial/src/back_end/Classes/Lugar.java:211-218 | success needs an existing record and rewrites it; failure leaves the file |
| Classes.Lugar.AgregarJuego | Proyecto/parcial/src/back_end/Classes/Lugar.java:221-228 | succeeds exactly for a game not yet offered, which is appended; the list stays without repeats |
| Classes.Lugar.EliminarJuego | Proyecto/parcial/src/back_end/Classes/Lugar.java:230-237 | succeeds exactly for an offered game, which is then no longer offered |
| Classes.Lugar.RegistrarUsuario | Proyecto/parcial/src/back_end/Classes/Lugar.java:240-247 | succeeds exactly for a user not yet registered, who is appended; the list stays without repeats |
| Classes.Lugar.QuitarUsuario | Proyecto/parcial/src/back_end/Classes/Lugar.java:249-256 | succeeds exactly for a registered user, who is then no longer registered |
| Classes.Lugar.AgregarCalificacion | Proyecto/parcial/src/back_end/Classes/Lugar.java:259-267 | a non-null rating is appended and the average is recomputed, staying in 1..5 for valid ratings |
| Classes.Lugar.ActualizarCalificacionPromedio | Proyecto/parcial/src/back_end/Classes/Lugar.java:269-281 | the loop leaves the average of the scores, in 1..5 when they are valid |
| Classes.Calificacion.constructor | Proyecto/parcial/src/back_end/Classes/Calificacion.java:18-34 | the score is clamped into 1..5, a null comment becomes "" and a missing date becomes now |
| Classes.Calificacion.SetPuntuacion | Proyecto/parcial/src/back_end/Classes/Calificacion.java:74-82 | the score is clamped into 1..5 |
| Classes.Calificacion.SetComentario | Proyecto/parcial/src/back_end/Classes/Calificacion.java:104-106 | a null comment becomes "" |
| Classes.Calificacion.CalificarLugar | Proyecto/parcial/src/back_end/Classes/Calificacion.java:36-48 | fails exactly for a null user or venue; otherwise the rating joins the venue, whose average stays in 1..5 |
| Classes.Calificacion.ActualizarCalificacion | Proyecto/parcial/src/back_end/Classes/Calificacion.java:50-72 | only a different in-range score changes it; a given comment replaces the old one; the date moves exactly when something changed |
| Classes.Apuesta.constructor | Proyecto/parcial/src/back_end/Classes/Apuesta.java:32-44 | the stake is never negative; the bet starts open with no co-bettors and its payout computed |
| Classes.Apuesta.ConApostadores | Proyecto/parcial/src/back_end/Classes/Apuesta.java:46-51 | as the constructor, with the given co-bettors |
| Classes.Apuesta.Cargar | Proyecto/parcial/src/back_end/Classes/Apuesta.java:53-65 | a loaded bet keeps its values, with a non-negative stake, a missing date replaced by now and missing co-bettors by none |
| Classes.Apuesta.CalcularGananciaPotencial | Proyecto/parcial/src/back_end/Classes/Apuesta.java:211-216 | the stake without a game; otherwise the game's payout, at least the stake |
| Classes.Apuesta.GetEstadoTexto | Proyecto/parcial/src/back_end/Classes/Apuesta.java:414-422 | "En progreso", "Ganada" or "Perdida", each exactly in its state |
| Classes.Apuesta.SetCantidadAPUNAB | Proyecto/parcial/src/back_end/Classes/Apuesta.java:361-364 | the payout follows the new stake |
| Classes.Apuesta.ConsultarApuesta | Proyecto/parcial/src/back_end/Classes/Apuesta.java:197-209 | the stored copy of the bet when there is one, this bet otherwise |
| Classes.Apuesta.CrearApuesta | Proyecto/parcial/src/back_end/Classes/Apuesta.java:67-108 | without a bettor, venue or game, or with a stake that is not positive or not covered, nothing changes; success debits the stake, records the bet in the history and stores it; a failed save credits the stake back |
| Classes.Apuesta.Colocar | Proyecto/parcial/src/back_end/Classes/Apuesta.java:89-107 | the debit, history entry and save of crearApuesta, with the compensation of a failed save |
| Classes.Apuesta.CambiarCantidad | Proyecto/parcial/src/back_end/Classes/Apuesta.java:115-134 | the stake moves as the update step allows and balance plus stake is conserved; the payout follows a changed stake |
| Classes.Apuesta.Revertir | Proyecto/parcial/src/back_end/Classes/Apuesta.java:148-166 | the compensation as written: the balance moves by the given difference and the stake goes back |
| Classes.Apuesta.PersistirCambio | Proyecto/parcial/src/back_end/Classes/Apuesta.java:143-167 | a stored bet is rewritten with nothing reverted; otherwise the stake goes back and the compensation runs once or twice |
| Classes.Apuesta.ActualizarApuesta | Proyecto/parcial/src/back_end/Classes/Apuesta.java:110-171 | a settled bet changes nothing; success conserves balance plus stake and rewrites the bet; a refused or failed save reverts the stake but moves the balance as the as-written compensation does |
| Classes.Apuesta.ActualizarApuestaCorregida | Proyecto/parcial/src/back_end/Classes/Apuesta.java:110-171 | as the source, but a refused save restores the balance exactly |
| Classes.Apuesta.EliminarApuesta | Proyecto/parcial/src/back_end/Classes/Apuesta.java:173-195 | a settled bet changes nothing; success credits the stake and removes the bet; a failed delete debits it again, once or twice |
| Classes.Apuesta.DebitarDeNuevo | Proyecto/parcial/src/back_end/Classes/Apuesta.java:181-194 | after a failed delete the stake is debited again, once or twice (try, then catch) |
| Classes.Apuesta.Liquidar | Proyecto/parcial/src/back_end/Classes/Apuesta.java:223-231 | the bet is settled; a win credits the payout, a loss pays nothing |
| Classes.Apuesta.DeshacerLiquidacion | Proyecto/parcial/src/back_end/Classes/Apuesta.java:238-255 | the settlement is undone: flags cleared and, for a win, the payout debited |
| Classes.Apuesta.ConcluirLiquidacion | Proyecto/parcial/src/back_end/Classes/Apuesta.java:234-257 | a stored settlement stands; otherwise it is undone, the payout debited once or twice for a win |
| Classes.Apuesta.FinalizarApuesta | Proyecto/parcial/src/back_end/Classes/Apuesta.java:218-258 | a settled bet changes nothing; success settles and stores it, crediting a win's payout; a failed save leaves it open with the payout taken back |
| Classes.Apuesta.FinalizarApuestaEnBD | parcial/src/back_end/Classes/Apuesta.java:213-253 | the same settlement against the SQL store's answer |
| Classes.Apuesta.AgregarApostador | Proyecto/parcial/src/back_end/Classes/Apuesta.java:260-275 | a new co-bettor other than the owner is appended and the bet stored; the list keeps no repeats, no null and not the owner |
| Classes.Apuesta.EliminarApostador | Proyecto/parcial/src/back_end/Classes/Apuesta.java:277-292 | a listed co-bettor is removed and the bet stored; a failed save puts them back |
| Sesion.SessionManager.constructor | Proyecto/parcial/src/back_end/Classes/SessionManager.java:8-10 | nobody is logged in |
| Sesion.SessionManager.SetUsuarioActual | Proyecto/parcial/src/back_end/Classes/SessionManager.java:19-21 | the user given becomes the current user; somebody is logged in exactly when it is not null |
| Sesion.SessionManager.GetUsuarioActual | Proyecto/parcial/src/back_end/Classes/SessionManager.java:23-25 | the current user, null exactly when nobody is logged in |
| Sesion.SessionManager.HayUsuarioLogueado | Proyecto/parcial/src/back_end/Classes/SessionManager.java:27-29 | true exactly when the current user is not null |
| Sesion.SessionManager.CerrarSesion | Proyecto/parcial/src/back_end/Classes/SessionManager.java:31-33 | nobody is logged in and the name shown is "Usuario no encontrado" |
| Sesion.SessionManager.GetNombreUsuario | Proyecto/parcial/src/back_end/Classes/SessionManager.java:35-39 | the placeholder when nobody is logged in; otherwise the name, one space and the surname |
| Sesion.SesionGlobal.constructor | Proyecto/parcial/src/back_end/Classes/SessionManager.java:5 | no instance exists yet |
| Sesion.SesionGlobal.GetInstance | Proyecto/parcial/src/back_end/Classes/SessionManager.java:12-17 | the first call creates the instance with nobody logged in; later calls return the same one |
| BackEnd.Usuario.constructor | parcial/src/back_end/Usuario.java:24-36 | a new user has balance 0, no bets and no venues |
| BackEnd.Usuario.Cargar | parcial/src/back_end/Usuario.java:38-51 | a loaded user keeps the given balance, with no bets and no venues |
| BackEnd.Usuario.Registrarse | parcial/src/back_end/Usuario.java:53-64 | every field takes the given value and the answer is true |
| BackEnd.Usuario.IniciarSesion | parcial/src/back_end/Usuario.java:66-69 | true exactly when both e-mail and password equal the stored ones; the stored password is needed only when the e-mails match, as `&&` short-circuits |
| BackEnd.Usuario.ActualizarPerfil | parcial/src/back_end/Usuario.java:75-93 | as written: the name is assigned when either the name or the uid is non-blank, so a non-blank uid with a null name erases the name |
| BackEnd.Usuario.ActualizarPerfilCorregido | parcial/src/back_end/Usuario.java:75-93 | a non-blank uid sets the uid, a non-blank name sets the name, and a name is never erased |
| BackEnd.Usuario.CambiarContrasena | parcial/src/back_end/Usuario.java:95-101 | succeeds exactly when the current password matches, and only then is the new one kept |
| BackEnd.Usuario.CalcularAPUNABFaltantes | parcial/src/back_end/Usuario.java:107-111 | never negative, zero exactly when the balance reaches 100000, and otherwise exactly 100000 minus the balance |
| BackEnd.Usuario.ActualizarSaldo | parcial/src/back_end/Usuario.java:137-144 | succeeds exactly when the balance stays non-negative, and only then does it move |
| BackEnd.Usuario.AgregarApuesta | parcial/src/back_end/Usuario.java:131-135 | a non-null bet is appended; null is ignored |
| BackEnd.Usuario.RegistrarseEnLugar | parcial/src/back_end/Usuario.java:113-120 | succeeds exactly for a venue not yet registered; both sides then list each other |
| BackEnd.Usuario.DarseDeBajaEnLugar | parcial/src/back_end/Usuario.java:122-129 | succeeds exactly for a registered venue; both sides then drop each other |
| BackEnd.Lugar.constructor | parcial/src/back_end/Lugar.java:19-28 | a new venue has rating 0 and empty lists |
| BackEnd.Lugar.Cargar | parcial/src/back_end/Lugar.java:30-39 | a loaded venue keeps the given rating, with empty lists |
| BackEnd.Lugar.CrearLugar | parcial/src/back_end/Lugar.java:41-53 | succeeds exactly for a non-blank name and address; a null description becomes "" |
| BackEnd.Lugar.ActualizarLugar | parcial/src/back_end/Lugar.java:55-74 | each given field changes (blank name and address ignored); true exactly when one did |
| BackEnd.Lugar.EliminarLugar | parcial/src/back_end/Lugar.java:76-87 | the three lists are emptied and the answer is true |
| BackEnd.Lugar.ConsultarLugar | parcial/src/back_end/Lugar.java:89-91 | the venue itself |
| BackEnd.Lugar.AgregarJuego | parcial/src/back_end/Lugar.java:93-99 | succeeds exactly for a game not yet offered; the list stays without repeats |
| BackEnd.Lugar.EliminarJuego | parcial/src/back_end/Lugar.java:101-107 | succeeds exactly for an offered game, which is then no longer offered |
| BackEnd.Lugar.RegistrarUsuario | parcial/src/back_end/Lugar.java:109-115 | succeeds exactly for a user not yet registered; the list stays without repeats |
| BackEnd.Lugar.QuitarUsuario | parcial/src/back_end/Lugar.java:117-123 | succeeds exactly for a registered user, who is then no longer registered |
| BackEnd.Lugar.AgregarCalificacion | parcial/src/back_end/Lugar.java:125-132 | a non-null rating is appended and the average recomputed, in 1..5 for valid ratings |
| BackEnd.Lugar.ActualizarCalificacionPromedio | parcial/src/back_end/Lugar.java:134-146 | the loop leaves the average of the scores, in 1..5 when they are valid |

## Left out

- I/O plumbing is not modelled: Gson, file creation, `System.err` logging and the `LocalDateTime` adapters. A store read never fails in the model. A store write fails or succeeds freely.
- The UUIDs and `LocalDateTime.now()` are inputs (`id`, `ahora`). Instants are integers.
- SHA-256 (`cifrarContraseña`) is the function parameter `sha256`, so nothing is assumed about its output.
- `double` is modelled as an exact `real`, with no rounding.
- The SQL store behind `parcial/src/back_end/Classes/Apuesta.java` and `parcial/src/back_end/dao/UsuarioDAO.java` is not part of this model (see "Modelling choices" above).
- `ApuestaDAO.finalizarApuesta` (Proyecto/parcial/src/back_end/dao/ApuestaDAO.java:158-178) is not modelled. `Apuesta.finalizarApuesta` goes through `actualizarApuesta` instead.
- The static delegations of `Apuesta`, `Juego` and `Lugar` (`buscarPorId`, `obtenerTodas…`, `existe…`, `contar…`) are not modelled separately. They only forward to the DAO operations modelled here and turn an exception into `null`, `false` or an empty list.
- Getters, setters without logic, `toString` and `hashCode` are not modelled. `equals` is the comparison by id used throughout.
- `Classes.Apuesta.CrearApuesta`: the branch for a save that answers false is left out. `ApuestaDAO.guardarApuesta` never answers false (`ApuestaDao.ApuestaDAO.GuardarApuesta` proves this), so that branch cannot run.
- `Classes.Apuesta.ActualizarApuesta` (and the other bet methods) require a non-null bettor wherever the source would dereference it. They leave out the paths where Java throws on a null dereference. This over-requires slightly when no stake change is attempted.
- `Classes.Lugar.EliminarLugar` and `BackEnd.Lugar.EliminarLugar` leave out the loop that unregisters every user. That loop removes users from the list it is iterating over. In Java this throws `ConcurrentModificationException` or stops early, depending on the list's size, and the iterator's state is not modelled.
- `Classes.Calificacion.ActualizarCalificacion` does not recompute the venue's average, because the source does not either.
- A bet's history entry in `back_end.Usuario` is any object. The older `back_end.Juego`, `back_end.Calificacion` and `back_end.Apuesta` are not part of this model, so `BackEnd.Lugar` uses `Juegos.Juego` and `Classes.Calificacion`, both compared by id.
- Java's Unicode case mapping is not modelled: `toLowerCase`, `equalsIgnoreCase` and `trim` are modelled over ASCII.
- `Cuenta.ErrorRegistro` checks the password format with ASCII classes (`A`-`Z`, `a`-`z`, `0`-`9`), while `validarFormatoContraseña` uses Java's Unicode `Character.isUpperCase`, `isLowerCase` and `isDigit`. A password such as "Ñandú123" is accepted by Java and refused by the model. The length rule counts Dafny characters, while `String.length()` counts UTF-16 code units.
- `Classes.Usuario.ValidarFormatoContrasena` accepts exactly the passwords with an ASCII upper-case letter, an ASCII lower-case letter and an ASCII digit; Java's Unicode character classes accept more.
- `Classes.Usuario.ValidarRegistro` inherits the ASCII password classes and the character-count length rule of `Cuenta.ErrorRegistro`.
- `Classes.Usuario.Registrarse` inherits the ASCII password classes and the character-count length rule. Its duplicate-address check uses the JSON store's `existeCorreo`, which trims and ignores case. The JDBC store of `parcial/src/back_end/dao/UsuarioDAO.java` instead compares the address as given with SQL `=`, and answers false when the query throws `SQLException`.
- `Classes.Usuario.CambiarContrasena` inherits the ASCII password classes and the character-count length rule.
- `Classes.Usuario.IniciarSesion` looks the user up with the JSON store's `buscarPorCorreo`, which trims and ignores case. The JDBC store compares the address as given with SQL `=`, and its `SQLException` becomes a `PersistenciaException`. These differences are not modelled.
- `Juegos.Juego.ConsultarJuego`, `Classes.Lugar.ConsultarLugar` and `Classes.Apuesta.ConsultarApuesta` return the stored record rather than a new object built from it, so object identity of the answer is not modelled.
- `BackEnd.Usuario.IniciarSesion` requires a stored e-mail, and a stored password whenever the e-mails match. Java throws on a null dereference there (parcial/src/back_end/Usuario.java:68), a state that `registrarse` and both constructors can produce; that exception is not modelled.
- `BackEnd.Usuario.CambiarContrasena` requires a stored password. Java throws on a null dereference there (parcial/src/back_end/Usuario.java:96), a state that `registrarse` and both constructors can produce; that exception is not modelled.
- `Classes.Calificacion.GetNombreUsuario` and `Classes.Calificacion.GetNombreLugar` are plain functions with no contract.

## Findings

| source | as written | input that shows it | evidently intended | confidence | as-written member | corrected member |
|---|---|---|---|---|---|---|
| Proyecto/parcial/src/back_end/Classes/Apuesta.java:148-166 | when saving an updated stake fails, the compensation adds `cantidadAnterior - this.cantidadAPUNAB`, which has the same sign as the change already applied, so the balance moves twice instead of back (also in parcial/src/back_end/Classes/Apuesta.java:143-161) | stake 40 lowered to 20 with balance 100: 120 after the change, 140 after the revert | the balance returns to 100 | not executed | Classes.Apuesta.ActualizarApuesta, Ledger.ReversionDuplicaReintegro, Ledger.ReversionNoRestaura | Classes.Apuesta.ActualizarApuestaCorregida, Ledger.ReversionCorregidaRestaura |
| Proyecto/parcial/src/back_end/Classes/Lugar.java:65-73 | `crearLugar` stores the name and address untrimmed, while `LugarDAO.existeLugar` compares stored names with the trimmed query | creating " Casino" at "Calle 1" twice creates two venues | a venue that was just created is found by the duplicate check | not executed | Classes.Lugar.CrearLugar, Classes.Lugar.NombreConEspaciosSeDuplica | Classes.Lugar.CrearLugarCorregido |
| parcial/src/back_end/Usuario.java:76-78 | `actualizarPerfil` assigns the name when the uid is non-blank, and never assigns the uid | uid "A1" with a null name: the name becomes null and the uid stays | a non-blank uid sets the uid; the name changes only for a non-blank name | not executed | BackEnd.Usuario.ActualizarPerfil | BackEnd.Usuario.ActualizarPerfilCorregido |
