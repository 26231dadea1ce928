# War: combat and mission rules, modelled in Dafny

This project models the game rules of `war.c`, a one-player territory-conquest game.
The player registers territories. Each has a name (`nome`), an army colour (`cor`) and
a troop count (`tropas`). The game draws a secret mission from a table of five texts.
Then each turn the player picks an attacking and a defending territory.

- An attack between two territories of the same colour is refused.
- Otherwise `atacar` rolls two dice. A strictly higher attacker die conquers the
  defender. The defender takes the attacker's colour and half of the attacker's
  troops. Any other roll costs the attacker one troop, unless it has none.
- After every turn, `verificarMissao` checks the mission without printing anything.
  It looks for three keywords in the mission text: "Conquistar 3", "vermelha" and
  "todos". The game ends as soon as the rule of one keyword found in the text holds.

The model has three modules:

- `Territorios` (`territorios.dfy`) holds the `Territorio` record and C's truncating
  `/ 2`. It also holds `atacar`, as the method `Atacar` on the map array, specified by
  the function `Ataque` on the map's value.
- `Missoes` (`missoes.dfy`) holds `strstr` as the predicate `Contem` and the three map
  rules, both as counts and as quantifiers. It holds `verificarMissao` as the method
  `VerificarMissao`, which keeps the source's three scanning loops. It also holds the
  mission table, the draw `atribuirMissao`, and what each of the five texts demands.
- `Turnos` (`turnos.dfy`) holds one turn (`JogarTurno`: the colour guard, `Atacar`,
  then `VerificarMissao`) and the turn loop (`Partida`). Both are specified by pure
  functions (`Turno`, `Jogar`), and lemmas prove that whole games keep troops
  non-negative and names fixed.

The map is an `array<Territorio>` that the methods update in place. `atacar` receives
two pointers into that array; the model passes the two indices they come from instead.
Dice and the random draw are parameters. The dice satisfy `1 <= d <= 6`, as
`rand() % 6 + 1` does, and the draw is non-negative, as `rand()` is.

## Model

| member | source | states |
|---|---|---|
| `Territorios.MetadeC` | war.c:196 | C's `tropas / 2` truncates toward zero. For x >= 0 the result r satisfies 2r <= x < 2r + 2. For x < 0 it satisfies 2r - 2 < x <= 2r. |
| `Territorios.Ataque` | war.c:184-203 | The map value after `atacar(&s[at], &s[df])` with the given dice. It has as many territories as before. |
| `Territorios.Atacar` | war.c:184-203 | `atacar` in place on the map array. The new array contents are exactly `Ataque` of the old contents. |
| `Territorios.AtaqueVitoria` | war.c:193-196 | If the attacker's die is higher, the defender keeps its name. Its colour becomes exactly the attacker's colour. Its troops become half the attacker's troops from before the call. The attacker's record is unchanged. |
| `Territorios.AtaqueDerrota` | war.c:197-199 | If the attacker's die is lower or equal, the defender is completely unchanged. The attacker keeps its name and colour. Its troops drop by exactly 1 if positive and otherwise stay the same. |
| `Territorios.AtaqueMoldura` | war.c:184-203 | No territory other than the two named ones changes, and no name changes. |
| `Territorios.AtaqueTropas` | war.c:193-200 | If both records start with troops >= 0, both still have troops >= 0. Troops within the range of a 32-bit `int` stay within it, so nothing overflows. |
| `Missoes.ContaCor` | war.c:139-142 | The number of territories of one colour, the value the `cont` loop computes. It is at most the size of the map. |
| `Missoes.ContaZeroSse` | war.c:147-152 | A zero count for a colour means no territory has that colour, and the converse holds. This is the `existe` flag's meaning. |
| `Missoes.ContaTotalSse` | war.c:156-161 | A count equal to the map size means every territory has the colour, and the converse holds. This is the `dominio` flag's meaning. |
| `Missoes.VerificarMissao` | war.c:136-165 | The method returns only 0 or 1. It returns 1 exactly when some keyword occurs in the mission text and that keyword's rule holds on the map. The rules are: at least 3 "azul"; no "vermelha"; all "azul". The method cannot modify the map. |
| `Missoes.IndiceSorteado` | war.c:119 | `rand() % totalMissoes` for a non-negative draw lies in `[0, totalMissoes)`. It is the remainder of the division of the draw. |
| `Missoes.IndiceUnico` | war.c:119 | Any quotient and remainder in range that rebuild the draw determine the drawn index. |
| `Missoes.AtribuirMissao` | war.c:118-121 | The copied mission is one of the first `totalMissoes` entries of the table. |
| `Missoes.AtribuirMissaoCobre` | war.c:118-121 | A draw below `totalMissoes` selects exactly that entry, so every mission can be drawn. Adding `totalMissoes` to the draw changes nothing. |
| `Missoes.ChavesConquistar` | war.c:222 | "Conquistar 3 territorios seguidos" contains "Conquistar 3". It contains neither "vermelha" nor "todos". |
| `Missoes.ChavesEliminar` | war.c:223 | "Eliminar todas as tropas da cor vermelha" contains "vermelha". It contains neither "Conquistar 3" nor "todos". |
| `Missoes.ChavesDominar` | war.c:224 | "Dominar todos os territorios do mapa" contains "todos". It contains neither "Conquistar 3" nor "vermelha". |
| `Missoes.ChavesQualquer` | war.c:225 | "Conquistar qualquer territorio inimigo" contains none of the three keywords. |
| `Missoes.ChavesManter` | war.c:226 | "Manter ao menos 2 territorios por 3 turnos" contains none of the three keywords. |
| `Missoes.MissaoConquistar` | war.c:138-144 | The first mission is met exactly when at least 3 territories are "azul". |
| `Missoes.MissaoEliminar` | war.c:147-153 | The second mission is met exactly when no territory is "vermelha", which is exactly when the "vermelha" count is 0. |
| `Missoes.MissaoDominar` | war.c:156-162 | The third mission is met exactly when every territory is "azul", which is exactly when the "azul" count equals the map size. |
| `Missoes.MissoesInalcancaveis` | war.c:221-227 | No map ever meets the fourth or the fifth mission. |
| `Missoes.MissoesCasosLimite` | war.c:136-165 | An empty map meets the second and third missions but not the first. Three "azul" territories meet the first mission; two do not. |
| `Turnos.Turno` | war.c:277-281 | The map value after one turn. It has as many territories as before. |
| `Turnos.JogarTurno` | war.c:277-288 | The attack goes ahead exactly when the two colours differ. The new map is `Turno` of the old one. `cumprida` is true exactly when the mission is met on the new map. |
| `Turnos.TurnoMesmaCor` | war.c:277-279 | If the two colours are equal, the map is left entirely unchanged. This includes attacker equal to defender. |
| `Turnos.TurnoMoldura` | war.c:277-281 | A turn changes at most the two indexed entries and never a name. It keeps non-negative troop counts non-negative. |
| `Turnos.Jogar` | war.c:265-291 | The map value after a sequence of turns. It has as many territories as before. |
| `Turnos.JogarTropasNaoNegativas` | war.c:265-291 | Troop counts that start non-negative stay non-negative over any sequence of turns. |
| `Turnos.JogarNomes` | war.c:265-291 | No sequence of turns changes any territory's name. |
| `Turnos.Partida` | war.c:263-291 | The loop plays the turns in order and counts them from 1. It stops after the first turn whose mission check succeeds; the final map is then the map after exactly those turns. No earlier turn met the mission. Non-negative troops stay non-negative. |
| `Turnos.ExemploTurno` | war.c:277-288 | A worked case. On the map A vermelha 10, B azul 4, C vermelha 2, B attacks A with dice 6 against 1. A becomes azul with 2 troops. The elimination mission is still not met, because C is vermelha. |

## Left out

- Terminal input and output (`printf`, `scanf`, `exibirMapa`, `exibirMissao`, the menu text) are left out. The values the player types arrive as parameters: the map's initial contents and one `Jogada` per turn.
- Randomness (`srand(time(NULL))`, `rand()`) is left out. The dice and the mission draw are parameters. The dice must lie in 1..6 and the draw must be non-negative, as the C expressions guarantee.
- Memory management (`malloc`, `calloc`, `free`, `liberarMemoria`) is left out. The map is a Dafny array and the mission is a Dafny string.
- The placeholder `main` at war.c:34-55 is left out. It only comments on a design and returns.
- Fixed-width buffers are left out. Names and colours (`char[30]`, `char[10]`) and the 100-byte mission buffer are unbounded strings, so `strcpy`/`scanf("%s")` overflows are not modelled. No text in the table is longer than the buffer.
- Out-of-range indices are a precondition. The source does no bounds check on `mapa[at]` and `mapa[df]`, so an index outside the map is undefined behaviour in C.
- `Partida` takes a finite sequence of turns and ends without victory when that input runs out. The C loop has no such exit: it loops until the mission is met. End of input to `scanf` is not modelled.
- Integer width: troop counts are unbounded `int`s. `AtaqueTropas` proves that counts within the 32-bit range stay within it, so no C overflow can occur. Negative counts, which `scanf("%d")` accepts, are allowed. C's truncating division is modelled by `MetadeC`.
- The objective is matched as text, as in the source: keyword search with `strstr` on the mission sentence. A design with one tagged rule per mission, with parameters and an `UnknownObjective` error, is not what the code does. "Conquistar 3 territorios seguidos" is checked as a plain count of "azul" territories; nothing in the code looks at "seguidos" (consecutive). The two missions without a keyword can never be met (`MissoesInalcancaveis`).
- There is no self-attack or index error from the combat code, because the code has none. An attack of a territory on itself is refused only because its two colours are always equal (`TurnoMesmaCor`). The turn counter `turno` advances after a refused attack as well, as the loop at war.c:290 does.
- The mission is checked only after a turn, never before the first one. A map that already meets the mission still plays one turn, as in the source.
