/** The territory record of war.c and the combat rule `atacar`.

    The map is a C array of `Territorio` structs that the turn loop owns; `atacar`
    receives pointers to two of its records and rewrites their fields in place.
    Here the map is an `array<Territorio>` and the two pointers are the two
    indices the caller took them from (`&mapa[at]`, `&mapa[df]`). The dice, which
    the source draws with `rand() % 6 + 1`, are parameters. */
module Territorios {

  /** One record of the map: its name, the colour of the army holding it and
      its troop count (a C `int`, so it may be negative if typed in that way). */
  datatype Territorio = Territorio(nome: string, cor: string, tropas: int)

  /** Bounds of a 32-bit C `int`. */
  const INT_MIN: int := -0x8000_0000
  const INT_MAX: int := 0x7fff_ffff

  predicate CabeEmInt(x: int) {
    INT_MIN <= x <= INT_MAX
  }

  /** A value `rand() % 6 + 1` can produce. */
  predicate Dado(d: int) {
    1 <= d <= 6
  }

  /** C's `x / 2` on an `int`: the quotient truncated toward zero, which for a
      negative `x` is not Dafny's Euclidean `/`. */
  function MetadeC(x: int): (r: int)
    ensures 0 <= x ==> 0 <= r && 2 * r <= x < 2 * r + 2
    ensures x < 0 ==> r <= 0 && 2 * r - 2 < x <= 2 * r
  {
    if x >= 0 then x / 2 else -((-x) / 2)
  }

  /** The map after `atacar(&s[at], &s[df])` with dice `dadoA` (attacker) and
      `dadoD` (defender): on a strictly higher attacker die the defender takes the
      attacker's colour and half the attacker's troops; otherwise the attacker
      loses one troop if it has any. */
  function Ataque(s: seq<Territorio>, at: nat, df: nat, dadoA: int, dadoD: int): (t: seq<Territorio>)
    requires at < |s| && df < |s|
    requires Dado(dadoA) && Dado(dadoD)
    ensures |t| == |s|
  {
    if dadoA > dadoD then
      s[df := Territorio(s[df].nome, s[at].cor, MetadeC(s[at].tropas))]
    else if s[at].tropas > 0 then
      s[at := s[at].(tropas := s[at].tropas - 1)]
    else
      s
  }

  /** `atacar`: the two field writes of a conquest, or the attacker's attrition,
      done in place on the map. */
  method Atacar(mapa: array<Territorio>, at: nat, df: nat, dadoA: int, dadoD: int)
    requires at < mapa.Length && df < mapa.Length
    requires Dado(dadoA) && Dado(dadoD)
    modifies mapa
    ensures mapa[..] == Ataque(old(mapa[..]), at, df, dadoA, dadoD)
  {
    if dadoA > dadoD {
      // colour first, then troops, as two separate writes to the defender
      mapa[df] := mapa[df].(cor := mapa[at].cor);
      mapa[df] := mapa[df].(tropas := MetadeC(mapa[at].tropas));
    } else {
      if mapa[at].tropas > 0 {
        mapa[at] := mapa[at].(tropas := mapa[at].tropas - 1);
      }
    }
  }

  /** A conquest: the defender keeps its name, takes exactly the attacker's colour
      and half of the attacker's troops from before the call; the attacker's own
      record is unchanged. */
  lemma AtaqueVitoria(s: seq<Territorio>, at: nat, df: nat, dadoA: int, dadoD: int)
    requires at < |s| && df < |s| && at != df
    requires Dado(dadoA) && Dado(dadoD)
    requires dadoA > dadoD
    ensures Ataque(s, at, df, dadoA, dadoD)[df].nome == s[df].nome
    ensures Ataque(s, at, df, dadoA, dadoD)[df].cor == s[at].cor
    ensures Ataque(s, at, df, dadoA, dadoD)[df].tropas == MetadeC(s[at].tropas)
    ensures Ataque(s, at, df, dadoA, dadoD)[at] == s[at]
  {
  }

  /** A defence that holds: the defender is untouched and the attacker loses
      exactly one troop if it had any, keeping its name and colour. */
  lemma AtaqueDerrota(s: seq<Territorio>, at: nat, df: nat, dadoA: int, dadoD: int)
    requires at < |s| && df < |s| && at != df
    requires Dado(dadoA) && Dado(dadoD)
    requires dadoA <= dadoD
    ensures Ataque(s, at, df, dadoA, dadoD)[df] == s[df]
    ensures Ataque(s, at, df, dadoA, dadoD)[at].nome == s[at].nome
    ensures Ataque(s, at, df, dadoA, dadoD)[at].cor == s[at].cor
    ensures s[at].tropas > 0 ==> Ataque(s, at, df, dadoA, dadoD)[at].tropas == s[at].tropas - 1
    ensures s[at].tropas <= 0 ==> Ataque(s, at, df, dadoA, dadoD)[at].tropas == s[at].tropas
  {
  }

  /** Only the two records passed to `atacar` can change, and no name ever does. */
  lemma AtaqueMoldura(s: seq<Territorio>, at: nat, df: nat, dadoA: int, dadoD: int)
    requires at < |s| && df < |s|
    requires Dado(dadoA) && Dado(dadoD)
    ensures forall i :: 0 <= i < |s| && i != at && i != df ==> Ataque(s, at, df, dadoA, dadoD)[i] == s[i]
    ensures forall i :: 0 <= i < |s| ==> Ataque(s, at, df, dadoA, dadoD)[i].nome == s[i].nome
  {
  }

  /** Troop counts that start non-negative stay non-negative, and counts that fit
      a C `int` still fit one (halving and a guarded decrement cannot overflow). */
  lemma AtaqueTropas(s: seq<Territorio>, at: nat, df: nat, dadoA: int, dadoD: int)
    requires at < |s| && df < |s|
    requires Dado(dadoA) && Dado(dadoD)
    ensures s[at].tropas >= 0 && s[df].tropas >= 0 ==>
              Ataque(s, at, df, dadoA, dadoD)[at].tropas >= 0 && Ataque(s, at, df, dadoA, dadoD)[df].tropas >= 0
    ensures CabeEmInt(s[at].tropas) && CabeEmInt(s[df].tropas) ==>
              CabeEmInt(Ataque(s, at, df, dadoA, dadoD)[at].tropas) && CabeEmInt(Ataque(s, at, df, dadoA, dadoD)[df].tropas)
  {
  }
}
