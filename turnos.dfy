/** The turn loop of war.c's `main`: each turn rejects an attack between two
    territories of the same colour, otherwise runs `atacar`, and then checks the
    mission silently, ending the game when it is met. The attacker and defender
    indices the player types and the dice `atacar` rolls arrive together as one
    `Jogada` per turn. */
module Turnos {
  import opened Territorios
  import opened Missoes

  /** One turn's input: the attacking and defending indices and the two dice. */
  datatype Jogada = Jogada(at: nat, df: nat, dadoA: int, dadoD: int)

  /** The indices name records of a map of `n` territories and the dice are dice. */
  predicate JogadaValida(n: nat, j: Jogada) {
    j.at < n && j.df < n && Dado(j.dadoA) && Dado(j.dadoD)
  }

  predicate JogadasValidas(n: nat, js: seq<Jogada>) {
    forall k :: 0 <= k < |js| ==> JogadaValida(n, js[k])
  }

  predicate TropasNaoNegativas(s: seq<Territorio>) {
    forall i :: 0 <= i < |s| ==> s[i].tropas >= 0
  }

  /** The map after one turn: unchanged when both territories have the same
      colour, otherwise the map after the attack. */
  function Turno(s: seq<Territorio>, j: Jogada): (t: seq<Territorio>)
    requires JogadaValida(|s|, j)
    ensures |t| == |s|
  {
    if s[j.at].cor == s[j.df].cor then s
    else Ataque(s, j.at, j.df, j.dadoA, j.dadoD)
  }

  /** One turn on the map in place; `atacou` tells whether the colour guard let
      the attack through, `cumprida` whether the mission check then returned 1. */
  method JogarTurno(mapa: array<Territorio>, missao: string, j: Jogada) returns (atacou: bool, cumprida: bool)
    requires JogadaValida(mapa.Length, j)
    modifies mapa
    ensures atacou <==> old(mapa[j.at].cor) != old(mapa[j.df].cor)
    ensures mapa[..] == Turno(old(mapa[..]), j)
    ensures cumprida <==> MissaoCumprida(missao, mapa[..])
  {
    if mapa[j.at].cor == mapa[j.df].cor {
      // refused: both territories belong to the same army
      atacou := false;
    } else {
      Atacar(mapa, j.at, j.df, j.dadoA, j.dadoD);
      atacou := true;
    }
    var r := VerificarMissao(missao, mapa);
    cumprida := r != 0;
  }

  /** An attack between territories of one colour, and so every attack of a
      territory on itself, leaves the map exactly as it was. */
  lemma TurnoMesmaCor(s: seq<Territorio>, j: Jogada)
    requires JogadaValida(|s|, j)
    requires s[j.at].cor == s[j.df].cor || j.at == j.df
    ensures Turno(s, j) == s
  {
  }

  /** A turn changes at most the two records it names, never a name, and keeps
      troop counts non-negative. */
  lemma TurnoMoldura(s: seq<Territorio>, j: Jogada)
    requires JogadaValida(|s|, j)
    ensures forall i :: 0 <= i < |s| && i != j.at && i != j.df ==> Turno(s, j)[i] == s[i]
    ensures forall i :: 0 <= i < |s| ==> Turno(s, j)[i].nome == s[i].nome
    ensures TropasNaoNegativas(s) ==> TropasNaoNegativas(Turno(s, j))
  {
    if s[j.at].cor != s[j.df].cor {
      AtaqueMoldura(s, j.at, j.df, j.dadoA, j.dadoD);
      AtaqueTropas(s, j.at, j.df, j.dadoA, j.dadoD);
    }
  }

  /** The map after a whole sequence of turns, the last one applied last. */
  function Jogar(s: seq<Territorio>, js: seq<Jogada>): (t: seq<Territorio>)
    requires JogadasValidas(|s|, js)
    ensures |t| == |s|
    decreases |js|
  {
    if js == [] then s
    else Turno(Jogar(s, js[..|js| - 1]), js[|js| - 1])
  }

  /** Troop counts that start non-negative are non-negative after any number of
      turns. */
  lemma {:induction false} JogarTropasNaoNegativas(s: seq<Territorio>, js: seq<Jogada>)
    requires JogadasValidas(|s|, js)
    requires TropasNaoNegativas(s)
    ensures TropasNaoNegativas(Jogar(s, js))
    decreases |js|
  {
    if js != [] {
      JogarTropasNaoNegativas(s, js[..|js| - 1]);
      TurnoMoldura(Jogar(s, js[..|js| - 1]), js[|js| - 1]);
    }
  }

  /** No sequence of turns renames a territory. */
  lemma {:induction false} JogarNomes(s: seq<Territorio>, js: seq<Jogada>)
    requires JogadasValidas(|s|, js)
    ensures forall i :: 0 <= i < |s| ==> Jogar(s, js)[i].nome == s[i].nome
    decreases |js|
  {
    if js != [] {
      JogarNomes(s, js[..|js| - 1]);
      TurnoMoldura(Jogar(s, js[..|js| - 1]), js[|js| - 1]);
    }
  }

  lemma PrefixoValido(n: nat, js: seq<Jogada>, k: nat)
    requires k <= |js| && JogadasValidas(n, js)
    ensures JogadasValidas(n, js[..k])
  {
  }

  /** Extending the input by one turn extends the play by that turn. */
  lemma JogarPasso(s: seq<Territorio>, js: seq<Jogada>, k: nat)
    requires k < |js| && JogadasValidas(|s|, js)
    ensures JogadasValidas(|s|, js[..k]) && JogadasValidas(|s|, js[..k + 1])
    ensures Jogar(s, js[..k + 1]) == Turno(Jogar(s, js[..k]), js[k])
  {
    PrefixoValido(|s|, js, k);
    PrefixoValido(|s|, js, k + 1);
    var p := js[..k + 1];
    assert p[..|p| - 1] == js[..k];
    assert p[|p| - 1] == js[k];
  }

  /** The mission was not met after any of the first `n - 1` turns of `js`. */
  predicate SemVitoriaAntes(missao: string, s: seq<Territorio>, js: seq<Jogada>, n: nat)
    requires n <= |js| + 1 && JogadasValidas(|s|, js)
  {
    forall k :: 1 <= k < n ==> !MissaoCumprida(missao, Jogar(s, js[..k]))
  }

  /** The turn loop: plays the turns in order, counting them from 1 in `turno`,
      and stops after the first turn whose silent mission check succeeds. When
      the input runs out first, `venceu` is false and `turno` is one past the
      last turn. */
  method Partida(mapa: array<Territorio>, missao: string, jogadas: seq<Jogada>) returns (turno: nat, venceu: bool)
    requires JogadasValidas(mapa.Length, jogadas)
    modifies mapa
    ensures 1 <= turno <= |jogadas| + 1
    ensures venceu ==> turno <= |jogadas|
                       && mapa[..] == Jogar(old(mapa[..]), jogadas[..turno])
                       && MissaoCumprida(missao, mapa[..])
    ensures !venceu ==> turno == |jogadas| + 1 && mapa[..] == Jogar(old(mapa[..]), jogadas)
    ensures SemVitoriaAntes(missao, old(mapa[..]), jogadas, turno)
    ensures TropasNaoNegativas(old(mapa[..])) ==> TropasNaoNegativas(mapa[..])
  {
    ghost var inicio := mapa[..];
    turno := 1;
    venceu := false;
    while turno <= |jogadas|
      invariant 1 <= turno <= |jogadas| + 1
      invariant mapa[..] == Jogar(inicio, jogadas[..turno - 1])
      invariant SemVitoriaAntes(missao, inicio, jogadas, turno)
    {
      JogarPasso(inicio, jogadas, turno - 1);
      var _, cumprida := JogarTurno(mapa, missao, jogadas[turno - 1]);
      if cumprida {
        venceu := true;
        break;
      }
      turno := turno + 1;
    }
    assert jogadas[..|jogadas|] == jogadas;
    if TropasNaoNegativas(inicio) {
      if venceu {
        JogarTropasNaoNegativas(inicio, jogadas[..turno]);
      } else {
        JogarTropasNaoNegativas(inicio, jogadas);
      }
    }
  }

  /** A worked game: with the "Eliminar todas as tropas da cor vermelha" mission,
      the blue B (4 troops) rolls 6 against 1 on the red A (10 troops); A turns
      blue with 4 / 2 = 2 troops, B is untouched, and the mission is still not met
      because C is red. */
  lemma ExemploTurno()
    ensures var s := [Territorio("A", VERMELHA, 10), Territorio("B", AZUL, 4), Territorio("C", VERMELHA, 2)];
            var t := Turno(s, Jogada(1, 0, 6, 1));
            t == [Territorio("A", AZUL, 2), Territorio("B", AZUL, 4), Territorio("C", VERMELHA, 2)]
            && !MissaoCumprida(MISSAO_ELIMINAR, t)
  {
    var t := [Territorio("A", AZUL, 2), Territorio("B", AZUL, 4), Territorio("C", VERMELHA, 2)];
    MissaoEliminar(t);
    assert t[2].cor == VERMELHA;
  }
}
