/** Missions of war.c: the catalogue, the draw `atribuirMissao` and the check
    `verificarMissao`, which decides a mission by looking for keywords in its
    text with `strstr` and then scanning the map with a counter or flag loop. */
module Missoes {
  import opened Territorios

  // ---------------------------------------------------------------------------
  // Substring search (`strstr(h, n) != NULL`)
  // ---------------------------------------------------------------------------

  /** `n` occurs in `h` starting at position `i`. */
  predicate OcorreEm(h: string, n: string, i: int) {
    0 <= i && i + |n| <= |h| && forall j :: 0 <= j < |n| ==> h[i + j] == n[j]
  }

  /** `strstr(h, n) != NULL`: `n` occurs in `h` as a block of adjacent
      characters at some position; the empty needle occurs in every text. */
  predicate Contem(h: string, n: string) {
    exists i | 0 <= i <= |h| - |n| :: OcorreEm(h, n, i)
  }

  /** A needle with a character that `h` lacks does not occur in `h`. */
  lemma AusentePorLetra(h: string, n: string, k: nat)
    requires k < |n|
    requires n[k] !in h
    ensures !Contem(h, n)
  {
  }

  /** No position of `h` holds the two characters `c`, `d` one after the other. */
  predicate SemPar(h: string, c: char, d: char) {
    forall i :: 0 <= i < |h| - 1 ==> h[i] != c || h[i + 1] != d
  }

  /** A needle with two adjacent characters that never stand together in `h`
      does not occur in `h`. */
  lemma AusentePorPar(h: string, n: string, k: nat)
    requires k + 1 < |n|
    requires SemPar(h, n[k], n[k + 1])
    ensures !Contem(h, n)
  {
  }

  // ---------------------------------------------------------------------------
  // What the three rules look at on the map
  // ---------------------------------------------------------------------------

  /** Number of territories whose colour is `c` (the counter `cont`). */
  function ContaCor(s: seq<Territorio>, c: string): (k: nat)
    ensures k <= |s|
  {
    if s == [] then 0
    else ContaCor(s[..|s| - 1], c) + (if s[|s| - 1].cor == c then 1 else 0)
  }

  /** No territory has colour `c`. */
  predicate NenhumCor(s: seq<Territorio>, c: string) {
    forall i :: 0 <= i < |s| ==> s[i].cor != c
  }

  /** Every territory has colour `c`. */
  predicate TodosCor(s: seq<Territorio>, c: string) {
    forall i :: 0 <= i < |s| ==> s[i].cor == c
  }

  /** Counting finds no territory of colour `c` exactly when none has it. */
  lemma {:induction false} ContaZeroSse(s: seq<Territorio>, c: string)
    ensures ContaCor(s, c) == 0 <==> NenhumCor(s, c)
  {
    if s != [] {
      var p := s[..|s| - 1];
      ContaZeroSse(p, c);
      assert forall i :: 0 <= i < |p| ==> p[i] == s[i];
    }
  }

  /** Counting finds every territory of colour `c` exactly when all have it. */
  lemma {:induction false} ContaTotalSse(s: seq<Territorio>, c: string)
    ensures ContaCor(s, c) == |s| <==> TodosCor(s, c)
  {
    if s != [] {
      var p := s[..|s| - 1];
      ContaTotalSse(p, c);
      assert forall i :: 0 <= i < |p| ==> p[i] == s[i];
    }
  }

  // ---------------------------------------------------------------------------
  // The mission check
  // ---------------------------------------------------------------------------

  const AZUL: string := "azul"
  const VERMELHA: string := "vermelha"
  const CHAVE_CONQUISTAR: string := "Conquistar 3"
  const CHAVE_VERMELHA: string := "vermelha"
  const CHAVE_TODOS: string := "todos"

  /** What `verificarMissao` decides: some keyword present in the mission text
      whose rule holds on the map. */
  predicate MissaoCumprida(missao: string, s: seq<Territorio>) {
    || (Contem(missao, CHAVE_CONQUISTAR) && ContaCor(s, AZUL) >= 3)
    || (Contem(missao, CHAVE_VERMELHA) && NenhumCor(s, VERMELHA))
    || (Contem(missao, CHAVE_TODOS) && TodosCor(s, AZUL))
  }

  /** `verificarMissao`: the three keyword tests in order, each followed by its
      scan of the map; returns 1 as soon as a rule holds, 0 otherwise. It only
      reads the map. */
  method VerificarMissao(missao: string, mapa: array<Territorio>) returns (r: int)
    ensures r == 0 || r == 1
    ensures r == 1 <==> MissaoCumprida(missao, mapa[..])
  {
    if Contem(missao, CHAVE_CONQUISTAR) {
      var cont := 0;
      for i := 0 to mapa.Length
        invariant cont == ContaCor(mapa[..i], AZUL)
      {
        assert mapa[..i + 1][..i] == mapa[..i];
        if mapa[i].cor == AZUL {
          cont := cont + 1;
        }
      }
      assert mapa[..mapa.Length] == mapa[..];
      if cont >= 3 {
        return 1;
      }
    }

    if Contem(missao, CHAVE_VERMELHA) {
      var existe := 0;
      for i := 0 to mapa.Length
        invariant existe == 0 || existe == 1
        invariant existe == 0 <==> NenhumCor(mapa[..i], VERMELHA)
      {
        if mapa[i].cor == VERMELHA {
          existe := 1;
        }
      }
      assert mapa[..mapa.Length] == mapa[..];
      if existe == 0 {
        return 1;
      }
    }

    if Contem(missao, CHAVE_TODOS) {
      var dominio := 1;
      for i := 0 to mapa.Length
        invariant dominio == 0 || dominio == 1
        invariant dominio == 1 <==> TodosCor(mapa[..i], AZUL)
      {
        if mapa[i].cor != AZUL {
          dominio := 0;
        }
      }
      assert mapa[..mapa.Length] == mapa[..];
      if dominio == 1 {
        return 1;
      }
    }

    return 0;
  }

  // ---------------------------------------------------------------------------
  // The catalogue and the draw
  // ---------------------------------------------------------------------------

  const MISSAO_CONQUISTAR: string := "Conquistar 3 territorios seguidos"
  const MISSAO_ELIMINAR: string := "Eliminar todas as tropas da cor vermelha"
  const MISSAO_DOMINAR: string := "Dominar todos os territorios do mapa"
  const MISSAO_QUALQUER: string := "Conquistar qualquer territorio inimigo"
  const MISSAO_MANTER: string := "Manter ao menos 2 territorios por 3 turnos"

  /** The five mission texts of the session's `missoes` table, in order. */
  const MISSOES: seq<string> := [MISSAO_CONQUISTAR, MISSAO_ELIMINAR, MISSAO_DOMINAR, MISSAO_QUALQUER, MISSAO_MANTER]
  const TOTAL_MISSOES: int := 5

  /** `rand() % totalMissoes` for a non-negative draw `r`: the index in range that
      differs from `r` by a multiple of `totalMissoes`. */
  function IndiceSorteado(r: nat, totalMissoes: int): (i: nat)
    requires totalMissoes > 0
    ensures i < totalMissoes
    ensures r == totalMissoes * (r / totalMissoes) + i
  {
    r % totalMissoes
  }

  /** `atribuirMissao`: the text of the drawn entry among the first
      `totalMissoes` of `missoes`. */
  function AtribuirMissao(missoes: seq<string>, r: nat, totalMissoes: int): (destino: string)
    requires 0 < totalMissoes <= |missoes|
    ensures exists i :: 0 <= i < totalMissoes && destino == missoes[i]
  {
    missoes[IndiceSorteado(r, totalMissoes)]
  }

  lemma ProdutoAoMenos(a: int, b: int)
    requires a > 0 && b > 0
    ensures a * b >= a
  {
  }

  /** The drawn index is determined by the division of `r`: whichever quotient
      and remainder in range rebuild `r`, the remainder is the index. */
  lemma IndiceUnico(r: nat, totalMissoes: int, q: int, i: int)
    requires totalMissoes > 0 && 0 <= i < totalMissoes
    requires r == totalMissoes * q + i
    ensures IndiceSorteado(r, totalMissoes) == i
  {
    var q0, i0 := r / totalMissoes, r % totalMissoes;
    assert r == totalMissoes * q0 + i0;
    var d := q - q0;
    assert totalMissoes * q == totalMissoes * q0 + totalMissoes * d;
    if d > 0 {
      ProdutoAoMenos(totalMissoes, d);
    } else if d < 0 {
      ProdutoAoMenos(totalMissoes, -d);
    }
  }

  /** Every mission of the table can be drawn: a draw below `totalMissoes`
      selects that very entry, and adding `totalMissoes` to the draw changes
      nothing. */
  lemma AtribuirMissaoCobre(missoes: seq<string>, r: nat, totalMissoes: int)
    requires 0 < totalMissoes <= |missoes|
    ensures r < totalMissoes ==> AtribuirMissao(missoes, r, totalMissoes) == missoes[r]
    ensures AtribuirMissao(missoes, r + totalMissoes, totalMissoes) == AtribuirMissao(missoes, r, totalMissoes)
  {
    if r < totalMissoes {
      IndiceUnico(r, totalMissoes, 0, r);
    }
    var q := r / totalMissoes;
    IndiceUnico(r + totalMissoes, totalMissoes, q + 1, IndiceSorteado(r, totalMissoes));
  }

  // ---------------------------------------------------------------------------
  // What each catalogue mission asks for
  // ---------------------------------------------------------------------------

  // Which keywords each of the five texts contains: only the first three carry
  // one, one each. A keyword that is present is found at its position; one that
  // is absent is ruled out by a letter, or a pair of adjacent letters, that the
  // text lacks.

  lemma LetrasConquistar()
    ensures 'v' !in MISSAO_CONQUISTAR && SemPar(MISSAO_CONQUISTAR, 'o', 'd')
  {
  }

  lemma ChavesConquistar()
    ensures Contem(MISSAO_CONQUISTAR, CHAVE_CONQUISTAR)
    ensures !Contem(MISSAO_CONQUISTAR, CHAVE_VERMELHA) && !Contem(MISSAO_CONQUISTAR, CHAVE_TODOS)
  {
    assert OcorreEm(MISSAO_CONQUISTAR, CHAVE_CONQUISTAR, 0);
    LetrasConquistar();
    AusentePorLetra(MISSAO_CONQUISTAR, CHAVE_VERMELHA, 0);
    AusentePorPar(MISSAO_CONQUISTAR, CHAVE_TODOS, 1);
  }

  lemma LetrasEliminar()
    ensures 'C' !in MISSAO_ELIMINAR && SemPar(MISSAO_ELIMINAR, 'd', 'o')
  {
  }

  lemma ChavesEliminar()
    ensures Contem(MISSAO_ELIMINAR, CHAVE_VERMELHA)
    ensures !Contem(MISSAO_ELIMINAR, CHAVE_CONQUISTAR) && !Contem(MISSAO_ELIMINAR, CHAVE_TODOS)
  {
    assert OcorreEm(MISSAO_ELIMINAR, CHAVE_VERMELHA, 32);
    LetrasEliminar();
    AusentePorLetra(MISSAO_ELIMINAR, CHAVE_CONQUISTAR, 0);
    AusentePorPar(MISSAO_ELIMINAR, CHAVE_TODOS, 2);
  }

  lemma LetrasDominar()
    ensures 'C' !in MISSAO_DOMINAR && 'v' !in MISSAO_DOMINAR
  {
  }

  lemma ChavesDominar()
    ensures Contem(MISSAO_DOMINAR, CHAVE_TODOS)
    ensures !Contem(MISSAO_DOMINAR, CHAVE_CONQUISTAR) && !Contem(MISSAO_DOMINAR, CHAVE_VERMELHA)
  {
    assert OcorreEm(MISSAO_DOMINAR, CHAVE_TODOS, 8);
    LetrasDominar();
    AusentePorLetra(MISSAO_DOMINAR, CHAVE_CONQUISTAR, 0);
    AusentePorLetra(MISSAO_DOMINAR, CHAVE_VERMELHA, 0);
  }

  lemma LetrasQualquer()
    ensures '3' !in MISSAO_QUALQUER && 'v' !in MISSAO_QUALQUER && 'd' !in MISSAO_QUALQUER
  {
  }

  lemma ChavesQualquer()
    ensures !Contem(MISSAO_QUALQUER, CHAVE_CONQUISTAR)
    ensures !Contem(MISSAO_QUALQUER, CHAVE_VERMELHA) && !Contem(MISSAO_QUALQUER, CHAVE_TODOS)
  {
    LetrasQualquer();
    AusentePorLetra(MISSAO_QUALQUER, CHAVE_CONQUISTAR, 11);
    AusentePorLetra(MISSAO_QUALQUER, CHAVE_VERMELHA, 0);
    AusentePorLetra(MISSAO_QUALQUER, CHAVE_TODOS, 2);
  }

  lemma LetrasManter()
    ensures 'C' !in MISSAO_MANTER && 'v' !in MISSAO_MANTER && 'd' !in MISSAO_MANTER
  {
  }

  lemma ChavesManter()
    ensures !Contem(MISSAO_MANTER, CHAVE_CONQUISTAR)
    ensures !Contem(MISSAO_MANTER, CHAVE_VERMELHA) && !Contem(MISSAO_MANTER, CHAVE_TODOS)
  {
    LetrasManter();
    AusentePorLetra(MISSAO_MANTER, CHAVE_CONQUISTAR, 0);
    AusentePorLetra(MISSAO_MANTER, CHAVE_VERMELHA, 0);
    AusentePorLetra(MISSAO_MANTER, CHAVE_TODOS, 2);
  }

  /** "Conquistar 3 territorios seguidos" is met exactly when at least three
      territories are blue. */
  lemma MissaoConquistar(s: seq<Territorio>)
    ensures MissaoCumprida(MISSAO_CONQUISTAR, s) <==> ContaCor(s, AZUL) >= 3
  {
    ChavesConquistar();
  }

  /** "Eliminar todas as tropas da cor vermelha" is met exactly when no territory
      is red, that is when the red count is zero. */
  lemma MissaoEliminar(s: seq<Territorio>)
    ensures MissaoCumprida(MISSAO_ELIMINAR, s) <==> NenhumCor(s, VERMELHA)
    ensures MissaoCumprida(MISSAO_ELIMINAR, s) <==> ContaCor(s, VERMELHA) == 0
  {
    ChavesEliminar();
    ContaZeroSse(s, VERMELHA);
  }

  /** "Dominar todos os territorios do mapa" is met exactly when every territory
      is blue, that is when the blue count is the map's size. */
  lemma MissaoDominar(s: seq<Territorio>)
    ensures MissaoCumprida(MISSAO_DOMINAR, s) <==> TodosCor(s, AZUL)
    ensures MissaoCumprida(MISSAO_DOMINAR, s) <==> ContaCor(s, AZUL) == |s|
  {
    ChavesDominar();
    ContaTotalSse(s, AZUL);
  }

  /** The last two missions carry no keyword: no map ever satisfies them. */
  lemma MissoesInalcancaveis(s: seq<Territorio>)
    ensures !MissaoCumprida(MISSAO_QUALQUER, s)
    ensures !MissaoCumprida(MISSAO_MANTER, s)
  {
    ChavesQualquer();
    ChavesManter();
  }

  /** Boundary cases: on an empty map the elimination and domination missions
      already hold; three blue territories meet the conquest mission and two do
      not. */
  lemma MissoesCasosLimite(a: Territorio, b: Territorio, c: Territorio)
    requires a.cor == AZUL && b.cor == AZUL && c.cor == AZUL
    ensures MissaoCumprida(MISSAO_ELIMINAR, []) && MissaoCumprida(MISSAO_DOMINAR, [])
    ensures !MissaoCumprida(MISSAO_CONQUISTAR, [])
    ensures MissaoCumprida(MISSAO_CONQUISTAR, [a, b, c])
    ensures !MissaoCumprida(MISSAO_CONQUISTAR, [a, b])
  {
    ChavesConquistar();
    ChavesEliminar();
    ChavesDominar();
    assert [a][..0] == [];
    assert ContaCor([a], AZUL) == 1;
    assert [a, b][..1] == [a];
    assert ContaCor([a, b], AZUL) == 2;
    assert [a, b, c][..2] == [a, b];
    assert ContaCor([a, b, c], AZUL) == 3;
  }
}
