/** The statistics page (src/pages/Estatisticas.tsx): counts per kind and per
    flag, a genre histogram built by a loop over the works into an
    insertion-ordered dictionary, and the five most frequent genres. */
module Estatisticas {
  import opened Seqs
  import opened Tipos

  /** The `estatisticas` object. */
  datatype Resumo = Resumo(livros: nat, filmes: nat, series: nat, curtidas: nat, desejos: nat)

  function QuantosDoTipo(obras: seq<Obra>, t: TipoObra): nat {
    |Filter((o: Obra) => o.tipo == t, obras)|
  }

  /** `obras.filter(...).length` for each kind and each flag. */
  function Estatisticas(obras: seq<Obra>): Resumo {
    Resumo(QuantosDoTipo(obras, Livro), QuantosDoTipo(obras, Filme), QuantosDoTipo(obras, Serie),
           |Filter((o: Obra) => o.curtida, obras)|, |Filter((o: Obra) => o.desejos, obras)|)
  }

  /** Every work has exactly one of the three kinds, so the kind counts add
      up to the number of works; the flag counts never exceed it. */
  lemma {:induction false} EstatisticasConsistentes(obras: seq<Obra>)
    ensures var r := Estatisticas(obras);
      r.livros + r.filmes + r.series == |obras| &&
      r.curtidas <= |obras| && r.desejos <= |obras|
  {
    if obras != [] {
      EstatisticasConsistentes(obras[1..]);
    }
  }

  /** One dictionary entry `[genero, contagem]`. */
  datatype Entrada = Entrada(genero: Genero, contagem: nat)

  /** The number of works of genre `g`. */
  function ContagemGenero(obras: seq<Obra>, g: Genero): nat {
    |Filter((o: Obra) => o.genero == g, obras)|
  }

  /** `generosCont[g] || 0`: the value stored under `g`, 0 when absent. */
  function Valor(cont: seq<Entrada>, g: Genero): nat {
    if cont == [] then 0
    else if cont[0].genero == g then cont[0].contagem
    else Valor(cont[1..], g)
  }

  /** `g in generosCont`. */
  predicate TemChave(cont: seq<Entrada>, g: Genero) {
    cont != [] && (cont[0].genero == g || TemChave(cont[1..], g))
  }

  /** No key is stored twice. */
  predicate ChavesDistintas(cont: seq<Entrada>) {
    cont == [] || (!TemChave(cont[1..], cont[0].genero) && ChavesDistintas(cont[1..]))
  }

  predicate EntradasPositivas(cont: seq<Entrada>) {
    forall i :: 0 <= i < |cont| ==> cont[i].contagem >= 1
  }

  /** The sum of the stored counts. */
  function Soma(cont: seq<Entrada>): nat {
    if cont == [] then 0 else cont[0].contagem + Soma(cont[1..])
  }

  /** `generosCont[g] = (generosCont[g] || 0) + 1`: an existing key keeps its
      place, a new key goes to the end. */
  function Incrementar(cont: seq<Entrada>, g: Genero): (r: seq<Entrada>)
    ensures |r| == if TemChave(cont, g) then |cont| else |cont| + 1
    ensures Soma(r) == Soma(cont) + 1
    ensures forall h :: Valor(r, h) == Valor(cont, h) + (if h == g then 1 else 0)
    ensures forall h :: TemChave(r, h) <==> TemChave(cont, h) || h == g
    ensures ChavesDistintas(cont) ==> ChavesDistintas(r)
    ensures EntradasPositivas(cont) ==> EntradasPositivas(r)
  {
    if cont == [] then [Entrada(g, 1)]
    else if cont[0].genero == g then
      var r := [cont[0].(contagem := cont[0].contagem + 1)] + cont[1..];
      assert r[1..] == cont[1..];
      r
    else
      var resto := Incrementar(cont[1..], g);
      var r := [cont[0]] + resto;
      assert r[1..] == resto;
      r
  }

  /** Every stored entry's genre is a key. */
  lemma {:induction false} TemChaveIndice(cont: seq<Entrada>, i: nat)
    requires i < |cont|
    ensures TemChave(cont, cont[i].genero)
  {
    if i > 0 {
      TemChaveIndice(cont[1..], i - 1);
    }
  }

  /** A key that is stored has its count as value. */
  lemma {:induction false} ValorDeEntrada(cont: seq<Entrada>, i: nat)
    requires ChavesDistintas(cont) && i < |cont|
    ensures Valor(cont, cont[i].genero) == cont[i].contagem
  {
    if i > 0 {
      ValorDeEntrada(cont[1..], i - 1);
      TemChaveIndice(cont[1..], i - 1);
    }
  }

  /** With positive entries, a key is stored exactly when its value is positive. */
  lemma {:induction false} ValorPositivo(cont: seq<Entrada>, g: Genero)
    requires EntradasPositivas(cont)
    ensures TemChave(cont, g) <==> Valor(cont, g) >= 1
  {
    if cont != [] {
      ValorPositivo(cont[1..], g);
    }
  }

  /** With positive entries the sum is at least the number of entries. */
  lemma {:induction false} SomaMinima(cont: seq<Entrada>)
    requires EntradasPositivas(cont)
    ensures Soma(cont) >= |cont|
  {
    if cont != [] {
      SomaMinima(cont[1..]);
    }
  }

  /** The genres stored as keys: `Object.keys(generosCont)` as a set. */
  function Chaves(cont: seq<Entrada>): set<Genero> {
    if cont == [] then {} else {cont[0].genero} + Chaves(cont[1..])
  }

  lemma {:induction false} TemChaveChaves(cont: seq<Entrada>, g: Genero)
    ensures TemChave(cont, g) <==> g in Chaves(cont)
  {
    if cont != [] {
      TemChaveChaves(cont[1..], g);
    }
  }

  /** With distinct keys there are as many keys as entries. */
  lemma {:induction false} ChavesContam(cont: seq<Entrada>)
    requires ChavesDistintas(cont)
    ensures |Chaves(cont)| == |cont|
  {
    if cont != [] {
      ChavesContam(cont[1..]);
      TemChaveChaves(cont[1..], cont[0].genero);
    }
  }

  /** Distinct keys, stated on positions. */
  lemma {:induction false} ChavesDistintasIndices(s: seq<Entrada>)
    requires ChavesDistintas(s)
    ensures forall i, j :: 0 <= i < j < |s| ==> s[i].genero != s[j].genero
  {
    if s != [] {
      ChavesDistintasIndices(s[1..]);
      forall i, j | 0 <= i < j < |s| ensures s[i].genero != s[j].genero {
        if i == 0 {
          TemChaveIndice(s[1..], j - 1);
        } else {
          assert s[i] == s[1..][i - 1] && s[j] == s[1..][j - 1];
        }
      }
    }
  }

  /** The position of a stored key. */
  lemma {:induction false} EntradaDaChave(cont: seq<Entrada>, g: Genero) returns (k: nat)
    requires TemChave(cont, g)
    ensures k < |cont| && cont[k].genero == g
  {
    if cont[0].genero == g {
      k := 0;
    } else {
      var j := EntradaDaChave(cont[1..], g);
      k := j + 1;
    }
  }

  /** The `forEach` loop that fills `generosCont`. Every stored count is the
      number of works of its genre and at least 1, exactly the genres that
      occur are stored, each once, and the counts add up to the number of
      works, so no works means no entries. */
  method ContarGeneros(obras: seq<Obra>) returns (cont: seq<Entrada>)
    ensures ChavesDistintas(cont) && EntradasPositivas(cont)
    ensures forall g :: Valor(cont, g) == ContagemGenero(obras, g)
    ensures forall i :: 0 <= i < |cont| ==> cont[i].contagem == ContagemGenero(obras, cont[i].genero)
    ensures forall g :: TemChave(cont, g) <==> ContagemGenero(obras, g) >= 1
    ensures Soma(cont) == |obras|
    ensures cont == [] <==> obras == []
  {
    cont := [];
    var i := 0;
    while i < |obras|
      invariant 0 <= i <= |obras|
      invariant ChavesDistintas(cont) && EntradasPositivas(cont)
      invariant forall g :: Valor(cont, g) == ContagemGenero(obras[..i], g)
      invariant Soma(cont) == i
    {
      var g := obras[i].genero;
      assert obras[..i + 1] == obras[..i] + [obras[i]];
      forall h ensures ContagemGenero(obras[..i + 1], h) == ContagemGenero(obras[..i], h) + (if h == g then 1 else 0) {
        FilterAppend((o: Obra) => o.genero == h, obras[..i], obras[i]);
      }
      cont := Incrementar(cont, g);
      i := i + 1;
    }
    assert obras[..i] == obras;
    forall k | 0 <= k < |cont| ensures cont[k].contagem == ContagemGenero(obras, cont[k].genero) {
      ValorDeEntrada(cont, k);
    }
    forall g ensures TemChave(cont, g) <==> ContagemGenero(obras, g) >= 1 {
      ValorPositivo(cont, g);
    }
    SomaMinima(cont);
  }

  /** Non-increasing order of count. */
  predicate Decrescente(s: seq<Entrada>) {
    forall i, j :: 0 <= i < j < |s| ==> s[i].contagem >= s[j].contagem
  }

  /** Inserts `e` before the first entry whose count is not larger, so that
      entries of equal count keep their relative order. */
  function Inserir(e: Entrada, s: seq<Entrada>): (r: seq<Entrada>)
    ensures multiset(r) == multiset(s) + multiset{e}
    ensures |r| == |s| + 1
  {
    if s == [] || e.contagem >= s[0].contagem then [e] + s
    else
      assert s == [s[0]] + s[1..];
      [s[0]] + Inserir(e, s[1..])
  }

  /** Inserting into a sorted sequence keeps it sorted. */
  lemma {:induction false} InserirOrdenado(e: Entrada, s: seq<Entrada>)
    requires Decrescente(s)
    ensures Decrescente(Inserir(e, s))
  {
    if s != [] && e.contagem < s[0].contagem {
      InserirOrdenado(e, s[1..]);
      InserirLimitado(e, s[1..], Inserir(e, s[1..]), s[0].contagem);
    }
  }

  /** Every element of an insertion result is `e` or comes from `s`, so a
      bound on both bounds the result. */
  lemma InserirLimitado(e: Entrada, s: seq<Entrada>, r: seq<Entrada>, m: nat)
    requires multiset(r) == multiset(s) + multiset{e}
    requires e.contagem <= m && forall k :: 0 <= k < |s| ==> s[k].contagem <= m
    ensures forall k :: 0 <= k < |r| ==> r[k].contagem <= m
  {
    forall k | 0 <= k < |r| ensures r[k].contagem <= m {
      assert r[k] in multiset(r);
      if r[k] != e {
        assert r[k] in multiset(s);
        var j :| 0 <= j < |s| && s[j] == r[k];
      }
    }
  }

  /** `sort(([, a], [, b]) => b - a)`: a stable sort by descending count. */
  function OrdenarDesc(s: seq<Entrada>): (r: seq<Entrada>)
    ensures multiset(r) == multiset(s)
    ensures |r| == |s|
    ensures Decrescente(r)
  {
    if s == [] then []
    else
      assert s == [s[0]] + s[1..];
      InserirOrdenado(s[0], OrdenarDesc(s[1..]));
      Inserir(s[0], OrdenarDesc(s[1..]))
  }

  /** Insertion adds the inserted key and keeps keys distinct when it is new. */
  lemma {:induction false} InserirChaves(e: Entrada, s: seq<Entrada>)
    ensures Chaves(Inserir(e, s)) == Chaves(s) + {e.genero}
    ensures ChavesDistintas(s) && e.genero !in Chaves(s) ==> ChavesDistintas(Inserir(e, s))
  {
    var r := Inserir(e, s);
    if s == [] || e.contagem >= s[0].contagem {
      assert r[1..] == s;
      TemChaveChaves(s, e.genero);
    } else {
      InserirChaves(e, s[1..]);
      assert r[1..] == Inserir(e, s[1..]);
      TemChaveChaves(s[1..], s[0].genero);
      TemChaveChaves(r[1..], s[0].genero);
    }
  }

  /** Sorting keeps the keys, and keeps them distinct. */
  lemma {:induction false} OrdenarChaves(s: seq<Entrada>)
    ensures Chaves(OrdenarDesc(s)) == Chaves(s)
    ensures ChavesDistintas(s) ==> ChavesDistintas(OrdenarDesc(s))
  {
    if s != [] {
      OrdenarChaves(s[1..]);
      InserirChaves(s[0], OrdenarDesc(s[1..]));
      TemChaveChaves(s[1..], s[0].genero);
    }
  }

  /** A prefix keeps a subset of the keys, and keeps them distinct. */
  lemma {:induction false} PrefixoChaves(s: seq<Entrada>, k: nat)
    requires k <= |s|
    ensures Chaves(s[..k]) <= Chaves(s)
    ensures ChavesDistintas(s) ==> ChavesDistintas(s[..k])
  {
    if k > 0 {
      PrefixoChaves(s[1..], k - 1);
      assert s[..k][1..] == s[1..][..k - 1];
      TemChaveChaves(s[1..], s[0].genero);
      TemChaveChaves(s[..k][1..], s[0].genero);
    }
  }

  /** `generosOrdenados`: at most five entries, by non-increasing count,
      each taken from the histogram at most as often as it occurs there (so
      distinct keys stay distinct), and no entry left out counts more than
      one kept; an empty histogram gives an empty ranking. */
  function GenerosOrdenados(cont: seq<Entrada>): (r: seq<Entrada>)
    ensures |r| == if |cont| <= 5 then |cont| else 5
    ensures Decrescente(r)
    ensures multiset(r) <= multiset(cont)
    ensures ChavesDistintas(cont) ==> ChavesDistintas(r)
    ensures forall e, x :: e in multiset(cont) - multiset(r) && x in r ==> e.contagem <= x.contagem
  {
    CorteDoHistograma(cont);
    ChavesDoCorte(cont);
    Take(OrdenarDesc(cont), 5)
  }

  /** The first five of the sorted histogram are sorted and part of it, and
      nothing dropped counts more than something kept. */
  lemma CorteDoHistograma(cont: seq<Entrada>)
    ensures var r := Take(OrdenarDesc(cont), 5);
      Decrescente(r) && multiset(r) <= multiset(cont) &&
      forall e, x :: e in multiset(cont) - multiset(r) && x in r ==> e.contagem <= x.contagem
  {
    var ord := OrdenarDesc(cont);
    var r := Take(ord, 5);
    assert r == ord[..|r|];
    assert Decrescente(r);
    CorteOrdenado(ord, |r|);
  }

  /** The first five of the sorted histogram keep its keys distinct. */
  lemma ChavesDoCorte(cont: seq<Entrada>)
    ensures ChavesDistintas(cont) ==> ChavesDistintas(Take(OrdenarDesc(cont), 5))
  {
    var ord := OrdenarDesc(cont);
    var r := Take(ord, 5);
    assert r == ord[..|r|];
    OrdenarChaves(cont);
    PrefixoChaves(ord, |r|);
  }

  /** Cutting a sorted sequence: the kept part is part of the whole, and what
      is dropped counts no more than what is kept. */
  lemma CorteOrdenado(ord: seq<Entrada>, k: nat)
    requires Decrescente(ord) && k <= |ord|
    ensures multiset(ord[..k]) <= multiset(ord)
    ensures forall e, x :: e in multiset(ord) - multiset(ord[..k]) && x in ord[..k] ==> e.contagem <= x.contagem
  {
    assert ord == ord[..k] + ord[k..];
    assert multiset(ord) == multiset(ord[..k]) + multiset(ord[k..]);
    forall e, x | e in multiset(ord) - multiset(ord[..k]) && x in ord[..k] ensures e.contagem <= x.contagem {
      assert e in multiset(ord[k..]);
      var j :| 0 <= j < |ord[k..]| && ord[k..][j] == e;
      var i :| 0 <= i < k && ord[..k][i] == x;
      assert ord[i] == x && ord[k + j] == e;
    }
  }

  /** The genres that occur among the works. */
  function Ocorrem(obras: seq<Obra>): set<Genero> {
    set g | g in Generos && ContagemGenero(obras, g) >= 1
  }

  /** A histogram whose keys are distinct and are exactly the occurring
      genres has one entry per occurring genre. */
  lemma {:induction false} UmaEntradaPorGenero(obras: seq<Obra>, cont: seq<Entrada>)
    requires ChavesDistintas(cont)
    requires forall g :: TemChave(cont, g) <==> ContagemGenero(obras, g) >= 1
    ensures |cont| == |Ocorrem(obras)|
  {
    GenerosSaoCatorze();
    forall g ensures g in Chaves(cont) <==> g in Ocorrem(obras) {
      TemChaveChaves(cont, g);
    }
    assert Chaves(cont) == Ocorrem(obras);
    ChavesContam(cont);
  }

  /** A stored genre that did not make the cut counts no more than any kept
      entry. */
  lemma {:induction false} ForaDoCorte(obras: seq<Obra>, cont: seq<Entrada>, top: seq<Entrada>, g: Genero, i: nat)
    requires forall k :: 0 <= k < |cont| ==> cont[k].contagem == ContagemGenero(obras, cont[k].genero)
    requires forall e, x :: e in multiset(cont) - multiset(top) && x in top ==> e.contagem <= x.contagem
    requires TemChave(cont, g) && !TemChave(top, g) && i < |top|
    ensures ContagemGenero(obras, g) <= top[i].contagem
  {
    var k := EntradaDaChave(cont, g);
    if cont[k] in top {
      var j :| 0 <= j < |top| && top[j] == cont[k];
      TemChaveIndice(top, j);
    }
    assert cont[k] in multiset(cont) - multiset(top);
    assert top[i] in top;
  }

  /** Entries taken from a histogram carry their genre's true count. */
  lemma ContagensNoCorte(obras: seq<Obra>, cont: seq<Entrada>, top: seq<Entrada>)
    requires EntradasPositivas(cont)
    requires forall k :: 0 <= k < |cont| ==> cont[k].contagem == ContagemGenero(obras, cont[k].genero)
    requires multiset(top) <= multiset(cont)
    ensures forall i :: 0 <= i < |top| ==> top[i].contagem == ContagemGenero(obras, top[i].genero) >= 1
  {
    forall i | 0 <= i < |top| ensures top[i].contagem == ContagemGenero(obras, top[i].genero) >= 1 {
      assert top[i] in multiset(cont);
    }
  }

  /** The whole top five for a list of works: as many genres as occur, up
      to five, each once, by non-increasing count, each with its true number
      of works; no occurring genre left out has more works than one shown;
      no works means no ranking. */
  method Ranking(obras: seq<Obra>) returns (top: seq<Entrada>)
    ensures |top| == if |Ocorrem(obras)| <= 5 then |Ocorrem(obras)| else 5
    ensures Decrescente(top)
    ensures forall i, j :: 0 <= i < j < |top| ==> top[i].genero != top[j].genero
    ensures forall i :: 0 <= i < |top| ==> top[i].contagem == ContagemGenero(obras, top[i].genero) >= 1
    ensures forall g, i :: ContagemGenero(obras, g) >= 1 && !TemChave(top, g) && 0 <= i < |top| ==>
      ContagemGenero(obras, g) <= top[i].contagem
    ensures obras == [] ==> top == []
  {
    var cont := ContarGeneros(obras);
    top := GenerosOrdenados(cont);
    UmaEntradaPorGenero(obras, cont);
    ChavesDistintasIndices(top);
    ContagensNoCorte(obras, cont, top);
    forall g, i | ContagemGenero(obras, g) >= 1 && !TemChave(top, g) && 0 <= i < |top|
      ensures ContagemGenero(obras, g) <= top[i].contagem
    {
      ForaDoCorte(obras, cont, top, g, i);
    }
  }
}
