/**
  The moto search box: the motos whose plate or chassis contains the typed
  text, ignoring letter case, in the order they were given.
 */
module BuscaMoto {
  import opened Basics
  import opened Text

  /** A listed moto; either identifier may be missing. Other fields play no part here. */
  datatype Moto = Moto(placa: Option<string>, chassi: Option<string>)

  /** `campo?.toLowerCase().includes(busca.toLowerCase())`, false when the field is missing. */
  predicate CampoContem(campo: Option<string>, busca: string)
  {
    campo.Some? && Includes(Lower(campo.value), Lower(busca))
  }

  /** The filter predicate: the plate or else the chassis contains the query. */
  predicate Corresponde(m: Moto, busca: string)
  {
    CampoContem(m.placa, busca) || CampoContem(m.chassi, busca)
  }

  /** `motos.filter(...)`: the matching motos, no others. */
  function Resultados(motos: seq<Moto>, busca: string): (r: seq<Moto>)
    ensures |r| <= |motos|
    ensures forall m :: m in r <==> m in motos && Corresponde(m, busca)
  {
    if |motos| == 0 then []
    else
      var resto := Resultados(motos[1..], busca);
      assert forall m :: m in motos <==> m == motos[0] || m in motos[1..];
      if Corresponde(motos[0], busca) then [motos[0]] + resto else resto
  }

  /** `idx` picks the elements of `a` out of `b`, at strictly increasing positions. */
  ghost predicate Indices<T>(idx: seq<int>, a: seq<T>, b: seq<T>)
  {
    && |idx| == |a|
    && (forall k :: 0 <= k < |idx| ==> 0 <= idx[k] < |b| && a[k] == b[idx[k]])
    && (forall k, l :: 0 <= k < l < |idx| ==> idx[k] < idx[l])
  }

  /** `a` is `b` with some elements left out and the rest kept in order. */
  ghost predicate Subsequencia<T>(a: seq<T>, b: seq<T>)
  {
    exists idx :: Indices(idx, a, b)
  }

  /** `s.filter(f)` for any test `f`: the elements passing it, in their order. */
  function Filtrar<T>(s: seq<T>, f: T -> bool): (r: seq<T>)
    ensures |r| <= |s|
  {
    if |s| == 0 then []
    else if f(s[0]) then [s[0]] + Filtrar(s[1..], f)
    else Filtrar(s[1..], f)
  }

  /** The search results are the list filtered by the search's test. */
  lemma {:induction false} ResultadosFiltram(motos: seq<Moto>, busca: string)
    ensures Resultados(motos, busca) == Filtrar(motos, m => Corresponde(m, busca))
  {
    if |motos| > 0 {
      ResultadosFiltram(motos[1..], busca);
    }
  }

  /**
    The positions of the results in the input list: exactly the positions of
    the matching motos, so a moto listed twice is kept twice.
   */
  lemma PosicoesDosResultados(motos: seq<Moto>, busca: string) returns (idx: seq<int>)
    ensures Indices(idx, Resultados(motos, busca), motos)
    ensures forall k :: 0 <= k < |idx| ==> Corresponde(motos[idx[k]], busca)
    ensures forall i :: 0 <= i < |motos| && Corresponde(motos[i], busca) ==> i in idx
  {
    ResultadosFiltram(motos, busca);
    idx := PosicoesFiltradas(motos, m => Corresponde(m, busca));
  }

  /** The positions `Filtrar` keeps: those of the elements passing the test, and only those. */
  lemma {:induction false} PosicoesFiltradas<T>(s: seq<T>, f: T -> bool) returns (idx: seq<int>)
    ensures Indices(idx, Filtrar(s, f), s)
    ensures forall k :: 0 <= k < |idx| ==> f(s[idx[k]])
    ensures forall i :: 0 <= i < |s| && f(s[i]) ==> i in idx
  {
    if |s| == 0 {
      idx := [];
    } else {
      var resto := PosicoesFiltradas(s[1..], f);
      var deslocado := Deslocar(s, f, resto);
      if f(s[0]) {
        idx := Anteceder(s, f, deslocado);
      } else {
        idx := deslocado;
        forall i | 0 <= i < |s| && f(s[i]) ensures i in idx {
          assert i != 0;
        }
      }
    }
  }

  /** Every position moved one place to the right. */
  function Mais1(idx: seq<int>): (r: seq<int>)
    ensures |r| == |idx|
    ensures forall k :: 0 <= k < |idx| ==> r[k] == idx[k] + 1
  {
    seq(|idx|, k requires 0 <= k < |idx| => idx[k] + 1)
  }

  /** The positions found in the tail, shifted by one to point into the whole list. */
  lemma Deslocar<T>(s: seq<T>, f: T -> bool, resto: seq<int>) returns (deslocado: seq<int>)
    requires |s| > 0
    requires Indices(resto, Filtrar(s[1..], f), s[1..])
    requires forall k :: 0 <= k < |resto| ==> f(s[1..][resto[k]])
    requires forall i :: 0 <= i < |s[1..]| && f(s[1..][i]) ==> i in resto
    ensures Indices(deslocado, Filtrar(s[1..], f), s)
    ensures forall k :: 0 <= k < |deslocado| ==> 1 <= deslocado[k] && f(s[deslocado[k]])
    ensures forall i :: 1 <= i < |s| && f(s[i]) ==> i in deslocado
  {
    deslocado := Mais1(resto);
    DeslocarIndices(s, Filtrar(s[1..], f), resto);
    DeslocarCompleto(s, f, resto);
  }

  /** Shifting positions into the tail by one makes them positions into the whole list. */
  lemma DeslocarIndices<T>(s: seq<T>, a: seq<T>, resto: seq<int>)
    requires |s| > 0 && Indices(resto, a, s[1..])
    ensures Indices(Mais1(resto), a, s)
    ensures forall k :: 0 <= k < |resto| ==> 1 <= Mais1(resto)[k] && s[Mais1(resto)[k]] == s[1..][resto[k]]
  {
    var d := Mais1(resto);
    forall k | 0 <= k < |d| ensures 0 <= d[k] < |s| && a[k] == s[d[k]] {
      assert a[k] == s[1..][resto[k]];
    }
  }

  /** Every passing position past the head is among the shifted positions of the tail. */
  lemma DeslocarCompleto<T>(s: seq<T>, f: T -> bool, resto: seq<int>)
    requires |s| > 0
    requires forall i :: 0 <= i < |s[1..]| && f(s[1..][i]) ==> i in resto
    ensures forall i :: 1 <= i < |s| && f(s[i]) ==> i in Mais1(resto)
  {
    var d := Mais1(resto);
    forall i | 1 <= i < |s| && f(s[i]) ensures i in d {
      assert s[1..][i - 1] == s[i];
      var k :| 0 <= k < |resto| && resto[k] == i - 1;
      assert d[k] == i;
    }
  }

  /** An element passing the test at the head: its position goes in front of the shifted ones. */
  lemma Anteceder<T>(s: seq<T>, f: T -> bool, deslocado: seq<int>) returns (idx: seq<int>)
    requires |s| > 0 && f(s[0])
    requires Indices(deslocado, Filtrar(s[1..], f), s)
    requires forall k :: 0 <= k < |deslocado| ==> 1 <= deslocado[k] && f(s[deslocado[k]])
    requires forall i :: 1 <= i < |s| && f(s[i]) ==> i in deslocado
    ensures Indices(idx, Filtrar(s, f), s)
    ensures forall k :: 0 <= k < |idx| ==> f(s[idx[k]])
    ensures forall i :: 0 <= i < |s| && f(s[i]) ==> i in idx
  {
    idx := [0] + deslocado;
    var rr := Filtrar(s[1..], f);
    var r := [s[0]] + rr;
    forall k | 0 < k < |idx| ensures 0 <= idx[k] < |s| && r[k] == s[idx[k]] {
      assert idx[k] == deslocado[k - 1] && r[k] == rr[k - 1];
    }
    forall i | 0 <= i < |s| && f(s[i]) ensures i in idx {
      if i > 0 {
        assert i in deslocado;
      }
    }
  }

  /** The results are a subsequence of the list: nothing is reordered. */
  lemma ResultadosSubsequencia(motos: seq<Moto>, busca: string)
    ensures Subsequencia(Resultados(motos, busca), motos)
  {
    var idx := PosicoesDosResultados(motos, busca);
  }

  /** Filtering the results again with the same query changes nothing. */
  lemma {:induction false} ResultadosIdempotente(motos: seq<Moto>, busca: string)
    ensures Resultados(Resultados(motos, busca), busca) == Resultados(motos, busca)
  {
    if |motos| > 0 {
      ResultadosIdempotente(motos[1..], busca);
      var resto := Resultados(motos[1..], busca);
      if Corresponde(motos[0], busca) {
        assert ([motos[0]] + resto)[1..] == resto;
      }
    }
  }

  /** Queries that differ only in the case of their letters give the same results. */
  lemma CaixaIrrelevante(motos: seq<Moto>, b1: string, b2: string)
    requires |b1| == |b2|
    requires forall k :: 0 <= k < |b1| ==> LowerChar(b1[k]) == LowerChar(b2[k])
    ensures Resultados(motos, b1) == Resultados(motos, b2)
  {
    assert Lower(b1) == Lower(b2);
  }

  /** In particular, typing the query in capitals changes nothing. */
  lemma MaiusculasIrrelevantes(motos: seq<Moto>, busca: string)
    ensures Resultados(motos, Upper(busca)) == Resultados(motos, busca)
  {
    LowerUpper(busca);
  }

  /** The empty query lists every moto that has a plate or a chassis, and only those. */
  lemma BuscaVazia(motos: seq<Moto>)
    ensures forall m :: m in Resultados(motos, "") <==> m in motos && (m.placa.Some? || m.chassi.Some?)
  {
  }

  /** A moto with neither plate nor chassis never appears, whatever the query. */
  lemma SemIdentificacao(motos: seq<Moto>, busca: string, m: Moto)
    requires m.placa.None? && m.chassi.None?
    ensures m !in Resultados(motos, busca)
  {
  }

  /** The "Nenhuma moto encontrada" line: something typed, nothing listed. */
  predicate NenhumaEncontrada(motos: seq<Moto>, busca: string)
  {
    |busca| > 0 && |Resultados(motos, busca)| == 0
  }

  /** The message shows exactly when a non-empty query matches no moto at all. */
  lemma NenhumaEncontradaSse(motos: seq<Moto>, busca: string)
    ensures NenhumaEncontrada(motos, busca) <==>
      |busca| > 0 && forall i :: 0 <= i < |motos| ==> !Corresponde(motos[i], busca)
  {
    var r := Resultados(motos, busca);
    if |r| > 0 {
      assert r[0] in r;
    }
    if exists i :: 0 <= i < |motos| && Corresponde(motos[i], busca) {
      var i :| 0 <= i < |motos| && Corresponde(motos[i], busca);
      assert motos[i] in r;
    }
  }
}
