/**
 * The raw-material listing page: the rows the server rendered are captured
 * once, and the table is then redrawn from them each time the search box or
 * the filter (by material name or by supplier) changes.
 */
module RawMaterialFilter {
  import opened Wrappers
  import opened Text

  /** One captured row: the trimmed text of its five cells. */
  datatype Linha = Linha(dataEmissao: string, nome: string, fornecedor: string, unidade: string, valorUnitario: string)

  /** The filter the page starts with: by material name. */
  const FiltroMateria: string := "materia"

  /**
   * static/js/pages/listar_materia_prima.js:11-18: a row's five cells, trimmed.
   * A row with fewer than five cells reads an undefined cell and throws.
   */
  function LinhaCapturada(cells: seq<string>): (r: Option<Linha>)
    ensures r.Some? <==> |cells| >= 5
    ensures r.Some? ==> r.value.nome == Strip(cells[1]) && r.value.fornecedor == Strip(cells[2])
  {
    if |cells| < 5 then None
    else Some(Linha(Strip(cells[0]), Strip(cells[1]), Strip(cells[2]), Strip(cells[3]), Strip(cells[4])))
  }

  /** Every row captured, in table order; None when some row throws, which stops the page's setup. */
  function Capturadas(rows: seq<seq<string>>): (r: Option<seq<Linha>>)
    ensures r.Some? <==> forall k | 0 <= k < |rows| :: |rows[k]| >= 5
    ensures r.Some? ==> |r.value| == |rows| && forall k | 0 <= k < |rows| :: Some(r.value[k]) == LinhaCapturada(rows[k])
  {
    if rows == [] then Some([])
    else
      match Capturadas(rows[..|rows| - 1])
      case None => None
      case Some(xs) =>
        match LinhaCapturada(rows[|rows| - 1])
        case None => None
        case Some(x) => Some(xs + [x])
  }

  /** static/js/pages/listar_materia_prima.js:10-19: the capture loop. */
  method Capturar(rows: seq<seq<string>>) returns (r: Option<seq<Linha>>)
    ensures r == Capturadas(rows)
  {
    var itens: seq<Linha> := [];
    var k := 0;
    while k < |rows|
      invariant 0 <= k <= |rows|
      invariant Capturadas(rows[..k]) == Some(itens)
    {
      assert rows[..k + 1][..k] == rows[..k];
      var x := LinhaCapturada(rows[k]);
      if x.None? {
        assert Capturadas(rows[..k + 1]).None?;
        assert Capturadas(rows).None? by {
          assert rows[..k + 1][k] == rows[k];
        }
        return None;
      }
      itens := itens + [x.value];
      k := k + 1;
    }
    assert rows[..k] == rows;
    return Some(itens);
  }

  /**
   * static/js/pages/listar_materia_prima.js:33-39: a row stays when its name
   * (filter "materia") or else its supplier, lower-cased, contains the
   * lower-cased search text.
   */
  predicate Mantida(x: Linha, filtro: string, valor: string) {
    Contains(Lower(if filtro == FiltroMateria then x.nome else x.fornecedor), Lower(valor))
  }

  /** The rows that stay, in their original order. */
  function Filtrados(xs: seq<Linha>, filtro: string, valor: string): seq<Linha> {
    if xs == [] then []
    else
      var p := Filtrados(xs[..|xs| - 1], filtro, valor);
      if Mantida(xs[|xs| - 1], filtro, valor) then p + [xs[|xs| - 1]] else p
  }

  /** A row is shown exactly when it is an original row that matches. */
  lemma {:induction false} FiltradosSpec(xs: seq<Linha>, filtro: string, valor: string)
    ensures forall x :: x in Filtrados(xs, filtro, valor) <==> x in xs && Mantida(x, filtro, valor)
    decreases |xs|
  {
    if xs != [] {
      var p := xs[..|xs| - 1];
      FiltradosSpec(p, filtro, valor);
      assert xs == p + [xs[|xs| - 1]];
    }
  }

  /** Filtering keeps order: the rows of two parts are the rows of each part, one after the other. */
  lemma {:induction false} FiltradosConcat(xs: seq<Linha>, ys: seq<Linha>, filtro: string, valor: string)
    ensures Filtrados(xs + ys, filtro, valor) == Filtrados(xs, filtro, valor) + Filtrados(ys, filtro, valor)
    decreases |ys|
  {
    if ys == [] {
      assert xs + ys == xs;
    } else {
      var p := ys[..|ys| - 1];
      assert (xs + ys)[..|xs + ys| - 1] == xs + p;
      assert (xs + ys)[|xs + ys| - 1] == ys[|ys| - 1];
      FiltradosConcat(xs, p, filtro, valor);
    }
  }

  /** `a` is `b` with some elements left out, the rest in the same order. */
  predicate Subsequencia(a: seq<Linha>, b: seq<Linha>)
    decreases |b|
  {
    if a == [] then true
    else if b == [] then false
    else if a[|a| - 1] == b[|b| - 1] then Subsequencia(a[..|a| - 1], b[..|b| - 1])
    else Subsequencia(a, b[..|b| - 1])
  }

  /** A subsequence of a shorter sequence is a subsequence of it with one more element. */
  lemma {:induction false} SubsequenciaSnoc(a: seq<Linha>, b: seq<Linha>, y: Linha)
    requires Subsequencia(a, b)
    ensures Subsequencia(a, b + [y])
    decreases |b|, 1
  {
    if a != [] && a[|a| - 1] == y {
      assert (b + [y])[..|b|] == b;
      SubsequenciaPrefixo(a, b);
    } else {
      assert (b + [y])[..|b|] == b;
    }
  }

  /** Dropping the last element of a subsequence keeps it a subsequence. */
  lemma {:induction false} SubsequenciaPrefixo(a: seq<Linha>, b: seq<Linha>)
    requires a != [] && Subsequencia(a, b)
    ensures Subsequencia(a[..|a| - 1], b)
    decreases |b|, 0
  {
    if b != [] {
      if a[|a| - 1] == b[|b| - 1] {
        SubsequenciaSnoc(a[..|a| - 1], b[..|b| - 1], b[|b| - 1]);
        assert b[..|b| - 1] + [b[|b| - 1]] == b;
      } else {
        SubsequenciaPrefixo(a, b[..|b| - 1]);
        SubsequenciaSnoc(a[..|a| - 1], b[..|b| - 1], b[|b| - 1]);
        assert b[..|b| - 1] + [b[|b| - 1]] == b;
      }
    }
  }

  /** Keeping one more element at the end of both keeps a subsequence. */
  lemma SubsequenciaAmbos(a: seq<Linha>, b: seq<Linha>, y: Linha)
    requires Subsequencia(a, b)
    ensures Subsequencia(a + [y], b + [y])
  {
    assert (a + [y])[..|a|] == a && (b + [y])[..|b|] == b;
  }

  /** The shown rows are the original rows with some left out, never reordered. */
  lemma {:induction false} FiltradosSubsequencia(xs: seq<Linha>, filtro: string, valor: string)
    ensures Subsequencia(Filtrados(xs, filtro, valor), xs)
    decreases |xs|
  {
    if xs != [] {
      var p := xs[..|xs| - 1];
      var x := xs[|xs| - 1];
      assert p + [x] == xs;
      FiltradosSubsequencia(p, filtro, valor);
      var f := Filtrados(p, filtro, valor);
      if Mantida(x, filtro, valor) {
        assert Filtrados(xs, filtro, valor) == f + [x];
        SubsequenciaAmbos(f, p, x);
      } else {
        assert Filtrados(xs, filtro, valor) == f;
        SubsequenciaSnoc(f, p, x);
      }
    }
  }

  /** An empty search box shows every row, under either filter. */
  lemma {:induction false} FiltradosVazio(xs: seq<Linha>, filtro: string)
    ensures Filtrados(xs, filtro, []) == xs
    decreases |xs|
  {
    if xs != [] {
      var p := xs[..|xs| - 1];
      FiltradosVazio(p, filtro);
      assert Lower([]) == [];
      var campo := Lower(if filtro == FiltroMateria then xs[|xs| - 1].nome else xs[|xs| - 1].fornecedor);
      assert campo[0..0] == [];
      assert p + [xs[|xs| - 1]] == xs;
    }
  }

  /** Filtering twice with the same filter and text changes nothing more. */
  lemma {:induction false} FiltradosIdempotente(xs: seq<Linha>, filtro: string, valor: string)
    ensures Filtrados(Filtrados(xs, filtro, valor), filtro, valor) == Filtrados(xs, filtro, valor)
    decreases |xs|
  {
    if xs != [] {
      var p := xs[..|xs| - 1];
      var x := xs[|xs| - 1];
      FiltradosIdempotente(p, filtro, valor);
      if Mantida(x, filtro, valor) {
        FiltradosConcat(Filtrados(p, filtro, valor), [x], filtro, valor);
        assert [x][..0] == [];
      }
    }
  }

  /** Any radio value other than "materia" filters by supplier. */
  lemma OutroFiltroFornecedor(xs: seq<Linha>, filtro: string, valor: string)
    requires filtro != FiltroMateria
    ensures forall x :: x in Filtrados(xs, filtro, valor) <==> x in xs && Contains(Lower(x.fornecedor), Lower(valor))
  {
    FiltradosSpec(xs, filtro, valor);
  }

  /** The page: the captured rows, the current filter, the search box's text and the rows on screen. */
  class Pagina {
    var filtroAtual: string
    var itensOriginais: seq<Linha>
    var valorBusca: string
    var tabela: seq<Linha>

    /** The table shows exactly the captured rows that match the current filter and text: filters never accumulate. */
    predicate Valid()
      reads this
    {
      tabela == Filtrados(itensOriginais, filtroAtual, valorBusca)
    }

    /**
     * static/js/pages/listar_materia_prima.js:6-19: the page after capture,
     * showing every row with an empty search box and the material filter.
     */
    constructor (linhas: seq<Linha>)
      ensures Valid()
      ensures filtroAtual == FiltroMateria && itensOriginais == linhas && valorBusca == [] && tabela == linhas
    {
      filtroAtual := FiltroMateria;
      itensOriginais := linhas;
      valorBusca := [];
      tabela := linhas;
      FiltradosVazio(linhas, FiltroMateria);
    }

    /** static/js/pages/listar_materia_prima.js:32-54: `filtrarTabela`, filtering and then redrawing the rows. */
    method FiltrarTabela()
      modifies this`tabela
      ensures Valid()
    {
      var filtrados: seq<Linha> := [];
      var k := 0;
      while k < |itensOriginais|
        invariant 0 <= k <= |itensOriginais|
        invariant filtrados == Filtrados(itensOriginais[..k], filtroAtual, valorBusca)
      {
        assert itensOriginais[..k + 1][..k] == itensOriginais[..k];
        if Mantida(itensOriginais[k], filtroAtual, valorBusca) {
          filtrados := filtrados + [itensOriginais[k]];
        }
        k := k + 1;
      }
      assert itensOriginais[..k] == itensOriginais;
      tabela := [];
      var j := 0;
      while j < |filtrados|
        invariant 0 <= j <= |filtrados|
        invariant tabela == filtrados[..j]
      {
        tabela := tabela + [filtrados[j]];
        j := j + 1;
      }
      assert filtrados[..j] == filtrados;
    }

    /** static/js/pages/listar_materia_prima.js:30: typing in the search box. */
    method Digitar(valor: string)
      modifies this
      ensures Valid()
      ensures valorBusca == valor && filtroAtual == old(filtroAtual) && itensOriginais == old(itensOriginais)
    {
      valorBusca := valor;
      FiltrarTabela();
    }

    /** static/js/pages/listar_materia_prima.js:22-27: choosing a filter radio. */
    method MudarFiltro(radio: string)
      modifies this
      ensures Valid()
      ensures filtroAtual == radio && valorBusca == old(valorBusca) && itensOriginais == old(itensOriginais)
    {
      filtroAtual := radio;
      FiltrarTabela();
    }
  }
}
