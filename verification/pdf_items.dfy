/**
 * Product items read from a DANFE PDF: the rows of the product table (or,
 * when no table gives an item, the product lines the text pattern found),
 * each turned into an item that carries the supplier data of the header,
 * given a code when the PDF has none, and kept only when it passes
 * `validar_item`.
 *
 * The PDF library and the regular-expression engine are not modelled: the
 * tables are given as cells (`None` for an empty cell), the product-line
 * matches as their eight captured groups. The clock reading
 * `datetime.now().isoformat()` is the `agora` parameter.
 */
module PdfItems {
  import opened Wrappers
  import opened Text
  import opened Numbers
  import opened Codes
  import opened PdfHeader

  /** An item as `processar_linha_produto` and `extrair_produtos_do_texto` build it. */
  datatype Item = Item(
    codigo: string,
    nome: string,
    unidade: string,
    quantidade: real,
    valorUnitario: real,
    dataEmissao: string,
    fornecedor: string,
    cnpjFornecedor: string,
    timestamp: string)

  /** A table cell as the PDF library reports it: `None` for an empty cell. */
  type Celula = Option<string>
  type Linha = seq<Celula>
  type Tabela = seq<Linha>

  /** pdf_processor.py:370: words that mark a line as administrative, not a product. */
  const PalavrasNegativas: seq<string> := ["PROTOCOLO", "PESO", "LIQUIDO", "ENDERECO", "CHAVE", "ACESSO", "TOTAL"]

  /** pdf_processor.py:205: words that mark a header row as the product table's. */
  const PalavrasCabecalho: seq<string> := ["CÓDIGO PRODUTO", "DESCRIÇÃO", "QUANT", "VALOR UNIT"]

  /** pdf_processor.py:360-384: `validar_item`. */
  predicate ValidarItem(item: Item) {
    item.nome != [] && item.nome != "Sem nome"
    && !ContainsAny(Upper(item.nome), PalavrasNegativas)
    && item.valorUnitario > 0.0 && item.quantidade > 0.0
  }

  /** `validar_item` accepts exactly the named products with positive price and quantity and no administrative word. */
  lemma ValidarItemIff(item: Item)
    ensures ValidarItem(item) <==>
              item.nome != [] && item.nome != "Sem nome"
              && (forall k | 0 <= k < |PalavrasNegativas| :: !Contains(Upper(item.nome), PalavrasNegativas[k]))
              && item.valorUnitario > 0.0 && item.quantidade > 0.0
  {
    ContainsAnyIff(Upper(item.nome), PalavrasNegativas);
  }

  /** `str(c or padrao).strip()`: the cell's text, or `padrao` for an empty cell, stripped. */
  function LerCelula(c: Celula, padrao: string): (r: string)
    ensures NoSpaceAtEnds(r)
    ensures c.None? || c.value == [] ==> r == Strip(padrao)
  {
    match c
    case Some(s) => if s != [] then Strip(s) else Strip(padrao)
    case None => Strip(padrao)
  }

  /**
   * pdf_processor.py:225-258 and 270-280, before the code repair: the item a
   * table row describes, with the code as read. A row too short to hold a
   * description, or whose description is empty, "None" or "nan", gives none.
   * Missing unit, quantity and price cells read as "CT", "0" and "0".
   */
  function LerLinhaProduto(linha: Linha, em: Emitente, agora: string): (r: Option<Item>)
    ensures r.Some? ==> |linha| >= 2 && r.value.nome == LerCelula(linha[1], "") && r.value.nome !in {"", "None", "nan"}
    ensures r.Some? ==> r.value.codigo == LerCelula(linha[0], "")
    ensures r.Some? ==> r.value.fornecedor == em.nome && r.value.cnpjFornecedor == em.cnpj
                        && r.value.dataEmissao == em.dataEmissao && r.value.timestamp == agora
    ensures |linha| >= 2 && LerCelula(linha[1], "") !in {"", "None", "nan"} ==> r.Some?
  {
    if |linha| < 2 then None
    else
      var codigo := LerCelula(linha[0], "");
      var descricao := LerCelula(linha[1], "");
      var unidade := if |linha| > 5 then LerCelula(linha[5], "") else "CT";
      var quantidadeStr := if |linha| > 6 then LerCelula(linha[6], "0") else "0";
      var valorStr := if |linha| > 7 then LerCelula(linha[7], "0") else "0";
      if descricao in {"", "None", "nan"} then None
      else
        Some(Item(codigo, descricao, unidade, ConverterParaFloat(quantidadeStr), ConverterParaFloat(valorStr),
                  em.dataEmissao, em.nome, em.cnpj, agora))
  }

  /** The code an item leaves `processar_linha_produto` with: a fresh one when the read code needs replacing. */
  function CodigoFinal(codigo: string, rand: nat -> Digit, at: nat): (r: string)
    ensures !PrecisaNovoCodigo(r)
    ensures !PrecisaNovoCodigo(codigo) ==> r == codigo
  {
    if PrecisaNovoCodigo(codigo) then
      CodigoNumericoAceito(CodigoNumerico(rand, at));
      CodigoNumerico(rand, at)
    else codigo
  }

  /** The item `processar_linha_produto` returns for a row when its draws start at `at`. */
  function Processada(linha: Linha, em: Emitente, agora: string, rand: nat -> Digit, at: nat): Option<Item> {
    match LerLinhaProduto(linha, em, agora)
    case None => None
    case Some(it) => Some(it.(codigo := CodigoFinal(it.codigo, rand, at)))
  }

  /** A row of exactly seven cells has no price cell: its price reads as "0", so `validar_item` refuses it. */
  lemma SeteCelulasRecusadas(linha: Linha, em: Emitente, agora: string, rand: nat -> Digit, at: nat)
    requires |linha| == 7
    ensures Processada(linha, em, agora, rand, at).Some? ==>
              Processada(linha, em, agora, rand, at).value.valorUnitario == 0.0
              && !ValidarItem(Processada(linha, em, agora, rand, at).value)
  {
    assert AllDigits("0") by { assert IsDigit("0"[0]); }
    ConverterDigits("0");
  }

  /** The digits `processar_linha_produto` draws for a row: six when it generates a code, none otherwise. */
  function Consumidas(linha: Linha, em: Emitente, agora: string): nat {
    match LerLinhaProduto(linha, em, agora)
    case None => 0
    case Some(it) => if PrecisaNovoCodigo(it.codigo) then 6 else 0
  }

  /**
   * pdf_processor.py:225-284: `processar_linha_produto`. The set of codes in
   * use is always empty (the store handle it reads is not defined in that
   * file, and the failure is caught), so a generated code is the first draw.
   */
  method ProcessarLinhaProduto(linha: Linha, em: Emitente, agora: string, rand: nat -> Digit, at: nat, now: int)
    returns (item: Option<Item>, next: nat)
    ensures item == Processada(linha, em, agora, rand, at)
    ensures next == at + Consumidas(linha, em, agora)
  {
    var lida := LerLinhaProduto(linha, em, agora);
    if lida.None? {
      return None, at;
    }
    var existing: set<string> := {};
    var codigo, n := RepararCodigo(lida.value.codigo, existing, rand, at, now);
    item := Some(lida.value.(codigo := codigo));
    next := n;
  }

  /** A processed row carries the header's supplier data and a code that never needs replacing. */
  lemma ProcessadaSpec(linha: Linha, em: Emitente, agora: string, rand: nat -> Digit, at: nat)
    ensures var item := Processada(linha, em, agora, rand, at);
            item.Some? ==> !PrecisaNovoCodigo(item.value.codigo)
                           && item.value.fornecedor == em.nome && item.value.cnpjFornecedor == em.cnpj
                           && item.value.dataEmissao == em.dataEmissao && item.value.timestamp == agora
                           && item.value.nome == LerCelula(linha[1], "")
  {
  }

  /** `if validar_item(item): produtos.append(item)`: the items after one more candidate. */
  function ManterValido(itens: seq<Item>, item: Item): seq<Item> {
    if ValidarItem(item) then itens + [item] else itens
  }

  /** The candidate is appended exactly when it passes `validar_item`; the items before it are kept. */
  lemma ManterValidoSpec(itens: seq<Item>, item: Item)
    ensures var r := ManterValido(itens, item);
            itens <= r && |r| <= |itens| + 1
            && (|r| == |itens| + 1 <==> ValidarItem(item))
            && (|r| > |itens| ==> r[|itens|] == item)
  {
  }

  /** The step both extraction loops take: keep the candidate when it passes `validar_item`. */
  method ManterSeValido(itens: seq<Item>, item: Item) returns (r: seq<Item>)
    ensures r == ManterValido(itens, item)
  {
    r := itens;
    if ValidarItem(item) {
      r := r + [item];
    }
  }

  /** What the items of a PDF promise: they pass `validar_item` and carry the header's supplier data and the clock reading. */
  predicate ItemDoEmitente(item: Item, em: Emitente, agora: string) {
    ValidarItem(item) && DadosDoEmitente(item, em, agora)
  }

  /** The item carries the header's supplier name, CNPJ and issue date, and the clock reading. */
  predicate DadosDoEmitente(item: Item, em: Emitente, agora: string) {
    item.fornecedor == em.nome && item.cnpjFornecedor == em.cnpj
    && item.dataEmissao == em.dataEmissao && item.timestamp == agora
  }

  predicate TodosDoEmitente(itens: seq<Item>, em: Emitente, agora: string) {
    forall k | 0 <= k < |itens| :: ItemDoEmitente(itens[k], em, agora)
  }

  /** No item has a code that `processar_linha_produto` would replace. */
  predicate CodigosAceitos(itens: seq<Item>) {
    forall k | 0 <= k < |itens| :: !PrecisaNovoCodigo(itens[k].codigo)
  }

  /** Keeping a candidate with the header's data keeps every item valid and the header's. */
  lemma ManterValidoDoEmitente(itens: seq<Item>, item: Item, em: Emitente, agora: string)
    requires TodosDoEmitente(itens, em, agora) && DadosDoEmitente(item, em, agora)
    ensures TodosDoEmitente(ManterValido(itens, item), em, agora)
  {
    var r := ManterValido(itens, item);
    forall k | 0 <= k < |r|
      ensures ItemDoEmitente(r[k], em, agora)
    {
      if k < |itens| {
        assert r[k] == itens[k];
      }
    }
  }

  /** Keeping a candidate whose code needs no repair keeps every code acceptable. */
  lemma ManterValidoCodigos(itens: seq<Item>, item: Item)
    requires CodigosAceitos(itens) && !PrecisaNovoCodigo(item.codigo)
    ensures CodigosAceitos(ManterValido(itens, item))
  {
    var r := ManterValido(itens, item);
    forall k | 0 <= k < |r|
      ensures !PrecisaNovoCodigo(r[k].codigo)
    {
      if k < |itens| {
        assert r[k] == itens[k];
      }
    }
  }

  /** The items gathered so far and the next unread random draw. */
  datatype Extracao = Extracao(itens: seq<Item>, proximo: nat)

  /** pdf_processor.py:212-216: one table row: rows with fewer than seven cells are skipped; a valid item is kept. */
  function Passo(acc: Extracao, linha: Linha, em: Emitente, agora: string, rand: nat -> Digit): Extracao {
    if |linha| < 7 then acc
    else
      var proximo := acc.proximo + Consumidas(linha, em, agora);
      match Processada(linha, em, agora, rand, acc.proximo)
      case None => Extracao(acc.itens, proximo)
      case Some(item) => Extracao(ManterValido(acc.itens, item), proximo)
  }

  /** The items of a product table are the header's, and their codes need no repair. */
  predicate TodosDeTabela(itens: seq<Item>, em: Emitente, agora: string) {
    TodosDoEmitente(itens, em, agora) && CodigosAceitos(itens)
  }

  /** One row keeps the items gathered so far, never goes back on the random draws, and keeps the table items' promises. */
  lemma PassoSpec(acc: Extracao, linha: Linha, em: Emitente, agora: string, rand: nat -> Digit)
    requires TodosDeTabela(acc.itens, em, agora)
    ensures var e := Passo(acc, linha, em, agora, rand);
            TodosDeTabela(e.itens, em, agora) && acc.itens <= e.itens && |e.itens| <= |acc.itens| + 1
            && acc.proximo <= e.proximo
  {
    if |linha| >= 7 {
      var p := Processada(linha, em, agora, rand, acc.proximo);
      ProcessadaSpec(linha, em, agora, rand, acc.proximo);
      if p.Some? {
        ManterValidoSpec(acc.itens, p.value);
        ManterValidoDoEmitente(acc.itens, p.value, em, agora);
        ManterValidoCodigos(acc.itens, p.value);
      }
    }
  }

  /** The item a row adds, if any, is named after the row's description cell. */
  lemma PassoOrigem(acc: Extracao, linha: Linha, em: Emitente, agora: string, rand: nat -> Digit)
    ensures var e := Passo(acc, linha, em, agora, rand);
            acc.itens <= e.itens
            && (|e.itens| > |acc.itens| ==> |linha| >= 7 && e.itens[|acc.itens|].nome == LerCelula(linha[1], ""))
  {
    if |linha| >= 7 {
      var p := Processada(linha, em, agora, rand, acc.proximo);
      ProcessadaSpec(linha, em, agora, rand, acc.proximo);
      if p.Some? {
        ManterValidoSpec(acc.itens, p.value);
      }
    }
  }

  /** Rows `de .. ate-1` of a table, read in order after `acc`. */
  function ExtrairLinhas(acc: Extracao, tabela: Tabela, de: nat, ate: nat, em: Emitente, agora: string, rand: nat -> Digit): Extracao
    requires de <= ate <= |tabela|
    decreases ate - de
  {
    if ate == de then acc
    else Passo(ExtrairLinhas(acc, tabela, de, ate - 1, em, agora, rand), tabela[ate - 1], em, agora, rand)
  }

  /** `' '.join([str(c) for c in linha if c])`: the non-empty cells of a header row, joined with spaces. */
  function Cabecalho(linha: Linha): string {
    JoinSpace(CelulasCheias(linha))
  }

  function CelulasCheias(linha: Linha): (r: seq<string>)
    ensures forall k | 0 <= k < |r| :: r[k] != []
  {
    if linha == [] then []
    else
      var resto := CelulasCheias(linha[1..]);
      match linha[0]
      case Some(s) => if s != [] then [s] + resto else resto
      case None => resto
  }

  /** pdf_processor.py:200-205: a table with a data row whose header names one of the product columns. */
  predicate EhTabelaDeProdutos(tabela: Tabela) {
    |tabela| >= 2 && ContainsAny(Upper(Cabecalho(tabela[0])), PalavrasCabecalho)
  }

  /** The first `n` tables, read in order after `acc`: the data rows of every product table. */
  function ExtrairTabelas(acc: Extracao, tabelas: seq<Tabela>, n: nat, em: Emitente, agora: string, rand: nat -> Digit): Extracao
    requires n <= |tabelas|
  {
    if n == 0 then acc
    else
      var antes := ExtrairTabelas(acc, tabelas, n - 1, em, agora, rand);
      var t := tabelas[n - 1];
      if EhTabelaDeProdutos(t) then ExtrairLinhas(antes, t, 1, |t|, em, agora, rand) else antes
  }

  /**
   * Reading rows keeps the items already gathered, appends at most one table
   * item per row, and never goes back on the random draws.
   */
  lemma {:induction false} ExtrairLinhasSpec(acc: Extracao, tabela: Tabela, de: nat, ate: nat, em: Emitente, agora: string, rand: nat -> Digit)
    requires de <= ate <= |tabela|
    requires TodosDeTabela(acc.itens, em, agora)
    ensures var e := ExtrairLinhas(acc, tabela, de, ate, em, agora, rand);
            TodosDeTabela(e.itens, em, agora) && acc.itens <= e.itens && acc.proximo <= e.proximo
            && |e.itens| - |acc.itens| <= ate - de
    decreases ate - de
  {
    if ate > de {
      var antes := ExtrairLinhas(acc, tabela, de, ate - 1, em, agora, rand);
      ExtrairLinhasSpec(acc, tabela, de, ate - 1, em, agora, rand);
      PassoSpec(antes, tabela[ate - 1], em, agora, rand);
    }
  }

  /** Reading tables keeps the same promises as reading rows. */
  lemma {:induction false} ExtrairTabelasSpec(acc: Extracao, tabelas: seq<Tabela>, n: nat, em: Emitente, agora: string, rand: nat -> Digit)
    requires n <= |tabelas|
    requires TodosDeTabela(acc.itens, em, agora)
    ensures var e := ExtrairTabelas(acc, tabelas, n, em, agora, rand);
            TodosDeTabela(e.itens, em, agora) && acc.itens <= e.itens && acc.proximo <= e.proximo
  {
    if n > 0 {
      var antes := ExtrairTabelas(acc, tabelas, n - 1, em, agora, rand);
      ExtrairTabelasSpec(acc, tabelas, n - 1, em, agora, rand);
      var t := tabelas[n - 1];
      if EhTabelaDeProdutos(t) {
        ExtrairLinhasSpec(antes, t, 1, |t|, em, agora, rand);
      }
    }
  }

  /** `item` is named after the description cell of one of the rows `de .. ate-1` that have at least seven cells. */
  predicate VemDeLinha(item: Item, tabela: Tabela, de: nat, ate: nat)
    requires de <= ate <= |tabela|
  {
    exists j | de <= j < ate :: |tabela[j]| >= 7 && item.nome == LerCelula(tabela[j][1], "")
  }

  /** Every item from position `desde` on comes from one of the rows `de .. ate-1`. */
  predicate TodosDeLinhas(itens: seq<Item>, desde: nat, tabela: Tabela, de: nat, ate: nat)
    requires de <= ate <= |tabela|
  {
    forall k | desde <= k < |itens| :: VemDeLinha(itens[k], tabela, de, ate)
  }

  /** Each table item is the row it came from: a row of at least seven cells whose description cell, stripped, is its name. */
  lemma {:induction false} ExtrairLinhasOrigem(acc: Extracao, tabela: Tabela, de: nat, ate: nat, em: Emitente, agora: string, rand: nat -> Digit)
    requires de <= ate <= |tabela|
    ensures var e := ExtrairLinhas(acc, tabela, de, ate, em, agora, rand);
            acc.itens <= e.itens && TodosDeLinhas(e.itens, |acc.itens|, tabela, de, ate)
    decreases ate - de
  {
    if ate > de {
      var antes := ExtrairLinhas(acc, tabela, de, ate - 1, em, agora, rand);
      ExtrairLinhasOrigem(acc, tabela, de, ate - 1, em, agora, rand);
      var linha := tabela[ate - 1];
      PassoOrigem(antes, linha, em, agora, rand);
      var e := Passo(antes, linha, em, agora, rand);
      forall k | |acc.itens| <= k < |e.itens|
        ensures VemDeLinha(e.itens[k], tabela, de, ate)
      {
        if k < |antes.itens| {
          assert e.itens[k] == antes.itens[k];
          assert VemDeLinha(antes.itens[k], tabela, de, ate - 1);
        } else {
          assert |tabela[ate - 1]| >= 7 && e.itens[k].nome == LerCelula(tabela[ate - 1][1], "");
        }
      }
      assert ExtrairLinhas(acc, tabela, de, ate, em, agora, rand) == e;
    }
  }

  /**
   * One match of the product-line pattern of pdf_processor.py:303: code,
   * description, NCM, CST, CFOP, unit, quantity and unit price, as captured.
   */
  datatype Achado = Achado(
    codigo: string, descricao: string, ncm: string, cst: string, cfop: string,
    unidade: string, quantidade: string, valor: string)

  /** The shapes the pattern's groups have: six digits, digit runs, two capital letters, runs of digits, dots and commas. */
  predicate CasaPadrao(a: Achado) {
    |a.codigo| == 6 && AllDigits(a.codigo)
    && a.ncm != [] && AllDigits(a.ncm) && a.cst != [] && AllDigits(a.cst) && a.cfop != [] && AllDigits(a.cfop)
    && |a.unidade| == 2 && 'A' <= a.unidade[0] <= 'Z' && 'A' <= a.unidade[1] <= 'Z'
    && a.quantidade != [] && a.valor != []
    && (forall k | 0 <= k < |a.quantidade| :: IsDigit(a.quantidade[k]) || a.quantidade[k] in ".,")
    && (forall k | 0 <= k < |a.valor| :: IsDigit(a.valor[k]) || a.valor[k] in ".,")
  }

  /** pdf_processor.py:308-326: the item a product-line match describes, with the code as captured. */
  function ItemDoAchado(a: Achado, em: Emitente, agora: string): (r: Item)
    ensures r.codigo == a.codigo && r.nome == Strip(a.descricao) && r.unidade == a.unidade
    ensures DadosDoEmitente(r, em, agora)
  {
    Item(a.codigo, Strip(a.descricao), a.unidade, ConverterParaFloat(a.quantidade), ConverterParaFloat(a.valor),
         em.dataEmissao, em.nome, em.cnpj, agora)
  }

  /** The candidates among the first `n` that pass `validar_item`, in order. */
  function Validos(candidatos: seq<Item>, n: nat): seq<Item>
    requires n <= |candidatos|
  {
    if n == 0 then [] else ManterValido(Validos(candidatos, n - 1), candidatos[n - 1])
  }

  /** Filtering candidates that carry the header's data leaves only valid items of the header. */
  lemma {:induction false} ValidosDoEmitente(candidatos: seq<Item>, n: nat, em: Emitente, agora: string)
    requires n <= |candidatos|
    requires forall k | 0 <= k < |candidatos| :: DadosDoEmitente(candidatos[k], em, agora)
    ensures TodosDoEmitente(Validos(candidatos, n), em, agora)
  {
    if n > 0 {
      ValidosDoEmitente(candidatos, n - 1, em, agora);
      ManterValidoDoEmitente(Validos(candidatos, n - 1), candidatos[n - 1], em, agora);
    }
  }

  /** Filtering candidates whose codes need no repair leaves only such codes. */
  lemma {:induction false} ValidosCodigos(candidatos: seq<Item>, n: nat)
    requires n <= |candidatos|
    requires forall k | 0 <= k < |candidatos| :: !PrecisaNovoCodigo(candidatos[k].codigo)
    ensures CodigosAceitos(Validos(candidatos, n))
  {
    if n > 0 {
      ValidosCodigos(candidatos, n - 1);
      ManterValidoCodigos(Validos(candidatos, n - 1), candidatos[n - 1]);
    }
  }

  /** pdf_processor.py:305-326: the item of every match, in order. */
  function ItensDosAchados(achados: seq<Achado>, em: Emitente, agora: string): seq<Item> {
    seq(|achados|, k requires 0 <= k < |achados| => ItemDoAchado(achados[k], em, agora))
  }

  /** pdf_processor.py:305-328: the valid items of the matches, in order. */
  function ItensDoTexto(achados: seq<Achado>, em: Emitente, agora: string): seq<Item> {
    Validos(ItensDosAchados(achados, em, agora), |achados|)
  }

  /** Every text item passes `validar_item` and carries the header's supplier data. */
  lemma ItensDoTextoDoEmitente(achados: seq<Achado>, em: Emitente, agora: string)
    ensures TodosDoEmitente(ItensDoTexto(achados, em, agora), em, agora)
  {
    var c := ItensDosAchados(achados, em, agora);
    forall k | 0 <= k < |c|
      ensures DadosDoEmitente(c[k], em, agora)
    {
      assert c[k] == ItemDoAchado(achados[k], em, agora);
    }
    ValidosDoEmitente(c, |achados|, em, agora);
  }

  /** When every match has the pattern's shapes, no text item has a code that would need replacing. */
  lemma ItensDoTextoCodigos(achados: seq<Achado>, em: Emitente, agora: string)
    requires forall j | 0 <= j < |achados| :: CasaPadrao(achados[j])
    ensures CodigosAceitos(ItensDoTexto(achados, em, agora))
  {
    var c := ItensDosAchados(achados, em, agora);
    forall k | 0 <= k < |c|
      ensures !PrecisaNovoCodigo(c[k].codigo)
    {
      assert c[k] == ItemDoAchado(achados[k], em, agora);
      assert CasaPadrao(achados[k]);
      CodigoNumericoAceito(achados[k].codigo);
    }
    ValidosCodigos(c, |achados|);
  }

  /** pdf_processor.py:306-326: the loop body over one match: its item is kept when `validar_item` accepts it. */
  method ProcessarAchado(itens: seq<Item>, a: Achado, em: Emitente, agora: string) returns (r: seq<Item>)
    ensures r == ManterValido(itens, ItemDoAchado(a, em, agora))
  {
    var item := ItemDoAchado(a, em, agora);
    r := ManterSeValido(itens, item);
  }

  /** The items of the first `n` matches that pass `validar_item`, in order. */
  function ValidosDosAchados(achados: seq<Achado>, em: Emitente, agora: string, n: nat): seq<Item>
    requires n <= |achados|
  {
    if n == 0 then [] else ManterValido(ValidosDosAchados(achados, em, agora, n - 1), ItemDoAchado(achados[n - 1], em, agora))
  }

  /** Filtering the matches one by one is filtering their items. */
  lemma {:induction false} ValidosDosAchadosSpec(achados: seq<Achado>, em: Emitente, agora: string, n: nat)
    requires n <= |achados|
    ensures ValidosDosAchados(achados, em, agora, n) == Validos(ItensDosAchados(achados, em, agora), n)
  {
    if n > 0 {
      ValidosDosAchadosSpec(achados, em, agora, n - 1);
      var c := ItensDosAchados(achados, em, agora);
      var item := ItemDoAchado(achados[n - 1], em, agora);
      assert c[n - 1] == item;
      assert Validos(c, n) == ManterValido(Validos(c, n - 1), item);
    }
  }

  /** pdf_processor.py:286-330: `extrair_produtos_do_texto` over the matches of the product-line pattern. */
  method ExtrairProdutosDoTexto(achados: seq<Achado>, em: Emitente, agora: string) returns (itens: seq<Item>)
    ensures itens == ItensDoTexto(achados, em, agora)
  {
    itens := [];
    var k := 0;
    while k < |achados|
      invariant 0 <= k <= |achados|
      invariant itens == ValidosDosAchados(achados, em, agora, k)
    {
      itens := ProcessarAchado(itens, achados[k], em, agora);
      k := k + 1;
    }
    ValidosDosAchadosSpec(achados, em, agora, |achados|);
  }

  /** pdf_processor.py:207-216: the loop body over a product table's rows. */
  method ProcessarLinhaDaTabela(itens: seq<Item>, at: nat, linha: Linha, em: Emitente, agora: string, rand: nat -> Digit, now: int)
    returns (r: seq<Item>, next: nat)
    ensures Extracao(r, next) == Passo(Extracao(itens, at), linha, em, agora, rand)
  {
    r, next := itens, at;
    if |linha| >= 7 {
      var item, n := ProcessarLinhaProduto(linha, em, agora, rand, at, now);
      if item.Some? {
        r := ManterSeValido(r, item.value);
      }
      next := n;
    }
  }

  /** What `extrair_produtos_especifico` returns: the table items, or the text items when the tables gave none. */
  function ItensEspecificos(tabelas: seq<Tabela>, achados: seq<Achado>, em: Emitente, agora: string, rand: nat -> Digit, at: nat): seq<Item> {
    var e := ExtrairTabelas(Extracao([], at), tabelas, |tabelas|, em, agora, rand);
    if e.itens != [] then e.itens else ItensDoTexto(achados, em, agora)
  }

  /**
   * pdf_processor.py:191-223: `extrair_produtos_especifico`. `next` is the
   * first random draw the code generation has not consumed.
   */
  method ExtrairProdutosEspecifico(tabelas: seq<Tabela>, achados: seq<Achado>, em: Emitente, agora: string,
                                   rand: nat -> Digit, at: nat, now: int)
    returns (itens: seq<Item>, next: nat)
    ensures itens == ItensEspecificos(tabelas, achados, em, agora, rand, at)
    ensures next == ExtrairTabelas(Extracao([], at), tabelas, |tabelas|, em, agora, rand).proximo
  {
    itens := [];
    next := at;
    ghost var base := Extracao(itens, next);
    var t := 0;
    while t < |tabelas|
      invariant 0 <= t <= |tabelas|
      invariant Extracao(itens, next) == ExtrairTabelas(base, tabelas, t, em, agora, rand)
    {
      var tabela := tabelas[t];
      ghost var antes := Extracao(itens, next);
      if |tabela| >= 2 && ContainsAny(Upper(Cabecalho(tabela[0])), PalavrasCabecalho) {
        var k := 1;
        while k < |tabela|
          invariant 1 <= k <= |tabela|
          invariant Extracao(itens, next) == ExtrairLinhas(antes, tabela, 1, k, em, agora, rand)
        {
          itens, next := ProcessarLinhaDaTabela(itens, next, tabela[k], em, agora, rand, now);
          k := k + 1;
        }
      }
      t := t + 1;
    }
    if itens == [] {
      itens := ExtrairProdutosDoTexto(achados, em, agora);
    }
  }

  /**
   * Whichever way they were read, the items of a PDF pass `validar_item` and
   * carry the header's supplier data; their codes need no repair when they
   * come from the tables, or from matches that have the pattern's shapes.
   */
  lemma ItensEspecificosSpec(tabelas: seq<Tabela>, achados: seq<Achado>, em: Emitente, agora: string, rand: nat -> Digit, at: nat)
    ensures TodosDoEmitente(ItensEspecificos(tabelas, achados, em, agora, rand, at), em, agora)
    ensures (forall j | 0 <= j < |achados| :: CasaPadrao(achados[j])) ==>
              CodigosAceitos(ItensEspecificos(tabelas, achados, em, agora, rand, at))
  {
    var e := ExtrairTabelas(Extracao([], at), tabelas, |tabelas|, em, agora, rand);
    ExtrairTabelasSpec(Extracao([], at), tabelas, |tabelas|, em, agora, rand);
    if e.itens == [] {
      ItensDoTextoDoEmitente(achados, em, agora);
      if forall j | 0 <= j < |achados| :: CasaPadrao(achados[j]) {
        ItensDoTextoCodigos(achados, em, agora);
      }
    }
  }

  const ErroSemProdutos: string := "Não foi possível identificar os produtos no PDF"

  /** What `extrair_dados_pdf` returns for a first page: its items, or an error when there are none. */
  function DadosPdf(texto: string, hoje: string, grupoFallback: Option<string>, tabelas: seq<Tabela>, achados: seq<Achado>,
                    agora: string, rand: nat -> Digit, at: nat): Result<seq<Item>, string>
  {
    var itens := ItensEspecificos(tabelas, achados, EmitenteDoPdf(texto, hoje, grupoFallback), agora, rand, at);
    if itens == [] then Err(ErroSemProdutos) else Ok(itens)
  }

  /** What `extrair_emitente_corrigido` returns for the first page's text. */
  function EmitenteDoPdf(texto: string, hoje: string, grupoFallback: Option<string>): Emitente {
    var nome := NomeEmitente(texto, grupoFallback);
    Emitente(nome, EscolherCnpj(texto, nome), DataEmissao(texto, hoje))
  }

  /**
   * pdf_processor.py:26-56: `extrair_dados_pdf` on the first page's text,
   * tables and product-line matches.
   */
  method ExtrairDadosPdf(texto: string, hoje: string, grupoFallback: Option<string>, tabelas: seq<Tabela>,
                         achados: seq<Achado>, agora: string, rand: nat -> Digit, at: nat, now: int)
    returns (r: Result<seq<Item>, string>)
    ensures r == DadosPdf(texto, hoje, grupoFallback, tabelas, achados, agora, rand, at)
  {
    var emitente := ExtrairEmitente(texto, hoje, grupoFallback);
    var itens, _ := ExtrairProdutosEspecifico(tabelas, achados, emitente, agora, rand, at, now);
    if itens == [] {
      return Err(ErroSemProdutos);
    }
    return Ok(itens);
  }

  /**
   * A successful extraction is never empty, and all its items pass
   * `validar_item` and name the supplier, CNPJ and issue date the header gives.
   */
  lemma DadosPdfSpec(texto: string, hoje: string, grupoFallback: Option<string>, tabelas: seq<Tabela>, achados: seq<Achado>,
                     agora: string, rand: nat -> Digit, at: nat)
    ensures var r := DadosPdf(texto, hoje, grupoFallback, tabelas, achados, agora, rand, at);
            (r.Err? ==> r.error == ErroSemProdutos)
            && (r.Ok? ==> r.value != [] && TodosDoEmitente(r.value, EmitenteDoPdf(texto, hoje, grupoFallback), agora))
  {
    ItensEspecificosSpec(tabelas, achados, EmitenteDoPdf(texto, hoje, grupoFallback), agora, rand, at);
  }
}
