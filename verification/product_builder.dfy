/**
 * The product builder page: the user picks raw materials from a paged or
 * searched listing, sets a quantity for each, watches the running total,
 * and saves the product. The page's state is the `ProductBuilder` class; its
 * event handlers are its methods. A server response the page waits for is a
 * parameter of the handler that asked for it, applied when the handler runs.
 */
module ProductBuilder {
  import opened Wrappers
  import opened Text
  import opened Numbers
  import opened Json
  import Catalogue

  /** Items per page in paged mode. */
  const PorPagina: int := 4

  /** Items asked for in search mode. */
  const LimiteDaBusca: int := PorPagina * 3

  // ---------------------------------------------------------------------
  // Numbers read by the page
  // ---------------------------------------------------------------------

  /** `parseNumero` of an input's text: "" is 0, anything else goes through `parseFloat` with its first comma as a point. */
  function ParseNumeroTexto(s: string): JsNum {
    if s == [] then Finite(0.0) else JsParseFloat(ReplaceFirstChar(s, ',', '.'))
  }

  /** `parseNumero` of a number: 0 and NaN give 0, any other number itself. */
  function ParseNumero(x: JsNum): (r: real)
    ensures x.Finite? && x.r != 0.0 ==> r == x.r
    ensures !(x.Finite? && x.r != 0.0) ==> r == 0.0
  {
    JsNumOr0(x)
  }

  /**
   * `toFloat`: every point dropped and the first comma made a point, then
   * `parseFloat`; null or undefined give NaN. The quantity handler computes it
   * and never uses the result.
   */
  function ToFloat(v: Option<string>): JsNum {
    match v
    case None => NaN
    case Some(s) => JsParseFloat(ReplaceFirstChar(RemoveChar(s, '.'), ',', '.'))
  }

  /** A character that does not occur is not replaced. */
  lemma {:induction false} ReplaceFirstCharAbsent(s: string, a: char, b: char)
    requires a !in s
    ensures ReplaceFirstChar(s, a, b) == s
  {
    if s != [] {
      assert s[0] != a;
      ReplaceFirstCharAbsent(s[1..], a, b);
    }
  }

  /** A whole number typed as digits reads the same through `parseNumero` and `toFloat`. */
  lemma NumeroInteiro(a: string)
    requires a != [] && AllDigits(a)
    ensures ParseNumeroTexto(a) == Finite(DigitsValue(a) as real)
    ensures ToFloat(Some(a)) == Finite(DigitsValue(a) as real)
  {
    assert ',' !in a && '.' !in a by {
      forall i | 0 <= i < |a|
        ensures a[i] != ',' && a[i] != '.'
      {
        assert IsDigit(a[i]);
      }
    }
    ReplaceFirstCharAbsent(a, ',', '.');
    RemoveCharAbsent(a, '.');
    JsParseFloatDigits(a);
  }

  /** `parseNumero` reads a decimal comma as the point: "2,5" is 2.5. */
  lemma ParseNumeroVirgula(a: string, b: string)
    requires AllDigits(a) && AllDigits(b) && |a| + |b| > 0
    ensures ParseNumeroTexto(a + "," + b) == Finite(DecimalValue(a, b))
  {
    AllDigitsNoSpecials(a);
    ReplaceFirstCharAfter(a, "," + b, ',', '.');
    assert a + "," + b == a + ("," + b);
    assert ReplaceFirstChar("," + b, ',', '.') == "." + b;
    assert a + ("." + b) == a + "." + b;
    JsParseFloatDecimal(a, b);
  }

  /**
   * `parseNumero` reads a decimal written with a point as its value, and on
   * that number gives what it gives on the number's text: both paths of
   * `parseNumero` agree.
   */
  lemma ParseNumeroPonto(a: string, b: string)
    requires AllDigits(a) && AllDigits(b) && |a| + |b| > 0
    ensures ParseNumeroTexto(a + "." + b) == Finite(DecimalValue(a, b))
    ensures ParseNumeroTexto(a + "." + b) == Finite(ParseNumero(Finite(DecimalValue(a, b))))
  {
    AllDigitsNoSpecials(a);
    AllDigitsNoSpecials(b);
    ReplaceFirstCharAbsent(a + "." + b, ',', '.');
    JsParseFloatDecimal(a, b);
  }

  // ---------------------------------------------------------------------
  // The selection
  // ---------------------------------------------------------------------

  /** One selected raw material, as the `selecionados` map holds it. */
  datatype Selecionado = Selecionado(id: Value, codigo: Value, nome: Value, unidade: Value, valorUnitario: JsNum, quantidade: JsNum)

  /** The selection holds each id once (it is a map from id to entry, in insertion order). */
  predicate IdsUnicos(xs: seq<Selecionado>) {
    forall i, j | 0 <= i < j < |xs| :: xs[i].id != xs[j].id
  }

  /** The position of the entry with this id. */
  function Posicao(xs: seq<Selecionado>, id: Value): (r: Option<nat>)
    ensures r.Some? ==> r.value < |xs| && xs[r.value].id == id
    ensures r.None? ==> forall i | 0 <= i < |xs| :: xs[i].id != id
  {
    if xs == [] then None
    else if xs[|xs| - 1].id == id then Some(|xs| - 1)
    else Posicao(xs[..|xs| - 1], id)
  }

  /** With unique ids, an entry is found at its own position. */
  lemma PosicaoUnica(xs: seq<Selecionado>, i: nat)
    requires IdsUnicos(xs) && i < |xs|
    ensures Posicao(xs, xs[i].id) == Some(i)
  {
  }

  /** What a row shows as subtotal and adds to the total: `parseNumero(vu) * parseNumero(q)`. */
  function Subtotal(x: Selecionado): real {
    ParseNumero(x.valorUnitario) * ParseNumero(x.quantidade)
  }

  /** static/js/pages/produto.js:157-166: the total over the selection, in insertion order. */
  function Total(xs: seq<Selecionado>): real {
    if xs == [] then 0.0 else Total(xs[..|xs| - 1]) + Subtotal(xs[|xs| - 1])
  }

  /** The total of two parts of a selection is the sum of their totals. */
  lemma {:induction false} TotalConcat(xs: seq<Selecionado>, ys: seq<Selecionado>)
    ensures Total(xs + ys) == Total(xs) + Total(ys)
    decreases |ys|
  {
    if ys == [] {
      assert xs + ys == xs;
    } else {
      var p := ys[..|ys| - 1];
      assert (xs + ys)[..|xs + ys| - 1] == xs + p;
      assert (xs + ys)[|xs + ys| - 1] == ys[|ys| - 1];
      TotalConcat(xs, p);
    }
  }

  /** The entry a new raw material gets: quantity 1 and price `Number(valor_unitario || 0)`. */
  function NovoSelecionado(it: Object): Selecionado {
    Selecionado(Get(it, "id"), Get(it, "codigo"), Get(it, "nome"), Get(it, "unidade"),
                JsNumberOr0(Get(it, "valor_unitario")), Finite(1.0))
  }

  /** static/js/pages/produto.js:112-124: adding an item whose id is already selected changes nothing. */
  function Adicionado(xs: seq<Selecionado>, it: Object): seq<Selecionado> {
    if Posicao(xs, Get(it, "id")).Some? then xs else xs + [NovoSelecionado(it)]
  }

  /** Appending an entry whose id is not selected keeps ids unique, and the entry is then found. */
  lemma NovoUnico(xs: seq<Selecionado>, x: Selecionado)
    requires IdsUnicos(xs) && Posicao(xs, x.id).None?
    ensures IdsUnicos(xs + [x]) && Posicao(xs + [x], x.id) == Some(|xs|)
  {
  }

  /**
   * Adding keeps ids unique, is idempotent, and a new id gets quantity 1 and
   * its listed price; the total grows by exactly the new entry's price.
   */
  lemma AdicionadoSpec(xs: seq<Selecionado>, it: Object)
    requires IdsUnicos(xs)
    ensures IdsUnicos(Adicionado(xs, it))
    ensures Adicionado(Adicionado(xs, it), it) == Adicionado(xs, it)
    ensures Posicao(xs, Get(it, "id")).None? ==>
      Adicionado(xs, it) == xs + [NovoSelecionado(it)]
      && Total(Adicionado(xs, it)) == Total(xs) + ParseNumero(JsNumberOr0(Get(it, "valor_unitario")))
  {
    var x := NovoSelecionado(it);
    if Posicao(xs, Get(it, "id")).None? {
      NovoUnico(xs, x);
      TotalConcat(xs, [x]);
      assert [x][..0] == [];
      assert Total([x]) == Subtotal(x);
    }
  }

  /** static/js/pages/produto.js:226: the quantity of the entry with this id becomes `parseNumero` of the input's text. */
  function ComQuantidade(xs: seq<Selecionado>, id: string, texto: string): seq<Selecionado> {
    match Posicao(xs, Str(id))
    case None => xs
    case Some(i) => xs[i := xs[i].(quantidade := ParseNumeroTexto(texto))]
  }

  /** Replacing the entry at `i` changes the total by the difference of the two subtotals. */
  lemma TotalComPosicao(xs: seq<Selecionado>, i: nat, y: Selecionado)
    requires i < |xs|
    ensures Total(xs[i := y]) == Total(xs) - Subtotal(xs[i]) + Subtotal(y)
  {
    var ys := xs[i := y];
    assert xs == xs[..i] + [xs[i]] + xs[i + 1..];
    assert ys == xs[..i] + [y] + xs[i + 1..];
    TotalConcat(xs[..i] + [xs[i]], xs[i + 1..]);
    TotalConcat(xs[..i], [xs[i]]);
    TotalConcat(xs[..i] + [y], xs[i + 1..]);
    TotalConcat(xs[..i], [y]);
    assert [xs[i]][..0] == [] && [y][..0] == [];
  }

  /** Changing a quantity changes only that entry's quantity, and the total by that entry's change of subtotal. */
  lemma ComQuantidadeSpec(xs: seq<Selecionado>, id: string, texto: string)
    ensures var ys := ComQuantidade(xs, id, texto);
            |ys| == |xs| && (IdsUnicos(xs) ==> IdsUnicos(ys))
            && (forall j | 0 <= j < |xs| && xs[j].id != Str(id) :: ys[j] == xs[j])
    ensures Posicao(xs, Str(id)).Some? ==>
      var i := Posicao(xs, Str(id)).value;
      var ys := ComQuantidade(xs, id, texto);
      ys[i] == xs[i].(quantidade := ParseNumeroTexto(texto))
      && Total(ys) == Total(xs) - Subtotal(xs[i]) + Subtotal(ys[i])
  {
    match Posicao(xs, Str(id))
    case None =>
    case Some(i) =>
      TotalComPosicao(xs, i, xs[i].(quantidade := ParseNumeroTexto(texto)));
  }

  /** Replacing an entry by one with the same id keeps the ids unique. */
  lemma IdsComPosicao(xs: seq<Selecionado>, i: nat, y: Selecionado)
    requires IdsUnicos(xs) && i < |xs| && y.id == xs[i].id
    ensures IdsUnicos(xs[i := y])
  {
  }

  /** static/js/pages/produto.js:238-247: removing deletes the entry with this id, if any. */
  function Removido(xs: seq<Selecionado>, id: string): seq<Selecionado> {
    match Posicao(xs, Str(id))
    case None => xs
    case Some(i) => xs[..i] + xs[i + 1..]
  }

  /** Removing the entry at `i` lowers the total by that entry's subtotal. */
  lemma TotalSemPosicao(xs: seq<Selecionado>, i: nat)
    requires i < |xs|
    ensures Total(xs[..i] + xs[i + 1..]) == Total(xs) - Subtotal(xs[i])
  {
    var a, x, c := xs[..i], xs[i], xs[i + 1..];
    var ax := a + [x];
    Decomposicao(xs, i);
    TotalConcat(ax, c);
    TotalSnoc(a, x);
    TotalConcat(a, c);
  }

  /** A selection is its entries before `i`, the entry at `i` and its entries after `i`. */
  lemma Decomposicao(xs: seq<Selecionado>, i: nat)
    requires i < |xs|
    ensures xs == (xs[..i] + [xs[i]]) + xs[i + 1..]
  {
    assert xs[..i] + [xs[i]] == xs[..i + 1];
  }

  /** One more entry adds its subtotal. */
  lemma TotalSnoc(xs: seq<Selecionado>, x: Selecionado)
    ensures Total(xs + [x]) == Total(xs) + Subtotal(x)
  {
    assert (xs + [x])[..|xs|] == xs;
  }

  /** Removing the entry at `i` keeps every other entry and leaves the ids unique. */
  lemma IdsSemPosicao(xs: seq<Selecionado>, i: nat)
    requires IdsUnicos(xs) && i < |xs|
    ensures var ys := xs[..i] + xs[i + 1..];
            IdsUnicos(ys) && (forall j | 0 <= j < |ys| :: ys[j].id != xs[i].id)
            && forall x | x in xs && x.id != xs[i].id :: x in ys
  {
    var ys := xs[..i] + xs[i + 1..];
    assert forall j | 0 <= j < |ys| :: ys[j] == xs[if j < i then j else j + 1];
    forall x | x in xs && x.id != xs[i].id
      ensures x in ys
    {
      var j :| 0 <= j < |xs| && xs[j] == x;
      assert ys[if j < i then j else j - 1] == x;
    }
  }

  /**
   * Removing deletes that entry only: the others stay, in order, and the total
   * drops by the removed entry's subtotal; afterwards the id is not selected.
   */
  lemma RemovidoSpec(xs: seq<Selecionado>, id: string)
    requires IdsUnicos(xs)
    ensures var ys := Removido(xs, id);
            IdsUnicos(ys) && Posicao(ys, Str(id)).None?
            && forall x | x in xs && x.id != Str(id) :: x in ys
    ensures Posicao(xs, Str(id)).Some? ==>
      var i := Posicao(xs, Str(id)).value;
      Removido(xs, id) == xs[..i] + xs[i + 1..]
      && Total(Removido(xs, id)) == Total(xs) - Subtotal(xs[i])
  {
    match Posicao(xs, Str(id))
    case None =>
    case Some(i) =>
      IdsSemPosicao(xs, i);
      TotalSemPosicao(xs, i);
  }

  // ---------------------------------------------------------------------
  // Pagination
  // ---------------------------------------------------------------------

  /** The listing state: search mode, the cursors, the stack of earlier cursors, and the page number. */
  datatype Paginacao = Paginacao(isSearchMode: bool, pageCursor: Value, nextCursor: Value, cursorStack: seq<Value>, pageNum: int)

  /** The page number counts the pages behind the current one. */
  predicate Coerente(p: Paginacao) {
    p.pageNum == |p.cursorStack| + 1
  }

  /** static/js/pages/produto.js:34-38: the state the page starts in. */
  const PaginacaoInicial: Paginacao := Paginacao(false, Null, Null, [], 1)

  /**
   * static/js/pages/produto.js:332-340: "next" is ignored in search mode or
   * without a next cursor; otherwise the current cursor is pushed, the next
   * cursor becomes current, and the page number grows by one.
   */
  function Proxima(p: Paginacao): Paginacao {
    if p.isSearchMode || !JsTruthy(p.nextCursor) then p
    else p.(cursorStack := p.cursorStack + [p.pageCursor], pageCursor := p.nextCursor, pageNum := p.pageNum + 1)
  }

  /**
   * static/js/pages/produto.js:322-329: "prev" is ignored in search mode or
   * with an empty stack; otherwise the popped cursor (or null) becomes
   * current and the page number drops, never below 1.
   */
  function Anterior(p: Paginacao): Paginacao {
    if p.isSearchMode || |p.cursorStack| == 0 then p
    else
      var c := p.cursorStack[|p.cursorStack| - 1];
      p.(cursorStack := p.cursorStack[..|p.cursorStack| - 1],
         pageCursor := if JsTruthy(c) then c else Null,
         pageNum := if p.pageNum - 1 < 1 then 1 else p.pageNum - 1)
  }

  /** static/js/pages/produto.js:293-312: a search term sets the mode, and either way the listing restarts at page 1. */
  function Buscada(p: Paginacao, v: string): Paginacao {
    Paginacao(Strip(v) != [], Null, Null, [], 1)
  }

  /** static/js/pages/produto.js:261, 282: a listing's response sets the next cursor (always null in search mode). */
  function Carregada(p: Paginacao, next: Value): Paginacao {
    p.(nextCursor := next)
  }

  /** Every transition keeps the page number equal to the stack's height plus one. */
  lemma CoerentePreservada(p: Paginacao, v: string, next: Value)
    requires Coerente(p)
    ensures Coerente(PaginacaoInicial)
    ensures Coerente(Proxima(p)) && Coerente(Anterior(p)) && Coerente(Buscada(p, v)) && Coerente(Carregada(p, next))
  {
  }

  /** In a coherent state "prev" lowers the page number by exactly one: the floor at 1 never applies. */
  lemma AnteriorSemPiso(p: Paginacao)
    requires Coerente(p) && !p.isSearchMode && |p.cursorStack| > 0
    ensures Anterior(p).pageNum == p.pageNum - 1 >= 1
  {
  }

  /** A cursor the page may hold: null or a true value. */
  predicate CursorValido(c: Value) {
    c == Null || JsTruthy(c)
  }

  /** "next" then "prev" gives back the state before, as long as the current cursor is null or a true value. */
  lemma ProximaAnterior(p: Paginacao)
    requires Coerente(p) && !p.isSearchMode && JsTruthy(p.nextCursor) && CursorValido(p.pageCursor)
    ensures Anterior(Proxima(p)) == p
  {
    var q := Proxima(p);
    assert q.cursorStack[..|q.cursorStack| - 1] == p.cursorStack;
  }

  /** The search mode blocks both buttons. */
  lemma BuscaBloqueiaBotoes(p: Paginacao)
    requires p.isSearchMode
    ensures Proxima(p) == p && Anterior(p) == p
  {
  }

  // ---------------------------------------------------------------------
  // Listing responses
  // ---------------------------------------------------------------------

  /** `data.items || (Array.isArray(data) ? data : [])`; None where `data` is null and the property access throws. */
  function ItensDaResposta(data: Value): Option<Value> {
    if data == Null then None
    else
      var items := if data.Obj? then Get(data.fields, "items") else Null;
      Some(if JsTruthy(items) then items else if data.Arr? then data else Arr([]))
  }

  /** `data.next_cursor || null`. */
  function CursorDaResposta(data: Value): (r: Value)
    ensures CursorValido(r)
  {
    var c := if data.Obj? then Get(data.fields, "next_cursor") else Null;
    if JsTruthy(c) then c else Null
  }

  /** static/js/pages/produto.js:253-254: the cursor goes into the request only when it is a true value. */
  function CursorDoPedido(c: Value): Option<string> {
    if c.Str? && c.s != [] then Some(c.s) else None
  }

  /** Listed documents as JSON values. */
  function ComoValores(items: seq<Object>): (r: Value)
    ensures r.Arr? && |r.items| == |items|
  {
    Arr(seq(|items|, k requires 0 <= k < |items| => Obj(items[k])))
  }

  /** app.py:145, 166: the body of a listing that succeeded. */
  function RespostaDaListagem(l: Catalogue.Listagem): Value
    requires l.Listagem?
  {
    Obj(map["items" := ComoValores(l.items),
            "next_cursor" := if l.nextCursor.Some? then Str(l.nextCursor.value) else Null])
  }

  /** The page's limit of four, as the server reads it. */
  lemma LimiteQuatro()
    ensures Catalogue.LerLimite(Some("4")) == Some(PorPagina)
  {
    Catalogue.PyIntDigits("4");
    assert DigitsValue("4") == 4 by { assert "4"[..0] == []; }
  }

  /** The search's limit of twelve, as the server reads it. */
  lemma LimiteDoze()
    ensures Catalogue.LerLimite(Some("12")) == Some(LimiteDaBusca)
  {
    Catalogue.PyIntDigits("12");
    assert DigitsValue("12") == 12 by { assert "12"[..1] == "1" && "1"[..0] == []; }
  }

  /**
   * A page the page asks for (static/js/pages/produto.js:250-262) and the
   * listing route answers (app.py:147-166): at most four items reach the
   * cache, in the order listed, and the "next" button gets a cursor exactly
   * when documents remain after this page.
   */
  lemma PaginaCarregada(ds: seq<Catalogue.Doc>, c: Value)
    requires Catalogue.IdsValidos(ds)
    ensures var r := Catalogue.Listar(ds, None, Some("4"), CursorDoPedido(c));
            var s := Catalogue.Inicio(ds, CursorDoPedido(c));
            r.Listagem? && |r.items| <= PorPagina
            && ItensDaResposta(RespostaDaListagem(r)) == Some(ComoValores(r.items))
            && (JsTruthy(CursorDaResposta(RespostaDaListagem(r))) <==> s + PorPagina < |ds|)
  {
    var cur := CursorDoPedido(c);
    ListarQuatro(ds, cur);
    Catalogue.PaginaSpec(ds, cur, PorPagina);
    var r := Catalogue.Pagina(ds, cur, PorPagina);
    RespostaLida(r);
    if r.nextCursor.Some? {
      var s := Catalogue.Inicio(ds, cur);
      assert ds[s + PorPagina - 1].id != [];
    }
  }

  /** The page's request for four documents and no search term takes the paged mode. */
  lemma ListarQuatro(ds: seq<Catalogue.Doc>, cur: Option<string>)
    ensures Catalogue.Listar(ds, None, Some("4"), cur) == Catalogue.Pagina(ds, cur, PorPagina)
  {
    LimiteQuatro();
    assert Strip(None.GetOr([])) == [];
  }

  /** The page reads back from a listing's body the items it holds, and a true cursor exactly when the listing has a non-empty one. */
  lemma RespostaLida(r: Catalogue.Listagem)
    requires r.Listagem?
    ensures ItensDaResposta(RespostaDaListagem(r)) == Some(ComoValores(r.items))
    ensures JsTruthy(CursorDaResposta(RespostaDaListagem(r))) <==> r.nextCursor.Some? && r.nextCursor.value != []
  {
  }

  /**
   * A search the page sends (static/js/pages/produto.js:271-283) and the
   * listing route answers (app.py:131-145): at most twelve items, and no
   * cursor, so "next" stays disabled.
   */
  lemma BuscaCarregada(ds: seq<Catalogue.Doc>, term: string)
    requires Strip(term) != []
    ensures var r := Catalogue.Listar(ds, Some(term), Some("12"), None);
            r.Listagem? ==> |r.items| <= LimiteDaBusca && CursorDaResposta(RespostaDaListagem(r)) == Null
  {
    LimiteDoze();
    Catalogue.ListarBusca(ds, term, Some("12"), None);
  }

  // ---------------------------------------------------------------------
  // Saving
  // ---------------------------------------------------------------------

  /** One component as the page sends it. */
  datatype InsumoEnviado = InsumoEnviado(idItem: Value, nome: Value, unidade: Value, valorUnitario: real, quantidade: real, subtotal: real)

  /** The body of the save request. */
  datatype Envio = Envio(nomeProduto: string, insumos: seq<InsumoEnviado>, custoTotal: real)

  /** static/js/pages/produto.js:350-360: an entry as sent, its price and quantity read with `Number(x || 0)`. */
  function Enviado(x: Selecionado): InsumoEnviado {
    var q := JsNumOr0(x.quantidade);
    var v := JsNumOr0(x.valorUnitario);
    InsumoEnviado(x.id, x.nome, x.unidade, v, q, q * v)
  }

  /** static/js/pages/produto.js:374: `insumos.reduce((a, x) => a + x.subtotal, 0)`. */
  function SomaSubtotais(ins: seq<InsumoEnviado>): real {
    if ins == [] then 0.0 else SomaSubtotais(ins[..|ins| - 1]) + ins[|ins| - 1].subtotal
  }

  /** The components sent for a selection, in its order. */
  function Enviados(xs: seq<Selecionado>): (r: seq<InsumoEnviado>)
    ensures |r| == |xs| && forall k | 0 <= k < |xs| :: r[k] == Enviado(xs[k])
  {
    seq(|xs|, k requires 0 <= k < |xs| => Enviado(xs[k]))
  }

  /** The cost the page sends is the total it shows: `Number(x || 0)` and `parseNumero` agree on numbers. */
  lemma {:induction false} SomaSubtotaisTotal(xs: seq<Selecionado>)
    ensures SomaSubtotais(Enviados(xs)) == Total(xs)
    decreases |xs|
  {
    if xs != [] {
      var p := xs[..|xs| - 1];
      assert Enviados(xs)[..|xs| - 1] == Enviados(p);
      SomaSubtotaisTotal(p);
      var x := xs[|xs| - 1];
      assert Enviado(x).subtotal == Subtotal(x);
    }
  }

  /** The outcome of the save request: a network failure, or a status and the parsed body (null when empty or not JSON). */
  datatype RespostaSalvar = ErroDeRede | Http(status: int, data: Value)

  /** static/js/pages/produto.js:391: `resp.ok && ((data && data.success === true) || !data)`. */
  predicate SalvouComSucesso(r: RespostaSalvar) {
    r.Http? && 200 <= r.status <= 299
    && ((JsTruthy(r.data) && r.data.Obj? && Get(r.data.fields, "success") == Bool(true)) || !JsTruthy(r.data))
  }

  // ---------------------------------------------------------------------
  // The page
  // ---------------------------------------------------------------------

  /** The page's state and its event handlers. */
  class Builder {
    var selecionados: seq<Selecionado>
    var total: real
    var itensCache: Value
    var isSearchMode: bool
    var pageCursor: Value
    var nextCursor: Value
    var cursorStack: seq<Value>
    var pageNum: int
    var nomeProduto: string

    /** The listing state as one value. */
    function Pag(): Paginacao
      reads this
    {
      Paginacao(isSearchMode, pageCursor, nextCursor, cursorStack, pageNum)
    }

    /** Ids are unique, the page number is coherent, and the shown total is the selection's. */
    predicate Valid()
      reads this
    {
      IdsUnicos(selecionados) && Coerente(Pag()) && total == Total(selecionados)
    }

    /** static/js/pages/produto.js:28-38: the state before the first listing arrives. */
    constructor ()
      ensures Valid() && Pag() == PaginacaoInicial
      ensures selecionados == [] && total == 0.0 && itensCache == Arr([]) && nomeProduto == []
    {
      selecionados := [];
      total := 0.0;
      itensCache := Arr([]);
      isSearchMode := false;
      pageCursor := Null;
      nextCursor := Null;
      cursorStack := [];
      pageNum := 1;
      nomeProduto := [];
    }

    /** static/js/pages/produto.js:157-166: `recalcTotal`, summing each entry's subtotal. */
    method RecalcTotal()
      modifies this`total
      ensures total == Total(selecionados)
    {
      var t := 0.0;
      var k := 0;
      while k < |selecionados|
        invariant 0 <= k <= |selecionados|
        invariant t == Total(selecionados[..k])
      {
        assert selecionados[..k + 1][..k] == selecionados[..k];
        t := t + ParseNumero(selecionados[k].valorUnitario) * ParseNumero(selecionados[k].quantidade);
        k := k + 1;
      }
      assert selecionados[..k] == selecionados;
      total := t;
    }

    /** static/js/pages/produto.js:112-124: the "add" button of a listed item. */
    method Adicionar(it: Object)
      requires Valid()
      modifies this
      ensures Valid()
      ensures selecionados == Adicionado(old(selecionados), it)
      ensures Pag() == old(Pag()) && itensCache == old(itensCache) && nomeProduto == old(nomeProduto)
    {
      AdicionadoSpec(selecionados, it);
      if Posicao(selecionados, Get(it, "id")).None? {
        selecionados := selecionados + [NovoSelecionado(it)];
        RecalcTotal();
      }
    }

    /** static/js/pages/produto.js:213-236: typing a quantity in the row of `id`. */
    method AlterarQuantidade(id: string, texto: string)
      requires Valid()
      modifies this
      ensures Valid()
      ensures selecionados == ComQuantidade(old(selecionados), id, texto)
      ensures Pag() == old(Pag()) && itensCache == old(itensCache) && nomeProduto == old(nomeProduto)
    {
      var i := Posicao(selecionados, Str(id));
      if i.Some? {
        var y := selecionados[i.value].(quantidade := ParseNumeroTexto(texto));
        IdsComPosicao(selecionados, i.value, y);
        selecionados := selecionados[i.value := y];
      }
      RecalcTotal();
    }

    /** static/js/pages/produto.js:238-247: the remove button of the row of `id`. */
    method Remover(id: string)
      requires Valid()
      modifies this
      ensures Valid()
      ensures selecionados == Removido(old(selecionados), id)
      ensures Pag() == old(Pag()) && itensCache == old(itensCache) && nomeProduto == old(nomeProduto)
    {
      var i := Posicao(selecionados, Str(id));
      if i.Some? {
        IdsSemPosicao(selecionados, i.value);
        selecionados := selecionados[..i.value] + selecionados[i.value + 1..];
        RecalcTotal();
      }
    }

    /**
     * static/js/pages/produto.js:250-269: a paged listing's response. A
     * failed request, or a null body, leaves the state as it was.
     */
    method CarregarPaged(resp: Option<Value>)
      requires Valid()
      modifies this
      ensures Valid()
      ensures resp.Some? && ItensDaResposta(resp.value).Some? ==>
        itensCache == ItensDaResposta(resp.value).value && Pag() == Carregada(old(Pag()), CursorDaResposta(resp.value))
      ensures !(resp.Some? && ItensDaResposta(resp.value).Some?) ==> itensCache == old(itensCache) && Pag() == old(Pag())
      ensures selecionados == old(selecionados) && total == old(total) && nomeProduto == old(nomeProduto)
    {
      if resp.None? {
        return;
      }
      var items := ItensDaResposta(resp.value);
      if items.None? {
        return;
      }
      itensCache := items.value;
      nextCursor := CursorDaResposta(resp.value);
    }

    /** static/js/pages/produto.js:271-290: a search's response; the next cursor becomes null. */
    method CarregarBusca(resp: Option<Value>)
      requires Valid()
      modifies this
      ensures Valid()
      ensures resp.Some? && ItensDaResposta(resp.value).Some? ==>
        itensCache == ItensDaResposta(resp.value).value && Pag() == Carregada(old(Pag()), Null)
      ensures !(resp.Some? && ItensDaResposta(resp.value).Some?) ==> itensCache == old(itensCache) && Pag() == old(Pag())
      ensures selecionados == old(selecionados) && total == old(total) && nomeProduto == old(nomeProduto)
    {
      if resp.None? {
        return;
      }
      var items := ItensDaResposta(resp.value);
      if items.None? {
        return;
      }
      itensCache := items.value;
      nextCursor := Null;
    }

    /**
     * static/js/pages/produto.js:293-312: the search box after its pause.
     * `resp` is the response of the listing it asks for.
     */
    method Buscar(v: string, resp: Option<Value>)
      requires Valid()
      modifies this
      ensures Valid()
      ensures Pag().(nextCursor := Null) == Buscada(old(Pag()), v)
      ensures Strip(v) != [] ==> nextCursor == Null
      ensures resp.Some? && ItensDaResposta(resp.value).Some? ==>
        itensCache == ItensDaResposta(resp.value).value
        && nextCursor == (if Strip(v) != [] then Null else CursorDaResposta(resp.value))
      ensures !(resp.Some? && ItensDaResposta(resp.value).Some?) ==> itensCache == old(itensCache) && nextCursor == Null
      ensures selecionados == old(selecionados) && total == old(total) && nomeProduto == old(nomeProduto)
    {
      var term := Strip(v);
      if term != [] {
        isSearchMode := true;
        pageNum := 1;
        pageCursor := Null;
        nextCursor := Null;
        cursorStack := [];
        CarregarBusca(resp);
      } else {
        isSearchMode := false;
        pageNum := 1;
        pageCursor := Null;
        nextCursor := Null;
        cursorStack := [];
        CarregarPaged(resp);
      }
    }

    /** static/js/pages/produto.js:322-330: the "prev" button; `resp` answers the listing it asks for, if it asks. */
    method Voltar(resp: Option<Value>)
      requires Valid()
      modifies this
      ensures Valid()
      ensures Pag().(nextCursor := Null) == Anterior(old(Pag())).(nextCursor := Null)
      ensures old(isSearchMode) || |old(cursorStack)| == 0 ==> Pag() == old(Pag()) && itensCache == old(itensCache)
      ensures !old(isSearchMode) && |old(cursorStack)| > 0 && resp.Some? && ItensDaResposta(resp.value).Some? ==>
        itensCache == ItensDaResposta(resp.value).value && nextCursor == CursorDaResposta(resp.value)
      ensures !(resp.Some? && ItensDaResposta(resp.value).Some?) ==> itensCache == old(itensCache) && nextCursor == old(nextCursor)
      ensures selecionados == old(selecionados) && total == old(total) && nomeProduto == old(nomeProduto)
    {
      if isSearchMode || |cursorStack| == 0 {
        return;
      }
      var c := cursorStack[|cursorStack| - 1];
      cursorStack := cursorStack[..|cursorStack| - 1];
      pageCursor := if JsTruthy(c) then c else Null;
      pageNum := if pageNum - 1 < 1 then 1 else pageNum - 1;
      CarregarPaged(resp);
    }

    /** static/js/pages/produto.js:332-341: the "next" button; `resp` answers the listing it asks for, if it asks. */
    method Avancar(resp: Option<Value>)
      requires Valid()
      modifies this
      ensures Valid()
      ensures Pag().(nextCursor := Null) == Proxima(old(Pag())).(nextCursor := Null)
      ensures old(isSearchMode) || !JsTruthy(old(nextCursor)) ==> Pag() == old(Pag()) && itensCache == old(itensCache)
      ensures !old(isSearchMode) && JsTruthy(old(nextCursor)) && resp.Some? && ItensDaResposta(resp.value).Some? ==>
        itensCache == ItensDaResposta(resp.value).value && nextCursor == CursorDaResposta(resp.value)
      ensures !(resp.Some? && ItensDaResposta(resp.value).Some?) ==> itensCache == old(itensCache) && nextCursor == old(nextCursor)
      ensures selecionados == old(selecionados) && total == old(total) && nomeProduto == old(nomeProduto)
    {
      if isSearchMode || !JsTruthy(nextCursor) {
        return;
      }
      cursorStack := cursorStack + [pageCursor];
      pageCursor := nextCursor;
      pageNum := pageNum + 1;
      CarregarPaged(resp);
    }

    /** Typing the product's name. */
    method DigitarNome(s: string)
      requires Valid()
      modifies this`nomeProduto
      ensures Valid() && nomeProduto == s
    {
      nomeProduto := s;
    }

    /**
     * static/js/pages/produto.js:344-408: the save button. A blank name or an
     * empty selection sends nothing. Otherwise the request carries each entry
     * and their cost, and a successful answer empties the selection and the
     * name; any other answer leaves them.
     */
    method Salvar(resp: RespostaSalvar) returns (envio: Option<Envio>)
      requires Valid()
      modifies this
      ensures Valid()
      ensures Strip(old(nomeProduto)) == [] || old(selecionados) == [] ==> envio.None?
      ensures envio.Some? ==>
        envio.value == Envio(Strip(old(nomeProduto)), Enviados(old(selecionados)), SomaSubtotais(Enviados(old(selecionados))))
      ensures envio.Some? && SalvouComSucesso(resp) ==> selecionados == [] && total == 0.0 && nomeProduto == []
      ensures envio.None? || !SalvouComSucesso(resp) ==>
        selecionados == old(selecionados) && total == old(total) && nomeProduto == old(nomeProduto)
      ensures Pag() == old(Pag()) && itensCache == old(itensCache)
    {
      var nome := Strip(nomeProduto);
      if nome == [] {
        return None;
      }
      if |selecionados| == 0 {
        return None;
      }
      var insumos: seq<InsumoEnviado> := [];
      var k := 0;
      while k < |selecionados|
        invariant 0 <= k <= |selecionados|
        invariant insumos == Enviados(selecionados[..k])
      {
        insumos := insumos + [Enviado(selecionados[k])];
        k := k + 1;
      }
      assert selecionados[..k] == selecionados;
      envio := Some(Envio(nome, insumos, SomaSubtotais(insumos)));
      if SalvouComSucesso(resp) {
        selecionados := [];
        RecalcTotal();
        nomeProduto := [];
      }
    }
  }

  /** The cost the page sends is the total it was showing. */
  lemma EnvioMostraTotal(xs: seq<Selecionado>, nome: string)
    ensures Envio(nome, Enviados(xs), SomaSubtotais(Enviados(xs))).custoTotal == Total(xs)
  {
    SomaSubtotaisTotal(xs);
  }
}
