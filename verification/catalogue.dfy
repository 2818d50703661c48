/**
 * The catalogue kept by the server: the `itens` collection (raw materials
 * from invoices or typed by hand) and the `produtos` collection (products
 * built from them). The store is a pair of sequences of documents, each in
 * the order the server's queries read it (newest `data_criacao` first).
 *
 * The routes are modelled after the request has been decoded: a query
 * parameter is an optional string, a JSON body a `Value` (`Null` when the
 * body is not JSON). Each route returns a datatype naming the response it
 * sends; the status codes are given by `Status` functions.
 */
module Catalogue {
  import opened Wrappers
  import opened Text
  import opened Numbers
  import opened Json

  /** A stored document: its id and its fields. */
  datatype Doc = Doc(id: string, data: Object)

  /** The store's ids: none is empty and no two documents of a collection share one. */
  predicate IdsValidos(ds: seq<Doc>) {
    (forall i | 0 <= i < |ds| :: ds[i].id != [])
    && forall i, j | 0 <= i < j < |ds| :: ds[i].id != ds[j].id
  }

  function Min(a: int, b: int): int {
    if a <= b then a else b
  }

  /** The position of the document with id `id`, if there is one. */
  function PosicaoId(ds: seq<Doc>, id: string): (r: Option<nat>)
    ensures r.Some? ==> r.value < |ds| && ds[r.value].id == id
    ensures r.Some? ==> forall j | 0 <= j < r.value :: ds[j].id != id
    ensures r.None? ==> forall j | 0 <= j < |ds| :: ds[j].id != id
  {
    if ds == [] then None
    else if ds[0].id == id then Some(0)
    else match PosicaoId(ds[1..], id)
      case None => None
      case Some(k) => Some(k + 1)
  }

  /** When ids are distinct, the document at position `i` is found at `i`. */
  lemma PosicaoIdDistintos(ds: seq<Doc>, i: nat)
    requires IdsValidos(ds) && i < |ds|
    ensures PosicaoId(ds, ds[i].id) == Some(i)
  {
  }

  /** A document as a listing returns it: its fields with its id added under "id". */
  function Exposto(d: Doc): (o: Object)
    ensures o.Keys == d.data.Keys + {"id"} && o["id"] == Str(d.id)
    ensures forall k | k in d.data && k != "id" :: o[k] == d.data[k]
  {
    d.data["id" := Str(d.id)]
  }

  // ---------------------------------------------------------------------
  // GET /listar-itens
  // ---------------------------------------------------------------------

  /** The page size when the request gives none. */
  const LimitePadrao: int := 20

  /** The number of newest documents the search mode reads. */
  const LimiteBusca: nat := 1000

  /** Python `int(s)` for a decimal literal: surrounding blanks and one sign are allowed; None where it raises. */
  function PyInt(s: string): Option<int> {
    var t := Strip(s);
    var neg := |t| > 0 && t[0] == '-';
    var u := if |t| > 0 && (t[0] == '-' || t[0] == '+') then t[1..] else t;
    if u != [] && AllDigits(u) then Some(if neg then -(DigitsValue(u) as int) else DigitsValue(u) as int)
    else None
  }

  /** `int(request.args.get('limit', 20))`; None where it raises. */
  function LerLimite(arg: Option<string>): Option<int> {
    match arg
    case None => Some(LimitePadrao)
    case Some(s) => PyInt(s)
  }

  /** A digit string reads as its value. */
  lemma PyIntDigits(a: string)
    requires a != [] && AllDigits(a)
    ensures PyInt(a) == Some(DigitsValue(a) as int)
  {
    assert IsDigit(a[0]) && IsDigit(a[|a| - 1]);
    StripNoop(a);
  }

  /** A digit string after a minus sign reads as the negated value. */
  lemma PyIntNegative(a: string)
    requires a != [] && AllDigits(a)
    ensures PyInt("-" + a) == Some(-(DigitsValue(a) as int))
  {
    var m := "-" + a;
    assert IsDigit(a[|a| - 1]) && m[|m| - 1] == a[|a| - 1];
    StripNoop(m);
    assert m[1..] == a;
  }

  /** Text without a digit, such as "abc" or "", makes the limit unreadable. */
  lemma LerLimiteInvalido(s: string)
    requires NoDigits(s)
    ensures LerLimite(Some(s)).None?
  {
    var t := Strip(s);
    StripNoDigits(s);
    if t != [] {
      assert t[0] in t;
      NoDigitsSlice(t, 1, |t|);
      if |t| > 1 { assert t[1..][0] in t[1..]; }
    }
  }

  /** `int` does not read a decimal point: "2.5" makes the limit unreadable. */
  lemma LerLimiteDecimal(a: string, b: string)
    requires AllDigits(a) && AllDigits(b)
    ensures LerLimite(Some(a + "." + b)).None?
  {
    var s := a + "." + b;
    assert IsDigit(s[0]) || s[0] == '.' by {
      if a != [] { assert s[0] == a[0]; }
    }
    assert IsDigit(s[|s| - 1]) || s[|s| - 1] == '.' by {
      if b != [] { assert s[|s| - 1] == b[|b| - 1]; }
    }
    StripNoop(s);
    assert s[|a|] == '.' && !IsDigit(s[|a|]);
  }

  /** Python `str(x or '')` for a stored code: the text of a string code, "" for a false one. */
  function CodigoTexto(v: Value): string {
    if v.Str? then v.s else []
  }

  /**
   * Whether the search keeps `d` for the case-folded query `qn`: the query
   * occurs in the case-folded name or code. None where
   * `(nome or '').casefold()` raises (a name that is not text).
   */
  function Casa(d: Doc, qn: string): Option<bool> {
    match PyOrEmpty(Get(d.data, "nome"))
    case None => None
    case Some(nome) =>
      Some(Contains(Lower(nome), qn) || Contains(Lower(CodigoTexto(Get(d.data, "codigo"))), qn))
  }

  /** The documents of `ds` that the search keeps, in store order; None when reading one of them raises. */
  function Coincidentes(ds: seq<Doc>, qn: string): Option<seq<Object>> {
    if ds == [] then Some([])
    else match Coincidentes(ds[..|ds| - 1], qn)
      case None => None
      case Some(r) =>
        match Casa(ds[|ds| - 1], qn)
        case None => None
        case Some(b) => Some(if b then r + [Exposto(ds[|ds| - 1])] else r)
  }

  /** The search has stopped after reading `n` documents: the last one raised, or `limit` results were reached. */
  predicate Parou(ds: seq<Doc>, qn: string, limit: int, n: nat)
    requires n <= |ds|
  {
    0 < n && (Coincidentes(ds[..n], qn).None? || |Coincidentes(ds[..n], qn).value| >= limit)
  }

  /** The number of documents the search reads when it has already read `n` without stopping. */
  function Parada(ds: seq<Doc>, qn: string, limit: int, n: nat): (m: nat)
    requires n <= |ds|
    ensures n <= m <= |ds|
    decreases |ds| - n
  {
    if n == |ds| || Parou(ds, qn, limit, n) then n else Parada(ds, qn, limit, n + 1)
  }

  /** app.py:132-145: the search mode's result over the documents `ds` it reads; None where it raises. */
  function Busca(ds: seq<Doc>, qn: string, limit: int): Option<seq<Object>> {
    Coincidentes(ds[..Parada(ds, qn, limit, 0)], qn)
  }

  /** One more document extends the scan by that document alone. */
  lemma CoincidentesPasso(ds: seq<Doc>, qn: string, n: nat)
    requires n < |ds|
    ensures Coincidentes(ds[..n + 1], qn) ==
      match Coincidentes(ds[..n], qn)
      case None => None
      case Some(r) =>
        match Casa(ds[n], qn)
        case None => None
        case Some(b) => Some(if b then r + [Exposto(ds[n])] else r)
  {
    assert ds[..n + 1][..n] == ds[..n];
  }

  /** The scan reads documents until it stops, and stops at the first point where it may. */
  lemma {:induction false} ParadaSpec(ds: seq<Doc>, qn: string, limit: int, n: nat)
    requires n <= |ds|
    ensures var m := Parada(ds, qn, limit, n);
            (m == |ds| || Parou(ds, qn, limit, m)) && forall j | n <= j < m :: !Parou(ds, qn, limit, j)
    decreases |ds| - n
  {
    var m := Parada(ds, qn, limit, n);
    if n < |ds| && !Parou(ds, qn, limit, n) {
      ParadaSpec(ds, qn, limit, n + 1);
      assert m == Parada(ds, qn, limit, n + 1);
    } else {
      assert m == n;
    }
  }

  /** Every result of the scan is a document the search keeps, and there are no more results than documents. */
  lemma {:induction false} CoincidentesSpec(ds: seq<Doc>, qn: string)
    ensures Coincidentes(ds, qn).Some? ==>
      |Coincidentes(ds, qn).value| <= |ds| &&
      forall o | o in Coincidentes(ds, qn).value :: exists i | 0 <= i < |ds| :: Casa(ds[i], qn) == Some(true) && o == Exposto(ds[i])
    decreases |ds|
  {
    if ds != [] {
      var p := ds[..|ds| - 1];
      CoincidentesSpec(p, qn);
      forall i | 0 <= i < |p|
        ensures p[i] == ds[i]
      {
      }
    }
  }

  /** The scan raises exactly when some document's name is not text. */
  lemma {:induction false} CoincidentesNone(ds: seq<Doc>, qn: string)
    ensures Coincidentes(ds, qn).None? <==> exists i | 0 <= i < |ds| :: Casa(ds[i], qn).None?
    decreases |ds|
  {
    if ds != [] {
      var p := ds[..|ds| - 1];
      CoincidentesNone(p, qn);
      forall i | 0 <= i < |p|
        ensures p[i] == ds[i]
      {
      }
    }
  }

  /** A scan that succeeds over all of `ds` succeeds over each prefix, with no more results. */
  lemma {:induction false} CoincidentesPrefixo(ds: seq<Doc>, qn: string, n: nat)
    requires n <= |ds| && Coincidentes(ds, qn).Some?
    ensures Coincidentes(ds[..n], qn).Some?
    ensures |Coincidentes(ds[..n], qn).value| <= |Coincidentes(ds, qn).value|
    decreases |ds| - n
  {
    if n < |ds| {
      CoincidentesPrefixo(ds, qn, n + 1);
      CoincidentesPasso(ds, qn, n);
    } else {
      assert ds[..n] == ds;
    }
  }

  /** With a limit of at least one, the search never returns more than `limit` results. */
  lemma BuscaLimite(ds: seq<Doc>, qn: string, limit: int)
    requires limit >= 1
    ensures Busca(ds, qn, limit).Some? ==> |Busca(ds, qn, limit).value| <= limit
  {
    var m := Parada(ds, qn, limit, 0);
    ParadaSpec(ds, qn, limit, 0);
    if m > 0 {
      assert !Parou(ds, qn, limit, m - 1);
      assert ds[..0] == [];
      CoincidentesPasso(ds, qn, m - 1);
    }
  }

  /** When every kept document fits under the limit, the search returns all of them: it stops early only at the limit. */
  lemma BuscaCompleta(ds: seq<Doc>, qn: string, limit: int)
    requires Coincidentes(ds, qn).Some? && |Coincidentes(ds, qn).value| < limit
    ensures Busca(ds, qn, limit) == Coincidentes(ds, qn)
  {
    var m := Parada(ds, qn, limit, 0);
    ParadaSpec(ds, qn, limit, 0);
    if m < |ds| {
      CoincidentesPrefixo(ds, qn, m);
      assert false;
    }
    assert ds[..m] == ds;
  }

  /** Every search result is a document, with its id, whose case-folded name or code contains the query. */
  lemma BuscaOrigem(ds: seq<Doc>, qn: string, limit: int)
    ensures Busca(ds, qn, limit).Some? ==>
      forall o | o in Busca(ds, qn, limit).value :: exists i | 0 <= i < |ds| :: Casa(ds[i], qn) == Some(true) && o == Exposto(ds[i])
  {
    var m := Parada(ds, qn, limit, 0);
    var p := ds[..m];
    CoincidentesSpec(p, qn);
    forall i | 0 <= i < |p|
      ensures p[i] == ds[i]
    {
    }
  }

  /** app.py:132-145: the search loop, reading the documents in order and stopping once `limit` results are found. */
  method Buscar(ds: seq<Doc>, qn: string, limit: int) returns (r: Option<seq<Object>>)
    ensures r == Busca(ds, qn, limit)
  {
    var items: seq<Object> := [];
    var k := 0;
    while k < |ds|
      invariant 0 <= k <= |ds|
      invariant Coincidentes(ds[..k], qn) == Some(items)
      invariant !Parou(ds, qn, limit, k)
      invariant Parada(ds, qn, limit, 0) == Parada(ds, qn, limit, k)
    {
      CoincidentesPasso(ds, qn, k);
      var c := Casa(ds[k], qn);
      if c.None? {
        return None;
      }
      if c.value {
        items := items + [Exposto(ds[k])];
      }
      k := k + 1;
      if |items| >= limit {
        return Some(items);
      }
    }
    assert ds[..k] == ds[..Parada(ds, qn, limit, 0)];
    return Some(items);
  }

  /** A listing: a page of documents and the cursor of the next page, or the 500 the route sends when it raises. */
  datatype Listagem = Listagem(items: seq<Object>, nextCursor: Option<string>) | ListagemFalhou

  function StatusListagem(r: Listagem): int {
    if r.Listagem? then 200 else 500
  }

  /** Where a page starts: after the cursor's document when it exists, otherwise at the newest document. */
  function Inicio(ds: seq<Doc>, cursor: Option<string>): (s: nat)
    ensures s <= |ds|
  {
    if cursor.None? || cursor.value == [] then 0
    else match PosicaoId(ds, cursor.value)
      case None => 0
      case Some(i) => i + 1
  }

  /**
   * app.py:147-166: the paged mode. `limit + 1` documents are read from the
   * start; the first `limit` are returned, and the cursor is the id of the
   * last returned document when more were read. A negative count makes the
   * store raise.
   */
  function Pagina(ds: seq<Doc>, cursor: Option<string>, limit: int): Listagem {
    if limit + 1 < 0 then ListagemFalhou else PaginaLida(ds, Inicio(ds, cursor), limit)
  }

  /** The page read from position `s` with a count the store accepts. */
  function PaginaLida(ds: seq<Doc>, s: nat, limit: int): Listagem
    requires s <= |ds| && limit >= -1
  {
    var lidos := Lidos(ds, s, limit + 1);
    var docs := PyPrefixo(lidos, limit);
    var next := if |lidos| > limit && docs != [] then Some(docs[|docs| - 1].id) else None;
    Listagem(Expostos(docs), next)
  }

  /** The store's `start_after(...).limit(n)`: up to `n` documents from position `s`. */
  function Lidos(ds: seq<Doc>, s: nat, n: nat): (r: seq<Doc>)
    requires s <= |ds|
    ensures |r| == Min(n, |ds| - s)
    ensures forall k | 0 <= k < |r| :: r[k] == ds[s + k]
  {
    ds[s..][..Min(n, |ds| - s)]
  }

  /** Python `xs[:n]`: the first `n` elements, or all but the last `-n` when `n` is negative. */
  function PyPrefixo(xs: seq<Doc>, n: int): (r: seq<Doc>)
    ensures n >= 0 ==> |r| == Min(n, |xs|)
    ensures n < 0 ==> |r| == (if |xs| + n < 0 then 0 else |xs| + n)
    ensures forall k | 0 <= k < |r| :: r[k] == xs[k]
  {
    if n >= 0 then xs[..Min(n, |xs|)]
    else if |xs| + n < 0 then []
    else xs[..|xs| + n]
  }

  /** Each document as the listing returns it, in order. */
  function Expostos(docs: seq<Doc>): (r: seq<Object>)
    ensures |r| == |docs| && forall k | 0 <= k < |docs| :: r[k] == Exposto(docs[k])
  {
    seq(|docs|, k requires 0 <= k < |docs| => Exposto(docs[k]))
  }

  /** app.py:158-162: the loop that adds each document's id to its fields. */
  method ExporTodos(docs: seq<Doc>) returns (items: seq<Object>)
    ensures items == Expostos(docs)
  {
    items := [];
    var k := 0;
    while k < |docs|
      invariant 0 <= k <= |docs|
      invariant |items| == k && forall j | 0 <= j < k :: items[j] == Exposto(docs[j])
    {
      items := items + [Exposto(docs[k])];
      k := k + 1;
    }
  }

  /**
   * A page holds the next `limit` documents after the cursor (fewer at the end
   * of the collection), and carries a cursor exactly when documents remain
   * after it; that cursor is the id of the page's last document.
   */
  lemma PaginaSpec(ds: seq<Doc>, cursor: Option<string>, limit: int)
    requires limit >= 0
    ensures var r := Pagina(ds, cursor, limit);
            var s := Inicio(ds, cursor);
            r.Listagem? && |r.items| == Min(limit, |ds| - s)
            && (forall k | 0 <= k < |r.items| :: r.items[k] == Exposto(ds[s + k]))
            && (r.nextCursor.Some? <==> limit >= 1 && s + limit < |ds|)
            && (r.nextCursor.Some? ==> r.nextCursor.value == ds[s + limit - 1].id)
  {
    PaginaDesde(ds, Inicio(ds, cursor), limit);
  }

  /** The page read from position `s`: the next `limit` documents, exposed, and the cursor of the last one when more remain. */
  lemma PaginaDesde(ds: seq<Doc>, s: nat, limit: nat)
    requires s <= |ds|
    ensures var r := PaginaLida(ds, s, limit);
            r.Listagem? && |r.items| == Min(limit, |ds| - s)
            && (forall k | 0 <= k < |r.items| :: r.items[k] == Exposto(ds[s + k]))
            && (r.nextCursor.Some? <==> limit >= 1 && s + limit < |ds|)
            && (r.nextCursor.Some? ==> r.nextCursor.value == ds[s + limit - 1].id)
  {
    var lidos := Lidos(ds, s, limit + 1);
    var docs := PyPrefixo(lidos, limit);
    var items := Expostos(docs);
    var next := if |lidos| > limit && docs != [] then Some(docs[|docs| - 1].id) else None;
    assert PaginaLida(ds, s, limit) == Listagem(items, next);
    PrefixoDosLidos(ds, s, limit);
    UltimoDosLidos(ds, s, limit);
    forall k | 0 <= k < |items|
      ensures items[k] == Exposto(ds[s + k])
    {
      assert docs[k] == ds[s + k];
    }
  }

  /** The page's last document is there exactly when more remain after it, and it is the one at `s + limit - 1`. */
  lemma UltimoDosLidos(ds: seq<Doc>, s: nat, limit: nat)
    requires s <= |ds|
    ensures var lidos := Lidos(ds, s, limit + 1);
            var docs := PyPrefixo(lidos, limit);
            (|lidos| > limit && docs != [] <==> limit >= 1 && s + limit < |ds|)
            && (limit >= 1 && s + limit < |ds| ==> docs[|docs| - 1] == ds[s + limit - 1])
  {
    PrefixoDosLidos(ds, s, limit);
  }

  /** The first `limit` of the `limit + 1` documents read from `s`: the next `limit` documents, with more to come exactly when `s + limit < |ds|`. */
  lemma PrefixoDosLidos(ds: seq<Doc>, s: nat, limit: nat)
    requires s <= |ds|
    ensures var lidos := Lidos(ds, s, limit + 1);
            var docs := PyPrefixo(lidos, limit);
            |docs| == Min(limit, |ds| - s)
            && (forall k | 0 <= k < |docs| :: docs[k] == ds[s + k])
            && (|lidos| > limit <==> s + limit < |ds|)
  {
  }

  /** With distinct ids, following a page's cursor starts the next page right after it: pages neither skip nor repeat. */
  lemma PaginaSeguinte(ds: seq<Doc>, cursor: Option<string>, limit: int)
    requires IdsValidos(ds) && limit >= 0
    ensures var r := Pagina(ds, cursor, limit);
            r.Listagem? && r.nextCursor.Some? ==> Inicio(ds, r.nextCursor) == Inicio(ds, cursor) + limit
  {
    var r := Pagina(ds, cursor, limit);
    PaginaSpec(ds, cursor, limit);
    if r.nextCursor.Some? {
      var s := Inicio(ds, cursor);
      PosicaoIdDistintos(ds, s + limit - 1);
    }
  }

  /** A limit of -1 reads nothing; a lower one makes the store raise. */
  lemma PaginaNegativa(ds: seq<Doc>, cursor: Option<string>, limit: int)
    requires limit < 0
    ensures limit == -1 ==> Pagina(ds, cursor, limit) == Listagem([], None)
    ensures limit < -1 ==> Pagina(ds, cursor, limit) == ListagemFalhou
  {
  }

  /** app.py:147-166: the paged mode's loop over the documents read. */
  method Paginar(ds: seq<Doc>, cursor: Option<string>, limit: int) returns (r: Listagem)
    ensures r == Pagina(ds, cursor, limit)
  {
    var s := Inicio(ds, cursor);
    if limit + 1 < 0 {
      return ListagemFalhou;
    }
    var lidos := Lidos(ds, s, limit + 1);
    var hasMore := |lidos| > limit;
    var docs := PyPrefixo(lidos, limit);
    var items := ExporTodos(docs);
    var next := if hasMore && docs != [] then Some(docs[|docs| - 1].id) else None;
    r := Listagem(items, next);
    assert r == PaginaLida(ds, s, limit);
  }

  /**
   * app.py:122-169: the listing route. The limit is read first (an unreadable
   * one is a 500); a non-blank query searches the newest 1000 documents and
   * never gives a cursor; a blank one pages.
   */
  function Listar(ds: seq<Doc>, q: Option<string>, limitArg: Option<string>, cursor: Option<string>): Listagem {
    var qs := Strip(q.GetOr([]));
    match LerLimite(limitArg)
    case None => ListagemFalhou
    case Some(limit) =>
      if qs != [] then
        match Busca(ds[..Min(LimiteBusca, |ds|)], Lower(qs), limit)
        case None => ListagemFalhou
        case Some(items) => Listagem(items, None)
      else Pagina(ds, cursor, limit)
  }

  /** The search mode never returns a cursor, and with a limit of at least one never more than `limit` documents. */
  lemma ListarBusca(ds: seq<Doc>, q: string, limitArg: Option<string>, cursor: Option<string>)
    requires Strip(q) != []
    ensures var r := Listar(ds, Some(q), limitArg, cursor);
            r.Listagem? ==> (r.nextCursor.None?
              && (LerLimite(limitArg).value >= 1 ==> |r.items| <= LerLimite(limitArg).value))
  {
    if LerLimite(limitArg).Some? && LerLimite(limitArg).value >= 1 {
      BuscaLimite(ds[..Min(LimiteBusca, |ds|)], Lower(Strip(q)), LerLimite(limitArg).value);
    }
  }

  // ---------------------------------------------------------------------
  // POST /criar-itens
  // ---------------------------------------------------------------------

  /** One item of a batch after normalising: its position, the optional code, and the trimmed and parsed fields. */
  datatype Limpo = Limpo(idx: nat, codigo: Option<Value>, nome: string, unidade: string, valor: real, data: string)

  /** The 400 responses of the batch route. */
  datatype ErroLote =
    | SemItens                 // no non-empty "itens" list
    | ItemInvalido(idx: nat)   // the item at position idx is not an object
    | CamposAusentes(num: nat) // item number num (counting from 1) lacks a required field

  /** The outcome of checking one item: normalised, refused with a 400, or raising (a 500). */
  datatype Validacao = Valido(c: Limpo) | Recusa(erro: ErroLote) | Excecao

  /** `codigo if codigo not in ('', None) else None`. */
  function CodigoOpcional(v: Value): (r: Option<Value>)
    ensures r.None? <==> v == Null || v == Str([])
    ensures r.Some? ==> r.value == v
  {
    if v == Null || v == Str([]) then None else Some(v)
  }

  /**
   * app.py:184-216: one item of the batch. It must be an object; its name,
   * unit and emission date are trimmed (a non-text value raises) and must be
   * non-empty, and its price must parse.
   */
  function ValidarItem(idx: nat, it: Value): Validacao {
    if !it.Obj? then Recusa(ItemInvalido(idx))
    else
      var o := it.fields;
      var nome := PyStrippedOrEmpty(Get(o, "nome"));
      var unidade := PyStrippedOrEmpty(Get(o, "unidade"));
      var valor := PyToFloat(Get(o, "valor_unitario"));
      var data := PyStrippedOrEmpty(Get(o, "data_emissao"));
      if nome.None? || unidade.None? || data.None? then Excecao
      else if nome.value == [] || unidade.value == [] || valor.None? || data.value == [] then Recusa(CamposAusentes(idx + 1))
      else Valido(Limpo(idx, CodigoOpcional(Get(o, "codigo")), nome.value, unidade.value, valor.value, data.value))
  }

  /** A normalised item has its position, and non-empty trimmed text fields read from the item. */
  lemma ValidarItemSpec(idx: nat, it: Value)
    ensures ValidarItem(idx, it).Valido? ==>
      var c := ValidarItem(idx, it).c;
      it.Obj? && c.idx == idx && c.nome != [] && c.unidade != [] && c.data != []
      && NoSpaceAtEnds(c.nome) && NoSpaceAtEnds(c.unidade) && NoSpaceAtEnds(c.data)
      && Some(c.valor) == PyToFloat(Get(it.fields, "valor_unitario"))
    ensures !it.Obj? ==> ValidarItem(idx, it) == Recusa(ItemInvalido(idx))
  {
  }

  /** The items of a batch from position `k` on: all normalised, or the first one that is not. */
  datatype Lote = Limpos(cs: seq<Limpo>) | Interrompido(v: Validacao)

  /** `cs` in front of a partial outcome. */
  function Juntar(cs: seq<Limpo>, l: Lote): Lote {
    match l
    case Limpos(ds) => Limpos(cs + ds)
    case Interrompido(v) => l
  }

  /** The outcome of checking each item of a batch on its own. */
  function Validacoes(its: seq<Value>): (vs: seq<Validacao>)
    ensures |vs| == |its|
  {
    seq(|its|, k requires 0 <= k < |its| => ValidarItem(k, its[k]))
  }

  /** app.py:183-216: the items from position `k` on, given each one's outcome, checked in order until one fails. */
  function ValidarDesde(vs: seq<Validacao>, k: nat): Lote
    requires k <= |vs|
    decreases |vs| - k
  {
    if k == |vs| then Limpos([])
    else match vs[k]
      case Valido(c) => Juntar([c], ValidarDesde(vs, k + 1))
      case v => Interrompido(v)
  }

  /**
   * All items are normalised exactly when each one is, in order; otherwise
   * the outcome is that of the first item that fails, whatever the later
   * items hold.
   */
  lemma {:induction false} ValidarDesdeSpec(vs: seq<Validacao>, k: nat)
    requires k <= |vs|
    ensures ValidarDesde(vs, k).Limpos? ==>
      var cs := ValidarDesde(vs, k).cs;
      |cs| == |vs| - k && forall j | k <= j < |vs| :: vs[j] == Valido(cs[j - k])
    ensures ValidarDesde(vs, k).Interrompido? ==>
      var v := ValidarDesde(vs, k).v;
      !v.Valido? && exists j | k <= j < |vs| :: (vs[j] == v && forall i | k <= i < j :: vs[i].Valido?)
    decreases |vs| - k
  {
    if k < |vs| && vs[k].Valido? {
      ValidarDesdeSpec(vs, k + 1);
      var r := ValidarDesde(vs, k + 1);
      if r.Interrompido? {
        var j :| k + 1 <= j < |vs| && vs[j] == r.v && forall i | k + 1 <= i < j :: vs[i].Valido?;
        assert forall i | k <= i < j :: vs[i].Valido?;
      }
    }
  }

  /** A stored item equal to `c` on name, unit, price and emission date, and on code when `c` has one. */
  predicate Igual(d: Doc, c: Limpo) {
    Get(d.data, "nome") == Str(c.nome) && Get(d.data, "unidade") == Str(c.unidade)
    && Get(d.data, "valor_unitario") == Num(c.valor) && Get(d.data, "data_emissao") == Str(c.data)
    && (c.codigo.Some? ==> Get(d.data, "codigo") == c.codigo.value)
  }

  /** app.py:224-234: the store query finds a stored item equal to `c`. */
  predicate ExisteIgual(ds: seq<Doc>, c: Limpo) {
    exists i | 0 <= i < |ds| :: Igual(ds[i], c)
  }

  /** app.py:222-245: the normalised items that equal some stored item, in batch order. */
  function Conflitos(ds: seq<Doc>, cs: seq<Limpo>): seq<Limpo> {
    if cs == [] then []
    else if ExisteIgual(ds, cs[|cs| - 1]) then Conflitos(ds, cs[..|cs| - 1]) + [cs[|cs| - 1]]
    else Conflitos(ds, cs[..|cs| - 1])
  }

  /** An item is reported as a conflict exactly when it is in the batch and some stored item equals it. */
  lemma {:induction false} ConflitosSpec(ds: seq<Doc>, cs: seq<Limpo>)
    ensures |Conflitos(ds, cs)| <= |cs|
    ensures forall c :: c in Conflitos(ds, cs) <==> c in cs && ExisteIgual(ds, c)
    decreases |cs|
  {
    if cs != [] {
      var p := cs[..|cs| - 1];
      ConflitosSpec(ds, p);
      assert cs == p + [cs[|cs| - 1]];
    }
  }

  /** The batch route's responses. */
  datatype Criacao =
    | Criados(n: nat)
    | Recusado(erro: ErroLote)
    | Conflitantes(conflitos: seq<Limpo>)
    | CriacaoFalhou

  function StatusCriacao(r: Criacao): int {
    match r
    case Criados(_) => 201
    case Recusado(_) => 400
    case Conflitantes(_) => 409
    case CriacaoFalhou => 500
  }

  /**
   * app.py:180-216: the body's items, normalised. `get_json(...) or {}` turns a
   * false body into `{}`; a true body that is not an object raises on `.get`.
   */
  function LerLote(body: Value): Result<seq<Limpo>, Criacao> {
    var b := if PyTruthy(body) then body else Obj(map[]);
    if !b.Obj? then Err(CriacaoFalhou)
    else
      var its := Get(b.fields, "itens");
      if !its.Arr? || its.items == [] then Err(Recusado(SemItens))
      else match ValidarDesde(Validacoes(its.items), 0)
        case Limpos(cs) => Ok(cs)
        case Interrompido(Recusa(e)) => Err(Recusado(e))
        case Interrompido(_) => Err(CriacaoFalhou)
  }

  /** The stored document of a normalised item, created at `now`. */
  function NovoItem(c: Limpo, id: string, now: int): Doc {
    Doc(id, map[
      "codigo" := (match c.codigo case None => Null case Some(v) => v),
      "nome" := Str(c.nome),
      "unidade" := Str(c.unidade),
      "valor_unitario" := Num(c.valor),
      "data_emissao" := Str(c.data),
      "data_criacao" := Stamp(now),
      "ultima_atualizacao" := Stamp(now)])
  }

  /** The documents a batch writes, the k-th taking the k-th fresh id. */
  function NovosItens(cs: seq<Limpo>, novoId: nat -> string, now: int): (r: seq<Doc>)
    ensures |r| == |cs|
  {
    seq(|cs|, k requires 0 <= k < |cs| => NovoItem(cs[k], novoId(k), now))
  }

  /** app.py:174-271: the batch route's response over the stored items `ds`. */
  function CriarItensResposta(body: Value, ds: seq<Doc>): Criacao {
    match LerLote(body)
    case Err(e) => e
    case Ok(cs) =>
      var cf := Conflitos(ds, cs);
      if cf != [] then Conflitantes(cf) else Criados(|cs|)
  }

  /**
   * A batch is written only when every item is valid and none equals a stored
   * item, and then all of it is: `created` is the batch length.
   */
  lemma CriarItensSpec(body: Value, ds: seq<Doc>)
    ensures var r := CriarItensResposta(body, ds);
            r.Criados? ==>
              LerLote(body).Ok? && r.n == |LerLote(body).value| == |body.fields["itens"].items|
              && forall c | c in LerLote(body).value :: !ExisteIgual(ds, c)
    ensures var r := CriarItensResposta(body, ds);
            r.Conflitantes? ==>
              LerLote(body).Ok? && r.conflitos != []
              && forall c :: c in r.conflitos <==> c in LerLote(body).value && ExisteIgual(ds, c)
  {
    if LerLote(body).Ok? {
      var cs := LerLote(body).value;
      ConflitosSpec(ds, cs);
      ValidarDesdeSpec(Validacoes(body.fields["itens"].items), 0);
      if Conflitos(ds, cs) == [] {
        forall c | c in cs
          ensures !ExisteIgual(ds, c)
        {
          assert c !in Conflitos(ds, cs);
        }
      }
    }
  }

  /** Two equal items in one batch are both written: duplicates inside a batch are not detected. */
  lemma LoteRepetido(it: Value)
    requires ValidarItem(0, it).Valido? && ValidarItem(1, it).Valido?
    ensures CriarItensResposta(Obj(map["itens" := Arr([it, it])]), []) == Criados(2)
  {
    var cs := LoteDeDois(it);
    SemConflitosNoVazio(cs);
  }

  /** The batch of one valid item twice reads as its two normalised copies. */
  lemma LoteDeDois(it: Value) returns (cs: seq<Limpo>)
    requires ValidarItem(0, it).Valido? && ValidarItem(1, it).Valido?
    ensures |cs| == 2 && LerLote(Obj(map["itens" := Arr([it, it])])) == Ok(cs)
  {
    var vs := Validacoes([it, it]);
    assert vs == [ValidarItem(0, it), ValidarItem(1, it)];
    assert ValidarDesde(vs, 2) == Limpos([]);
    assert ValidarDesde(vs, 1) == Limpos([vs[1].c]);
    cs := [vs[0].c, vs[1].c];
    assert ValidarDesde(vs, 0) == Limpos(cs);
    var body := Obj(map["itens" := Arr([it, it])]);
    assert PyTruthy(body) by { assert "itens" in body.fields; }
  }

  /** Against an empty store no item conflicts. */
  lemma {:induction false} SemConflitosNoVazio(cs: seq<Limpo>)
    ensures Conflitos([], cs) == []
    decreases |cs|
  {
    if cs != [] {
      SemConflitosNoVazio(cs[..|cs| - 1]);
    }
  }

  // ---------------------------------------------------------------------
  // POST /criar-produto
  // ---------------------------------------------------------------------

  /** One component of a product as the server recomputes it. */
  datatype Insumo = Insumo(idItem: Value, nome: Value, unidade: Value, valor: real, quantidade: real)

  function Subtotal(x: Insumo): real {
    x.valor * x.quantidade
  }

  /**
   * app.py:349-361: one component, its price and quantity read with
   * `float(str(x).replace(',', '.'))` and 0 when absent; None where that
   * raises, which includes a component that is not an object.
   */
  function LerInsumo(it: Value): Option<Insumo> {
    if !it.Obj? then None
    else
      var o := it.fields;
      match (PyToFloat(GetDefault(o, "valor_unitario", Num(0.0))), PyToFloat(GetDefault(o, "quantidade", Num(0.0))))
      case (Some(v), Some(q)) => Some(Insumo(Get(o, "id_item"), Get(o, "nome"), Get(o, "unidade"), v, q))
      case _ => None
  }

  /** A component without price or quantity counts them as zero; a price of null is refused. */
  lemma LerInsumoPadroes(o: Object)
    ensures "valor_unitario" !in o && "quantidade" !in o ==>
      LerInsumo(Obj(o)) == Some(Insumo(Get(o, "id_item"), Get(o, "nome"), Get(o, "unidade"), 0.0, 0.0))
    ensures "valor_unitario" in o && o["valor_unitario"] == Null ==> LerInsumo(Obj(o)).None?
  {
  }

  /** Each component read on its own. */
  function LeiturasInsumos(its: seq<Value>): (ls: seq<Option<Insumo>>)
    ensures |ls| == |its|
  {
    seq(|its|, k requires 0 <= k < |its| => LerInsumo(its[k]))
  }

  /** `xs` in front of a partial outcome. */
  function JuntarInsumos(xs: seq<Insumo>, r: Result<seq<Insumo>, nat>): Result<seq<Insumo>, nat> {
    match r
    case Ok(ys) => Ok(xs + ys)
    case Err(n) => r
  }

  /** app.py:346-361: the components from position `k` on, in order: all read, or the number (from 1) of the first that fails. */
  function LerInsumosDesde(ls: seq<Option<Insumo>>, k: nat): Result<seq<Insumo>, nat>
    requires k <= |ls|
    decreases |ls| - k
  {
    if k == |ls| then Ok([])
    else match ls[k]
      case Some(x) => JuntarInsumos([x], LerInsumosDesde(ls, k + 1))
      case None => Err(k + 1)
  }

  /** Every component is read, in order, or the first unreadable one is reported by its number. */
  lemma {:induction false} LerInsumosDesdeSpec(ls: seq<Option<Insumo>>, k: nat)
    requires k <= |ls|
    ensures LerInsumosDesde(ls, k).Ok? ==>
      var xs := LerInsumosDesde(ls, k).value;
      |xs| == |ls| - k && forall j | k <= j < |ls| :: ls[j] == Some(xs[j - k])
    ensures LerInsumosDesde(ls, k).Err? ==>
      var n := LerInsumosDesde(ls, k).error;
      k < n <= |ls| && ls[n - 1].None? && forall i | k <= i < n - 1 :: ls[i].Some?
    decreases |ls| - k
  {
    if k < |ls| && ls[k].Some? {
      LerInsumosDesdeSpec(ls, k + 1);
    }
  }

  /** app.py:347-361: the cost of a product, the sum of its components' subtotals. */
  function CustoTotal(xs: seq<Insumo>): real {
    if xs == [] then 0.0 else CustoTotal(xs[..|xs| - 1]) + Subtotal(xs[|xs| - 1])
  }

  /** The cost of two lists of components together is the sum of their costs. */
  lemma {:induction false} CustoTotalConcat(xs: seq<Insumo>, ys: seq<Insumo>)
    ensures CustoTotal(xs + ys) == CustoTotal(xs) + CustoTotal(ys)
    decreases |ys|
  {
    if ys != [] {
      var p := ys[..|ys| - 1];
      assert (xs + ys)[..|xs + ys| - 1] == xs + p;
      assert (xs + ys)[|xs + ys| - 1] == ys[|ys| - 1];
      CustoTotalConcat(xs, p);
    } else {
      assert xs + ys == xs;
    }
  }

  /** With non-negative prices and quantities, the cost is non-negative and at least each subtotal. */
  lemma {:induction false} CustoTotalCota(xs: seq<Insumo>)
    requires forall k | 0 <= k < |xs| :: xs[k].valor >= 0.0 && xs[k].quantidade >= 0.0
    ensures CustoTotal(xs) >= 0.0
    ensures forall k | 0 <= k < |xs| :: Subtotal(xs[k]) <= CustoTotal(xs)
    decreases |xs|
  {
    if xs != [] {
      var p := xs[..|xs| - 1];
      CustoTotalCota(p);
      var last := xs[|xs| - 1];
      assert Subtotal(last) >= 0.0 by {
        assert last.valor >= 0.0 && last.quantidade >= 0.0;
      }
      forall k | 0 <= k < |xs|
        ensures Subtotal(xs[k]) <= CustoTotal(xs)
      {
        if k < |p| {
          assert xs[k] == p[k];
        }
      }
    }
  }

  /** The product route's responses. */
  datatype CriacaoProduto =
    | ProdutoCriado(id: string)
    | SemDados
    | SemNome
    | SemInsumos
    | Duplicado
    | InsumoInvalido(num: nat)
    | ProdutoFalhou

  function StatusProduto(r: CriacaoProduto): int {
    match r
    case ProdutoCriado(_) => 201
    case Duplicado => 409
    case ProdutoFalhou => 500
    case _ => 400
  }

  /**
   * app.py:320-330: the trimmed name and the components of the request. A false
   * body is refused; a true one that is not an object raises on `.get`, as does
   * a name that is not text.
   */
  function LerProduto(data: Value): Result<(string, seq<Value>), CriacaoProduto> {
    if !PyTruthy(data) then Err(SemDados)
    else if !data.Obj? then Err(ProdutoFalhou)
    else
      var nome := PyStrippedOrEmpty(Get(data.fields, "nomeProduto"));
      var ins := if PyTruthy(Get(data.fields, "insumos")) then Get(data.fields, "insumos") else Arr([]);
      if nome.None? then Err(ProdutoFalhou)
      else if nome.value == [] then Err(SemNome)
      else if !ins.Arr? || ins.items == [] then Err(SemInsumos)
      else Ok((nome.value, ins.items))
  }

  /** app.py:333-335: a stored product already has this case-folded name. */
  predicate NomeUsado(ps: seq<Doc>, nomeLower: string) {
    exists i | 0 <= i < |ps| :: Get(ps[i].data, "nome_lower") == Str(nomeLower)
  }

  /** A component as the product stores it, with its subtotal. */
  function InsumoGravado(x: Insumo): Value {
    Obj(map[
      "id_item" := x.idItem,
      "nome" := x.nome,
      "unidade" := x.unidade,
      "valor_unitario" := Num(x.valor),
      "quantidade" := Num(x.quantidade),
      "subtotal" := Num(Subtotal(x))])
  }

  /** app.py:364-373: the stored product, given its stored components and total. */
  function ProdutoGravado(nome: string, gravados: seq<Value>, total: real, id: string, now: int): Doc {
    Doc(id, map[
      "nome" := Str(nome),
      "nome_lower" := Str(Lower(nome)),
      "insumos" := Arr(gravados),
      "custo_total" := Num(total),
      "data_criacao" := Stamp(now),
      "ultima_atualizacao" := Stamp(now)])
  }

  /** The stored product of a name and its components: the total is their cost. */
  function NovoProduto(nome: string, xs: seq<Insumo>, id: string, now: int): Doc {
    ProdutoGravado(nome, seq(|xs|, k requires 0 <= k < |xs| => InsumoGravado(xs[k])), CustoTotal(xs), id, now)
  }

  /**
   * app.py:318-379: the product route over the stored products `ps`, with `id`
   * the new document's id: the request is checked, then the name against the
   * stored ones, then the components.
   */
  function CriarProdutoResposta(data: Value, ps: seq<Doc>, id: string): CriacaoProduto {
    match LerProduto(data)
    case Err(e) => e
    case Ok((nome, its)) =>
      if NomeUsado(ps, Lower(nome)) then Duplicado
      else match LerInsumosDesde(LeiturasInsumos(its), 0)
        case Err(n) => InsumoInvalido(n)
        case Ok(_) => ProdutoCriado(id)
  }

  /** The name check comes before the components are read: a taken name is a 409 whatever the components hold. */
  lemma DuplicadoAntesDosValores(data: Value, ps: seq<Doc>, id: string)
    requires LerProduto(data).Ok? && NomeUsado(ps, Lower(LerProduto(data).value.0))
    ensures CriarProdutoResposta(data, ps, id) == Duplicado
  {
  }

  /**
   * A product is created only with a non-empty trimmed name not yet used
   * (case-insensitively) and a non-empty list of readable components, and an
   * unreadable component is reported by its number.
   */
  lemma CriarProdutoSpec(data: Value, ps: seq<Doc>, id: string)
    ensures var r := CriarProdutoResposta(data, ps, id);
            r.ProdutoCriado? ==>
              LerProduto(data).Ok? && LerProduto(data).value.0 != [] && LerProduto(data).value.1 != []
              && !NomeUsado(ps, Lower(LerProduto(data).value.0))
              && forall k | 0 <= k < |LerProduto(data).value.1| :: LeiturasInsumos(LerProduto(data).value.1)[k].Some?
    ensures var r := CriarProdutoResposta(data, ps, id);
            r.InsumoInvalido? ==>
              LerProduto(data).Ok? && 1 <= r.num <= |LerProduto(data).value.1|
              && LeiturasInsumos(LerProduto(data).value.1)[r.num - 1].None?
  {
    var p := LerProduto(data);
    if p.Ok? {
      var nome, its := p.value.0, p.value.1;
      LerProdutoLido(data);
      var ls := LeiturasInsumos(its);
      LerInsumosDesdeSpec(ls, 0);
      assert CriarProdutoResposta(data, ps, id) ==
        if NomeUsado(ps, Lower(nome)) then Duplicado
        else match LerInsumosDesde(ls, 0)
          case Err(n) => InsumoInvalido(n)
          case Ok(_) => ProdutoCriado(id);
    }
  }

  /** A request that is read has a non-empty name and a non-empty list of components. */
  lemma LerProdutoLido(data: Value)
    requires LerProduto(data).Ok?
    ensures LerProduto(data).value.0 != [] && LerProduto(data).value.1 != []
  {
  }

  // ---------------------------------------------------------------------
  // PATCH and DELETE /itens/<doc_id>
  // ---------------------------------------------------------------------

  datatype Metodo = Patch | Delete

  /** The edit route's responses. */
  datatype Edicao = Editado | NaoEncontrado | ValorInvalido | SemMudancas | EdicaoFalhou

  function StatusEdicao(r: Edicao): int {
    match r
    case Editado => 200
    case NaoEncontrado => 404
    case EdicaoFalhou => 500
    case _ => 400
  }

  /** The fields a PATCH may write. */
  const Permitidos: set<string> := {"nome", "unidade", "valor_unitario", "codigo"}

  /**
   * app.py:415-430: the fields a PATCH writes: the allowed keys of the body,
   * the price parsed, and the update time. A true body that is not an object
   * raises on `.items()`.
   */
  function Atualizacao(body: Value, now: int): Result<Object, Edicao> {
    var b := if PyTruthy(body) then body else Obj(map[]);
    if !b.Obj? then Err(EdicaoFalhou)
    else
      var up := SoPermitidos(b.fields);
      if "valor_unitario" in up && PyToFloat(up["valor_unitario"]).None? then Err(ValorInvalido)
      else
        var up' := if "valor_unitario" in up then up["valor_unitario" := Num(PyToFloat(up["valor_unitario"]).value)] else up;
        if up' == map[] then Err(SemMudancas)
        else Ok(up'["atualizado_em" := Stamp(now)])
  }

  /** app.py:418: the body's allowed keys with their values, and nothing else. */
  function SoPermitidos(o: Object): (r: Object)
    ensures r.Keys == o.Keys * Permitidos
    ensures forall k | k in r :: r[k] == o[k]
  {
    map k | k in Permitidos && k in o :: o[k]
  }

  /**
   * An update is made of the allowed keys the body sends, the price parsed,
   * and the update time; a body without allowed keys, or with an unreadable
   * price, gives no update.
   */
  lemma AtualizacaoSpec(body: Value, now: int)
    ensures Atualizacao(body, now).Ok? ==>
      var up := Atualizacao(body, now).value;
      body.Obj? && up.Keys == (body.fields.Keys * Permitidos) + {"atualizado_em"}
      && up["atualizado_em"] == Stamp(now)
      && (forall k | k in Permitidos && k in body.fields && k != "valor_unitario" :: up[k] == body.fields[k])
      && ("valor_unitario" in body.fields ==>
            PyToFloat(body.fields["valor_unitario"]).Some?
            && up["valor_unitario"] == Num(PyToFloat(body.fields["valor_unitario"]).value))
    ensures body.Obj? && "valor_unitario" in body.fields && PyToFloat(body.fields["valor_unitario"]).None? ==>
      Atualizacao(body, now) == Err(ValorInvalido)
    ensures body.Obj? && body.fields.Keys * Permitidos == {} ==> Atualizacao(body, now) == Err(SemMudancas)
  {
    if body.Obj? && body.fields.Keys * Permitidos == {} {
      assert SoPermitidos(body.fields) == map[];
    }
  }

  /** app.py:403-434: the route's response and the items afterwards. */
  function Editar(ds: seq<Doc>, docId: string, metodo: Metodo, body: Value, now: int): (Edicao, seq<Doc>) {
    match PosicaoId(ds, docId)
    case None => (NaoEncontrado, ds)
    case Some(i) =>
      if metodo == Delete then (Editado, ds[..i] + ds[i + 1..])
      else match Atualizacao(body, now)
        case Err(e) => (e, ds)
        case Ok(up) => (Editado, ds[i := Doc(docId, ds[i].data + up)])
  }

  /** A missing document is a 404 for both methods, and nothing changes. */
  lemma EditarAusente(ds: seq<Doc>, docId: string, metodo: Metodo, body: Value, now: int)
    requires forall i | 0 <= i < |ds| :: ds[i].id != docId
    ensures Editar(ds, docId, metodo, body, now) == (NaoEncontrado, ds)
  {
  }

  /** DELETE removes the document with that id and no other: afterwards no document has it, when ids are distinct. */
  lemma EditarDelete(ds: seq<Doc>, docId: string, body: Value, now: int)
    requires IdsValidos(ds)
    ensures var (r, ds') := Editar(ds, docId, Delete, body, now);
            (r == Editado <==> exists i | 0 <= i < |ds| :: ds[i].id == docId)
            && (forall i | 0 <= i < |ds'| :: ds'[i].id != docId)
            && |ds'| == (if r == Editado then |ds| - 1 else |ds|)
            && forall d | d in ds && d.id != docId :: d in ds'
  {
    match PosicaoId(ds, docId)
    case None =>
    case Some(i) =>
      var ds' := ds[..i] + ds[i + 1..];
      forall j | 0 <= j < |ds'|
        ensures ds'[j].id != docId
      {
        if j < i {
          assert ds'[j] == ds[j];
        } else {
          assert ds'[j] == ds[j + 1];
        }
      }
      forall d | d in ds && d.id != docId
        ensures d in ds'
      {
        var j :| 0 <= j < |ds| && ds[j] == d;
        if j < i {
          assert ds'[j] == d;
        } else {
          assert ds'[j - 1] == d;
        }
      }
  }

  /**
   * A successful PATCH changes only the document with that id: the fields of
   * the update overwrite its own, and every other field and every other
   * document stays as it was.
   */
  lemma EditarPatch(ds: seq<Doc>, docId: string, body: Value, now: int)
    ensures var (r, ds') := Editar(ds, docId, Patch, body, now);
            r == Editado ==>
              var i := PosicaoId(ds, docId).value;
              var up := Atualizacao(body, now).value;
              |ds'| == |ds| && ds'[i].id == docId
              && (forall j | 0 <= j < |ds| && j != i :: ds'[j] == ds[j])
              && ds'[i].data.Keys == ds[i].data.Keys + up.Keys
              && (forall k | k in up :: ds'[i].data[k] == up[k])
              && (forall k | k in ds[i].data && k !in Permitidos && k != "atualizado_em" :: ds'[i].data[k] == ds[i].data[k])
  {
    AtualizacaoSpec(body, now);
  }

  /** A PATCH whose body sends no allowed key is refused and writes nothing. */
  lemma EditarPatchVazio(ds: seq<Doc>, docId: string, o: Object, now: int)
    requires PosicaoId(ds, docId).Some?
    requires forall k | k in Permitidos :: k !in o
    ensures Editar(ds, docId, Patch, Obj(o), now) == (SemMudancas, ds)
  {
    assert SoPermitidos(o) == map[];
  }

  // ---------------------------------------------------------------------
  // The loops of the routes
  // ---------------------------------------------------------------------

  lemma JuntarVazio(l: Lote)
    ensures Juntar([], l) == l
  {
    if l.Limpos? {
      assert [] + l.cs == l.cs;
    }
  }

  lemma JuntarPasso(clean: seq<Limpo>, c: Limpo, l: Lote)
    ensures Juntar(clean + [c], l) == Juntar(clean, Juntar([c], l))
  {
    if l.Limpos? {
      assert clean + [c] + l.cs == clean + ([c] + l.cs);
    }
  }

  /** app.py:183-216: the validation loop, which stops at the first item that fails. */
  method ValidarLote(its: seq<Value>) returns (r: Lote)
    ensures r == ValidarDesde(Validacoes(its), 0)
  {
    ghost var vs := Validacoes(its);
    var clean: seq<Limpo> := [];
    var k := 0;
    JuntarVazio(ValidarDesde(vs, 0));
    while k < |its|
      invariant 0 <= k <= |its|
      invariant Juntar(clean, ValidarDesde(vs, k)) == ValidarDesde(vs, 0)
    {
      var v := ValidarItem(k, its[k]);
      assert v == vs[k];
      if !v.Valido? {
        return Interrompido(v);
      }
      JuntarPasso(clean, v.c, ValidarDesde(vs, k + 1));
      clean := clean + [v.c];
      k := k + 1;
    }
    assert clean + [] == clean;
    return Limpos(clean);
  }

  /** app.py:222-245: the conflict loop, one store query per normalised item. */
  method ColetarConflitos(ds: seq<Doc>, cs: seq<Limpo>) returns (cf: seq<Limpo>)
    ensures cf == Conflitos(ds, cs)
  {
    cf := [];
    var k := 0;
    while k < |cs|
      invariant 0 <= k <= |cs|
      invariant cf == Conflitos(ds, cs[..k])
    {
      assert cs[..k + 1][..k] == cs[..k];
      if ExisteIgual(ds, cs[k]) {
        cf := cf + [cs[k]];
      }
      k := k + 1;
    }
    assert cs[..k] == cs;
  }

  lemma JuntarInsumosVazio(r: Result<seq<Insumo>, nat>)
    ensures JuntarInsumos([], r) == r
  {
    if r.Ok? {
      assert [] + r.value == r.value;
    }
  }

  lemma JuntarInsumosPasso(xs: seq<Insumo>, x: Insumo, r: Result<seq<Insumo>, nat>)
    ensures JuntarInsumos(xs + [x], r) == JuntarInsumos(xs, JuntarInsumos([x], r))
  {
    if r.Ok? {
      assert xs + [x] + r.value == xs + ([x] + r.value);
    }
  }

  /** The cost of one more component adds its subtotal. */
  lemma CustoTotalSnoc(xs: seq<Insumo>, x: Insumo)
    ensures CustoTotal(xs + [x]) == CustoTotal(xs) + Subtotal(x)
  {
    assert (xs + [x])[..|xs|] == xs;
  }

  /** app.py:346-361: the component loop, reading each component and adding its subtotal to the total. */
  method SomarInsumos(its: seq<Value>) returns (r: Result<seq<Insumo>, nat>, total: real)
    ensures r == LerInsumosDesde(LeiturasInsumos(its), 0)
    ensures r.Ok? ==> total == CustoTotal(r.value)
  {
    ghost var ls := LeiturasInsumos(its);
    var clean: seq<Insumo> := [];
    total := 0.0;
    var k := 0;
    JuntarInsumosVazio(LerInsumosDesde(ls, 0));
    while k < |its|
      invariant 0 <= k <= |its|
      invariant JuntarInsumos(clean, LerInsumosDesde(ls, k)) == LerInsumosDesde(ls, 0)
      invariant total == CustoTotal(clean)
    {
      var x := LerInsumo(its[k]);
      assert x == ls[k];
      if x.None? {
        return Err(k + 1), total;
      }
      var subtotal := Subtotal(x.value);
      JuntarInsumosPasso(clean, x.value, LerInsumosDesde(ls, k + 1));
      CustoTotalSnoc(clean, x.value);
      total := total + subtotal;
      clean := clean + [x.value];
      k := k + 1;
    }
    assert clean + [] == clean;
    return Ok(clean), total;
  }

  /** app.py:251-266: the batch loop, one new document per normalised item, each with a fresh id. */
  method GerarNovos(cs: seq<Limpo>, novoId: nat -> string, now: int) returns (novos: seq<Doc>)
    ensures novos == NovosItens(cs, novoId, now)
  {
    novos := [];
    var k := 0;
    while k < |cs|
      invariant 0 <= k <= |cs|
      invariant |novos| == k && forall j | 0 <= j < k :: novos[j] == NovoItem(cs[j], novoId(j), now)
    {
      novos := novos + [NovoItem(cs[k], novoId(k), now)];
      k := k + 1;
    }
  }

  /** Fresh ids handed out by the store: non-empty, pairwise distinct, and unused in `ds`. */
  ghost predicate IdsFrescos(novoId: nat -> string, ds: seq<Doc>) {
    (forall k: nat :: novoId(k) != [])
    && (forall k: nat, j: nat | k != j :: novoId(k) != novoId(j))
    && forall k: nat, i | 0 <= i < |ds| :: novoId(k) != ds[i].id
  }

  /** Documents with fresh ids put in front of a valid collection keep it valid. */
  lemma NovosValidos(novos: seq<Doc>, novoId: nat -> string, ds: seq<Doc>)
    requires IdsValidos(ds) && IdsFrescos(novoId, ds)
    requires forall k | 0 <= k < |novos| :: novos[k].id == novoId(k)
    ensures IdsValidos(novos + ds)
  {
    var all := novos + ds;
    forall i, j | 0 <= i < j < |all|
      ensures all[i].id != all[j].id
    {
      if j < |novos| {
      } else if i < |novos| {
        assert all[j] == ds[j - |novos|];
      } else {
        assert all[i] == ds[i - |novos|] && all[j] == ds[j - |novos|];
      }
    }
  }

  /** A document with a fresh id put in front of a valid collection keeps it valid. */
  lemma UmNovoValido(d: Doc, ds: seq<Doc>)
    requires IdsValidos(ds) && d.id != [] && forall i | 0 <= i < |ds| :: ds[i].id != d.id
    ensures IdsValidos([d] + ds)
  {
    var all := [d] + ds;
    assert forall i | 0 < i < |all| :: all[i] == ds[i - 1];
  }

  /** Removing one document keeps a collection valid. */
  lemma RemocaoValida(ds: seq<Doc>, i: nat)
    requires IdsValidos(ds) && i < |ds|
    ensures IdsValidos(ds[..i] + ds[i + 1..])
  {
    var r := ds[..i] + ds[i + 1..];
    assert forall j | 0 <= j < |r| :: r[j] == ds[if j < i then j else j + 1];
  }

  /** The server's store: the `itens` and `produtos` collections, newest first. */
  class Store {
    var itens: seq<Doc>
    var produtos: seq<Doc>

    predicate Valid()
      reads this
    {
      IdsValidos(itens) && IdsValidos(produtos)
    }

    constructor ()
      ensures Valid() && itens == [] && produtos == []
    {
      itens := [];
      produtos := [];
    }

    /** app.py:122-169: GET /listar-itens. */
    method ListarItens(q: Option<string>, limitArg: Option<string>, cursor: Option<string>) returns (r: Listagem)
      ensures r == Listar(itens, q, limitArg, cursor)
    {
      var qs := Strip(q.GetOr([]));
      var limit := LerLimite(limitArg);
      if limit.None? {
        return ListagemFalhou;
      }
      if qs != [] {
        var docs := itens[..Min(LimiteBusca, |itens|)];
        var items := Buscar(docs, Lower(qs), limit.value);
        if items.None? {
          return ListagemFalhou;
        }
        return Listagem(items.value, None);
      }
      r := Paginar(itens, cursor, limit.value);
    }

    /**
     * app.py:174-271: POST /criar-itens. Either the whole batch is written, in
     * front of the stored items, or nothing is.
     */
    method CriarItens(body: Value, novoId: nat -> string, now: int) returns (r: Criacao)
      requires Valid() && IdsFrescos(novoId, itens)
      modifies this
      ensures Valid()
      ensures r == CriarItensResposta(body, old(itens))
      ensures itens == (if r.Criados? then NovosItens(LerLote(body).value, novoId, now) + old(itens) else old(itens))
      ensures produtos == old(produtos)
    {
      var b := if PyTruthy(body) then body else Obj(map[]);
      if !b.Obj? {
        return CriacaoFalhou;
      }
      var lista := Get(b.fields, "itens");
      if !lista.Arr? || lista.items == [] {
        return Recusado(SemItens);
      }
      var lote := ValidarLote(lista.items);
      if lote.Interrompido? {
        if lote.v.Recusa? {
          return Recusado(lote.v.erro);
        }
        return CriacaoFalhou;
      }
      var clean := lote.cs;
      var cf := ColetarConflitos(itens, clean);
      if cf != [] {
        return Conflitantes(cf);
      }
      var novos := GerarNovos(clean, novoId, now);
      NovosValidos(novos, novoId, itens);
      itens := novos + itens;
      return Criados(|clean|);
    }

    /**
     * app.py:318-379: POST /criar-produto, with `novoId` the id the store
     * gives the new product. Nothing is written unless the product is created.
     */
    method CriarProduto(data: Value, novoId: string, now: int) returns (r: CriacaoProduto)
      requires Valid() && novoId != [] && forall i | 0 <= i < |produtos| :: produtos[i].id != novoId
      modifies this
      ensures Valid()
      ensures r == CriarProdutoResposta(data, old(produtos), novoId)
      ensures r.ProdutoCriado? ==>
        var xs := LerInsumosDesde(LeiturasInsumos(LerProduto(data).value.1), 0).value;
        produtos == [NovoProduto(LerProduto(data).value.0, xs, novoId, now)] + old(produtos)
      ensures !r.ProdutoCriado? ==> produtos == old(produtos)
      ensures itens == old(itens)
    {
      var pedido := LerProduto(data);
      if pedido.Err? {
        return pedido.error;
      }
      var (nome, its) := pedido.value;
      if NomeUsado(produtos, Lower(nome)) {
        return Duplicado;
      }
      var lidos, total := SomarInsumos(its);
      if lidos.Err? {
        return InsumoInvalido(lidos.error);
      }
      var xs := lidos.value;
      var gravados := seq(|xs|, k requires 0 <= k < |xs| => InsumoGravado(xs[k]));
      var doc := ProdutoGravado(nome, gravados, total, novoId, now);
      UmNovoValido(doc, produtos);
      produtos := [doc] + produtos;
      return ProdutoCriado(novoId);
    }

    /** app.py:403-434: PATCH and DELETE /itens/<doc_id>. */
    method EditarItem(docId: string, metodo: Metodo, body: Value, now: int) returns (r: Edicao)
      requires Valid()
      modifies this
      ensures Valid()
      ensures (r, itens) == Editar(old(itens), docId, metodo, body, now)
      ensures produtos == old(produtos)
    {
      var i := PosicaoId(itens, docId);
      if i.None? {
        return NaoEncontrado;
      }
      if metodo == Delete {
        RemocaoValida(itens, i.value);
        itens := itens[..i.value] + itens[i.value + 1..];
        return Editado;
      }
      var up := Atualizacao(body, now);
      if up.Err? {
        return up.error;
      }
      itens := itens[i.value := Doc(docId, itens[i.value].data + up.value)];
      return Editado;
    }
  }
}
