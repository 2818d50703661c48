/**
 * Items read from an NF-e XML file: the `NFe` element is looked up in the
 * parsed tree, its `infNFe` part gives the emission date (`ide`) and one
 * item per `det` that has a `prod`, each field taken from the `prod`
 * children with a default when the child is missing.
 *
 * The XML parser is not modelled: the input is the parsed element tree,
 * with the tags as ElementTree writes them (`{namespace}local` or `local`).
 * The clock reading `datetime.now().isoformat()` is the `agora` parameter.
 */
module NfeXml {
  import opened Wrappers
  import opened Text
  import opened Numbers
  import opened Json

  /** The NF-e namespace, the `nfe` prefix of app.py:30. */
  const Ns: string := "http://www.portalfiscal.inf.br/nfe"

  /** An element of the parsed tree: its tag, its text (None when it has none) and its children in document order. */
  datatype Element = Element(tag: string, text: Option<string>, children: seq<Element>)

  /** The tag that `nfe:local` stands for under the `nfe` prefix. */
  function Qual(local: string): string {
    "{" + Ns + "}" + local
  }

  // ----- Finding the NFe element -----

  /** `tag.split('}')[-1]`: the tag without its namespace. */
  function LocalName(tag: string): string {
    var partes := Split(tag, '}');
    partes[|partes| - 1]
  }

  /** The `{*}NFe` test: the tag is `NFe` in no namespace or ends with `}NFe`. */
  predicate TagNFe(tag: string) {
    EndsWith(tag, "}NFe") || tag == "NFe"
  }

  /** A split with a single part gives back the whole text. */
  lemma {:induction false} SplitUnica(s: string, c: char)
    ensures |Split(s, c)| == 1 ==> Split(s, c)[0] == s
  {
    if s != [] && s[0] != c {
      SplitUnica(s[1..], c);
      assert [s[0]] + s[1..] == s;
    }
  }

  /** The last part of a split is the longest suffix free of the separator. */
  lemma {:induction false} SplitLast(s: string, c: char)
    ensures var p := Split(s, c);
            var l := p[|p| - 1];
            |l| <= |s| && l == s[|s| - |l|..] && c !in l
            && (|l| < |s| ==> s[|s| - |l| - 1] == c)
            && (|p| > 1 ==> |l| < |s|)
  {
    if s != [] {
      SplitLast(s[1..], c);
      SplitUnica(s[1..], c);
      var rest := Split(s[1..], c);
      var l' := rest[|rest| - 1];
      assert s[1..][|s| - 1 - |l'|..] == s[|s| - |l'|..];
    }
  }

  /** A tag passing `{*}NFe` has local name `NFe`. */
  lemma TagNFeLocal(tag: string)
    requires TagNFe(tag)
    ensures LocalName(tag) == "NFe"
  {
    SplitLast(tag, '}');
    if tag != "NFe" {
      var n := |tag|;
      assert tag[n - 4] == '}' && tag[n - 3..] == "NFe";
    }
  }

  /** A tag whose local name is `NFe` passes `{*}NFe`. */
  lemma LocalTagNFe(tag: string)
    requires LocalName(tag) == "NFe"
    ensures TagNFe(tag)
  {
    var l := LocalName(tag);
    SplitLast(tag, '}');
    var n := |tag|;
    assert l == tag[n - 3..];
    if n > 3 {
      assert tag[n - 4] == '}';
      assert tag[n - 4..] == [tag[n - 4]] + l;
    } else {
      assert tag == l;
    }
  }

  /** The two tests `_find_nfe_root` uses agree: a tag passes `{*}NFe` exactly when its local name is `NFe`. */
  lemma TagNFeIff(tag: string)
    ensures TagNFe(tag) <==> LocalName(tag) == "NFe"
  {
    if TagNFe(tag) {
      TagNFeLocal(tag);
    }
    if LocalName(tag) == "NFe" {
      LocalTagNFe(tag);
    }
  }

  /** `e.iter()`: the element and all its descendants, in document order. */
  function Preorder(e: Element): (r: seq<Element>)
    ensures |r| >= 1 && r[0] == e
    decreases e, 1
  {
    [e] + PreorderAll(e.children)
  }

  /** The document-order walk of a list of sibling subtrees. */
  function PreorderAll(es: seq<Element>): seq<Element>
    decreases es, 0
  {
    if es == [] then [] else Preorder(es[0]) + PreorderAll(es[1..])
  }

  /** The position of the first element passing `{*}NFe`, or -1. */
  function PosicaoTagNFe(xs: seq<Element>): (i: int)
    ensures -1 <= i < |xs|
    ensures i >= 0 ==> TagNFe(xs[i].tag)
    ensures forall j | 0 <= j < |xs| && (i < 0 || j < i) :: !TagNFe(xs[j].tag)
  {
    if xs == [] then -1
    else if TagNFe(xs[0].tag) then 0
    else var k := PosicaoTagNFe(xs[1..]); if k < 0 then -1 else k + 1
  }

  /** The position of the first element whose local name is `NFe`, or -1. */
  function PosicaoLocalNFe(xs: seq<Element>): (i: int)
    ensures -1 <= i < |xs|
    ensures i >= 0 ==> LocalName(xs[i].tag) == "NFe"
    ensures forall j | 0 <= j < |xs| && (i < 0 || j < i) :: LocalName(xs[j].tag) != "NFe"
  {
    if xs == [] then -1
    else if LocalName(xs[0].tag) == "NFe" then 0
    else var k := PosicaoLocalNFe(xs[1..]); if k < 0 then -1 else k + 1
  }

  function ElementoEm(xs: seq<Element>, i: int): Option<Element> {
    if 0 <= i < |xs| then Some(xs[i]) else None
  }

  /**
   * app.py:41-61: `_find_nfe_root`: the root itself when its tag is `NFe`;
   * otherwise the first descendant found by `.//{*}NFe`; otherwise the first
   * element of `root.iter()` whose local name is `NFe`; otherwise None.
   */
  function FindNfeRoot(root: Element): Option<Element> {
    if EndsWith(root.tag, "}NFe") || root.tag == "NFe" then Some(root)
    else
      var desc := PreorderAll(root.children);
      var i := PosicaoTagNFe(desc);
      if i >= 0 then Some(desc[i])
      else ElementoEm(Preorder(root), PosicaoLocalNFe(Preorder(root)))
  }

  /** Both searches find the same position in any list of elements. */
  lemma {:induction false} PosicoesIguais(xs: seq<Element>)
    ensures PosicaoTagNFe(xs) == PosicaoLocalNFe(xs)
  {
    if xs != [] {
      TagNFeIff(xs[0].tag);
      PosicoesIguais(xs[1..]);
    }
  }

  /**
   * `_find_nfe_root` returns the first element of the document, in document
   * order, whose local name is `NFe`, and None when there is none; its third
   * step never finds an element the first two missed.
   */
  lemma FindNfeRootSpec(root: Element)
    ensures var xs := Preorder(root);
            var i := PosicaoLocalNFe(xs);
            FindNfeRoot(root) == ElementoEm(xs, i)
            && (FindNfeRoot(root).None? <==> forall j | 0 <= j < |xs| :: LocalName(xs[j].tag) != "NFe")
            && (FindNfeRoot(root).Some? ==> LocalName(FindNfeRoot(root).value.tag) == "NFe")
  {
    var xs := Preorder(root);
    var desc := PreorderAll(root.children);
    assert xs == [root] + desc;
    assert xs[1..] == desc;
    TagNFeIff(root.tag);
    PosicoesIguais(desc);
    if !TagNFe(root.tag) && PosicaoTagNFe(desc) >= 0 {
      assert xs[PosicaoTagNFe(desc) + 1] == desc[PosicaoTagNFe(desc)];
    }
  }

  // ----- Child lookups -----

  /** The first of `es` with tag `tag`. */
  function PrimeiroComTag(es: seq<Element>, tag: string): Option<Element> {
    if es == [] then None
    else if es[0].tag == tag then Some(es[0])
    else PrimeiroComTag(es[1..], tag)
  }

  /** `es[k]` is the first element of `es` with tag `tag`. */
  predicate PrimeiroComTagEm(es: seq<Element>, tag: string, k: int) {
    0 <= k < |es| && es[k].tag == tag && forall j | 0 <= j < k :: es[j].tag != tag
  }

  /** `find` gives the first element of the list with the tag, and nothing exactly when no element has it. */
  lemma {:induction false} PrimeiroComTagSpec(es: seq<Element>, tag: string)
    ensures var r := PrimeiroComTag(es, tag);
            (r.Some? ==> r.value in es && r.value.tag == tag)
            && (r.Some? ==> exists k | 0 <= k < |es| :: PrimeiroComTagEm(es, tag, k) && r.value == es[k])
            && (r.None? <==> forall k | 0 <= k < |es| :: es[k].tag != tag)
  {
    if es != [] {
      if es[0].tag == tag {
        assert PrimeiroComTagEm(es, tag, 0);
      } else {
        var rest := es[1..];
        PrimeiroComTagSpec(rest, tag);
        var r := PrimeiroComTag(rest, tag);
        if r.Some? {
          var k :| 0 <= k < |rest| && PrimeiroComTagEm(rest, tag, k) && r.value == rest[k];
          assert forall j | 1 <= j <= k :: es[j] == rest[j - 1];
          assert PrimeiroComTagEm(es, tag, k + 1);
        }
      }
    }
  }

  /** `e.find('nfe:local', NS)`: the first child in the NF-e namespace with that local name. */
  function Filho(e: Element, local: string): Option<Element> {
    PrimeiroComTag(e.children, Qual(local))
  }

  /** The elements of `es` with tag `tag`, in order. */
  function TodosComTag(es: seq<Element>, tag: string): (r: seq<Element>)
    ensures |r| <= |es|
    ensures forall k | 0 <= k < |r| :: r[k] in es && r[k].tag == tag
  {
    if es == [] then []
    else if es[0].tag == tag then [es[0]] + TodosComTag(es[1..], tag)
    else TodosComTag(es[1..], tag)
  }

  /** Every element of the list with the tag is kept, and nothing else. */
  lemma {:induction false} TodosComTagCompleto(es: seq<Element>, tag: string)
    ensures forall e :: e in TodosComTag(es, tag) <==> e in es && e.tag == tag
    decreases |es|
  {
    if es != [] {
      TodosComTagCompleto(es[1..], tag);
      assert es == [es[0]] + es[1..];
    }
  }

  /** The kept elements keep their order: those of two lists are those of each, one after the other. */
  lemma {:induction false} TodosComTagConcat(xs: seq<Element>, ys: seq<Element>, tag: string)
    ensures TodosComTag(xs + ys, tag) == TodosComTag(xs, tag) + TodosComTag(ys, tag)
    decreases |xs|
  {
    if xs == [] {
      assert xs + ys == ys;
    } else {
      assert (xs + ys)[0] == xs[0];
      assert (xs + ys)[1..] == xs[1..] + ys;
      TodosComTagConcat(xs[1..], ys, tag);
    }
  }

  /** `e.findall('nfe:local', NS)`. */
  function Filhos(e: Element, local: string): seq<Element> {
    TodosComTag(e.children, Qual(local))
  }

  /**
   * `e.findtext('nfe:local', default=d, namespaces=NS)`: the default when
   * there is no such child, its text when there is one, and "" when that
   * child has no text.
   */
  function TextoDe(e: Element, local: string, default: string): string {
    match Filho(e, local)
    case None => default
    case Some(c) => c.text.GetOr("")
  }

  // ----- Items -----

  /** The dict each `det` gives. `codigo` and `dataEmissao` are None where the source writes `x or None`. */
  datatype ItemXml = ItemXml(
    codigo: Option<string>,
    nome: string,
    unidade: string,
    quantidade: string,
    valorUnitario: real,
    dataEmissao: Option<string>,
    timestamp: string)

  /** Python `x or None` for text. */
  function OuNenhum(s: string): (r: Option<string>)
    ensures r.None? <==> s == []
    ensures r.Some? ==> r.value == s
  {
    if s == [] then None else Some(s)
  }

  /** app.py:78-84: `dhEmi`, or `dEmi` when that is empty, of the `ide` part; "" without `ide`. */
  function DataEmissaoXml(inf: Element): string {
    match Filho(inf, "ide")
    case None => ""
    case Some(ide) =>
      var dh := TextoDe(ide, "dhEmi", "");
      if dh != [] then dh else TextoDe(ide, "dEmi", "")
  }

  /** app.py:100-103: `float(valor_text.replace(',', '.'))`, and 0.0 where it raises. */
  function ValorUnitarioXml(texto: string): real {
    PyToFloat(Str(texto)).GetOr(0.0)
  }

  /** app.py:93-113: the item of one `prod`, with the header's emission date `data`. */
  function ItemDoProd(prod: Element, data: string, agora: string): ItemXml {
    ItemXml(
      OuNenhum(TextoDe(prod, "cProd", "")),
      TextoDe(prod, "xProd", "Sem nome"),
      TextoDe(prod, "uCom", "UN"),
      TextoDe(prod, "qCom", "UN"),
      ValorUnitarioXml(TextoDe(prod, "vUnCom", "0")),
      OuNenhum(data),
      agora)
  }

  /** The item builder of one document: its emission date and clock reading fixed. */
  function ItemCom(data: string, agora: string): Element -> ItemXml {
    p => ItemDoProd(p, data, agora)
  }

  /**
   * The defaults of each field: a missing `xProd` gives "Sem nome", a missing
   * `uCom` or `qCom` gives "UN", a missing or empty `cProd` gives no code, and
   * a missing `vUnCom` gives 0.0; a present field gives its text, and a
   * present `vUnCom` its text read as a number, 0.0 where that raises.
   */
  lemma ItemDoProdSpec(prod: Element, data: string, agora: string)
    ensures var it := ItemDoProd(prod, data, agora);
            (Filho(prod, "xProd").None? ==> it.nome == "Sem nome")
            && (Filho(prod, "xProd").Some? ==> it.nome == Filho(prod, "xProd").value.text.GetOr(""))
            && (Filho(prod, "uCom").None? ==> it.unidade == "UN")
            && (Filho(prod, "uCom").Some? ==> it.unidade == Filho(prod, "uCom").value.text.GetOr(""))
            && (Filho(prod, "qCom").None? ==> it.quantidade == "UN")
            && (Filho(prod, "qCom").Some? ==> it.quantidade == Filho(prod, "qCom").value.text.GetOr(""))
            && (it.codigo.None? <==> Filho(prod, "cProd").None? || Filho(prod, "cProd").value.text.GetOr("") == [])
            && (it.codigo.Some? ==> it.codigo.value == Filho(prod, "cProd").value.text.GetOr(""))
            && (Filho(prod, "vUnCom").None? ==> it.valorUnitario == 0.0)
            && (Filho(prod, "vUnCom").Some? ==>
                  var v := PyToFloat(Str(Filho(prod, "vUnCom").value.text.GetOr("")));
                  it.valorUnitario == if v.Some? then v.value else 0.0)
            && it.dataEmissao == OuNenhum(data) && it.timestamp == agora
  {
    if Filho(prod, "vUnCom").None? {
      ValorUnitarioZero();
    }
  }

  /** The default price text "0" reads as 0.0. */
  lemma ValorUnitarioZero()
    ensures ValorUnitarioXml("0") == 0.0
  {
    assert ReplaceChar("0", ',', '.') == "0";
    assert Strip("0") == "0" by { StripNoop("0"); }
    assert IndexOf("0", '.') == -1;
    assert DigitsValue("0") == 0;
  }

  /** A price written with a decimal comma is read with its decimal point, e.g. "12,5" as 12.5. */
  lemma ValorUnitarioVirgula(a: string, b: string)
    requires AllDigits(a) && AllDigits(b) && |a| + |b| > 0
    ensures ValorUnitarioXml(a + "," + b) == DecimalValue(a, b)
  {
    PyToFloatCommaDecimal(a, b);
  }

  /** The `prod` children of the first `n` `det` elements that have one, in order: `det` elements without one are skipped. */
  function Prods(dets: seq<Element>, n: nat): seq<Element>
    requires n <= |dets|
  {
    if n == 0 then []
    else match Filho(dets[n - 1], "prod")
      case None => Prods(dets, n - 1)
      case Some(p) => Prods(dets, n - 1) + [p]
  }

  /** The item of each `prod`, in order, built by `item`. */
  function ItensDosProds(ps: seq<Element>, item: Element -> ItemXml): seq<ItemXml> {
    seq(|ps|, k requires 0 <= k < |ps| => item(ps[k]))
  }

  /** One more `prod` adds its item at the end. */
  lemma ItensDosProdsSnoc(ps: seq<Element>, p: Element, item: Element -> ItemXml)
    ensures ItensDosProds(ps + [p], item) == ItensDosProds(ps, item) + [item(p)]
  {
    var l := ItensDosProds(ps + [p], item);
    var r := ItensDosProds(ps, item) + [item(p)];
    forall k | 0 <= k < |l|
      ensures l[k] == r[k]
    {
      if k < |ps| {
        assert (ps + [p])[k] == ps[k];
      }
    }
  }

  /** A `prod` is found for `det` number `j`, among the first `n`. */
  predicate ProdDeAlgumDet(p: Element, dets: seq<Element>, n: nat)
    requires n <= |dets|
  {
    exists j | 0 <= j < n :: Filho(dets[j], "prod") == Some(p)
  }

  /**
   * There are at most as many `prod` elements as `det` elements, each is the
   * `prod` of one of them, and there is one per `det` when every `det` has one.
   */
  lemma {:induction false} ProdsSpec(dets: seq<Element>, n: nat)
    requires n <= |dets|
    ensures |Prods(dets, n)| <= n
    ensures forall k | 0 <= k < |Prods(dets, n)| :: ProdDeAlgumDet(Prods(dets, n)[k], dets, n)
    ensures (forall j | 0 <= j < n :: Filho(dets[j], "prod").Some?) ==> |Prods(dets, n)| == n
  {
    if n > 0 {
      ProdsSpec(dets, n - 1);
      var ps := Prods(dets, n);
      var ant := Prods(dets, n - 1);
      forall k | 0 <= k < |ps|
        ensures ProdDeAlgumDet(ps[k], dets, n)
      {
        if k < |ant| {
          assert ps[k] == ant[k];
          var j :| 0 <= j < n - 1 && Filho(dets[j], "prod") == Some(ant[k]);
        } else {
          assert Filho(dets[n - 1], "prod") == Some(ps[k]);
        }
      }
    }
  }

  const ErroSemNFe: string := "Arquivo XML não é uma NFe válida (NFe não encontrada)"
  const ErroSemInfNFe: string := "Estrutura XML inválida - tag infNFe não encontrada"

  /** What `extrair_dados_xml` returns for a parsed document. */
  function DadosXml(root: Element, agora: string): Result<seq<ItemXml>, string> {
    match FindNfeRoot(root)
    case None => Err(ErroSemNFe)
    case Some(nfe) =>
      match Filho(nfe, "infNFe")
      case None => Err(ErroSemInfNFe)
      case Some(inf) =>
        var dets := Filhos(inf, "det");
        Ok(ItensDosProds(Prods(dets, |dets|), ItemCom(DataEmissaoXml(inf), agora)))
  }

  /** app.py:88-113: the loop body over one `det`: a `det` without `prod` is skipped, otherwise its item is appended. */
  method ProcessarDet(lista: seq<ItemXml>, det: Element, item: Element -> ItemXml) returns (r: seq<ItemXml>)
    ensures Filho(det, "prod").None? ==> r == lista
    ensures Filho(det, "prod").Some? ==> r == lista + [item(Filho(det, "prod").value)]
  {
    var prod := Filho(det, "prod");
    if prod.None? {
      return lista;
    }
    r := lista + [item(prod.value)];
  }

  /** app.py:87-114: the loop over the `det` elements, appending the item of each one that has a `prod`. */
  method ItensDosDets(dets: seq<Element>, item: Element -> ItemXml) returns (lista: seq<ItemXml>)
    ensures lista == ItensDosProds(Prods(dets, |dets|), item)
  {
    lista := [];
    var k := 0;
    while k < |dets|
      invariant 0 <= k <= |dets|
      invariant lista == ItensDosProds(Prods(dets, k), item)
    {
      lista := ProcessarDet(lista, dets[k], item);
      if Filho(dets[k], "prod").Some? {
        ItensDosProdsSnoc(Prods(dets, k), Filho(dets[k], "prod").value, item);
      }
      k := k + 1;
    }
  }

  /** app.py:64-119: `extrair_dados_xml` once the file is parsed. */
  method ExtrairDadosXml(root: Element, agora: string) returns (r: Result<seq<ItemXml>, string>)
    ensures r == DadosXml(root, agora)
  {
    var nfe := FindNfeRoot(root);
    if nfe.None? {
      return Err(ErroSemNFe);
    }
    var inf := Filho(nfe.value, "infNFe");
    if inf.None? {
      return Err(ErroSemInfNFe);
    }
    var data := DataEmissaoXml(inf.value);
    var itens := ItensDosDets(Filhos(inf.value, "det"), ItemCom(data, agora));
    return Ok(itens);
  }

  /**
   * The extraction fails only when the document has no `NFe` element or its
   * `NFe` has no `infNFe`, with the message of each case; otherwise it gives
   * at most one item per `det`, the k-th item being the item of the k-th
   * `prod` found, and every item carries the header's emission date.
   */
  lemma DadosXmlSpec(root: Element, agora: string)
    ensures var r := DadosXml(root, agora);
            (r.Err? <==> FindNfeRoot(root).None? || Filho(FindNfeRoot(root).value, "infNFe").None?)
            && (FindNfeRoot(root).None? ==> r == Err(ErroSemNFe))
            && (FindNfeRoot(root).Some? && r.Err? ==> r == Err(ErroSemInfNFe))
            && (r.Ok? ==>
                  var inf := Filho(FindNfeRoot(root).value, "infNFe").value;
                  var dets := Filhos(inf, "det");
                  var ps := Prods(dets, |dets|);
                  |r.value| == |ps| <= |dets|
                  && (forall k | 0 <= k < |r.value| :: r.value[k] == ItemDoProd(ps[k], DataEmissaoXml(inf), agora))
                  && (forall k | 0 <= k < |r.value| :: r.value[k].dataEmissao == OuNenhum(DataEmissaoXml(inf))))
  {
    var r := DadosXml(root, agora);
    if r.Ok? {
      var inf := Filho(FindNfeRoot(root).value, "infNFe").value;
      var dets := Filhos(inf, "det");
      ProdsSpec(dets, |dets|);
    }
  }
}
