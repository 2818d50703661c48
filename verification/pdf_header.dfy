/**
 * The header of a DANFE (the printed NF-e) as the PDF extractor reads it
 * from the first page's text: the emission date, the supplier ("emitente")
 * name and the supplier's CNPJ (Brazilian company tax id).
 *
 * The regular expressions of `extrair_emitente_corrigido` are written out as
 * scanners over the text. `\d` and `\s` are read as ASCII digits and ASCII
 * whitespace. The text the fallback name pattern captures is an input.
 */
module PdfHeader {
  import opened Wrappers
  import opened Text
  import opened Numbers

  /** The `emitente_info` dict. */
  datatype Emitente = Emitente(nome: string, cnpj: string, dataEmissao: string)

  // ----- Emission date -----

  /** `dd/mm/yyyy`: the shape of `\d{2}/\d{2}/\d{4}`. */
  predicate IsDataBr(d: string) {
    |d| == 10 && d[2] == '/' && d[5] == '/'
    && AllDigits(d[0..2]) && AllDigits(d[3..5]) && AllDigits(d[6..10])
  }

  /** `yyyy-mm-dd`. */
  predicate IsDataIso(d: string) {
    |d| == 10 && d[4] == '-' && d[7] == '-'
    && AllDigits(d[0..4]) && AllDigits(d[5..7]) && AllDigits(d[8..10])
  }

  /** A date shape starts at position `p` of `s`. */
  predicate DataAt(s: string, p: int) {
    0 <= p && p + 10 <= |s| && IsDataBr(s[p..p + 10])
  }

  /** `f"{partes[2]}-{partes[1]}-{partes[0]}"` of `d.split('/')`, made only when there are three parts. */
  function ParaIso(d: string): Option<string> {
    var partes := Split(d, '/');
    if |partes| == 3 then Some(partes[2] + "-" + partes[1] + "-" + partes[0]) else None
  }

  /** The inverse rewrite, `yyyy-mm-dd` back to `dd/mm/yyyy`. */
  function ParaBr(iso: string): string
    requires |iso| == 10
  {
    iso[8..10] + "/" + iso[5..7] + "/" + iso[0..4]
  }

  /** A date-shaped text splits on '/' into day, month and year. */
  lemma SplitData(d: string)
    requires IsDataBr(d)
    ensures Split(d, '/') == [d[0..2], d[3..5], d[6..10]]
  {
    AllDigitsNoSpecialsSlash(d[0..2]);
    AllDigitsNoSpecialsSlash(d[3..5]);
    AllDigitsNoSpecialsSlash(d[6..10]);
    assert d == d[0..2] + ['/'] + (d[3..5] + ['/'] + d[6..10]);
    SplitCons(d[0..2], '/', d[3..5] + ['/'] + d[6..10]);
    SplitTwo(d[3..5], '/', d[6..10]);
  }

  lemma AllDigitsNoSpecialsSlash(a: string)
    requires AllDigits(a)
    ensures '/' !in a
  {
    forall i | 0 <= i < |a| ensures a[i] != '/' {
      assert IsDigit(a[i]);
    }
  }

  /**
   * A `dd/mm/yyyy` date is rewritten to `yyyy-mm-dd`, with the same day,
   * month and year: rewriting back gives the original text.
   */
  lemma ParaIsoRoundTrip(d: string)
    requires IsDataBr(d)
    ensures ParaIso(d).Some? && IsDataIso(ParaIso(d).value)
    ensures ParaBr(ParaIso(d).value) == d
  {
    SplitData(d);
    var iso := d[6..10] + "-" + d[3..5] + "-" + d[0..2];
    assert ParaIso(d) == Some(iso);
    assert iso[0..4] == d[6..10] && iso[5..7] == d[3..5] && iso[8..10] == d[0..2];
    assert ParaBr(iso) == d;
  }

  /** The end of the whitespace run that starts at `p`. */
  function SpacesEnd(s: string, p: nat): (q: nat)
    requires p <= |s|
    ensures p <= q <= |s| && (q == |s| || !IsSpace(s[q]))
    ensures forall k | p <= k < q :: IsSpace(s[k])
    decreases |s| - p
  {
    if p < |s| && IsSpace(s[p]) then SpacesEnd(s, p + 1) else p
  }

  /**
   * The group of `DATA\s+DA\s+EMISSÃO\s*(\d{2}/\d{2}/\d{4})` when the pattern
   * matches at `p`. Each whitespace run is followed by a letter or a digit,
   * so it can only be the longest run.
   */
  function RotuloDataAt(s: string, p: nat): (r: Option<string>)
    requires p <= |s|
    ensures r.Some? ==> IsDataBr(r.value)
  {
    if !OccursAt(s, "DATA", p) then None
    else
      var q1 := SpacesEnd(s, p + 4);
      if q1 == p + 4 || !OccursAt(s, "DA", q1) then None
      else
        var q2 := SpacesEnd(s, q1 + 2);
        if q2 == q1 + 2 || !OccursAt(s, "EMISSÃO", q2) then None
        else
          var q3 := SpacesEnd(s, q2 + 7);
          if DataAt(s, q3) then Some(s[q3..q3 + 10]) else None
  }

  /** `re.search` of the labelled date: the group of the leftmost match at or after `p`. */
  function RotuloDataFrom(s: string, p: nat): (r: Option<string>)
    requires p <= |s|
    ensures r.Some? ==> IsDataBr(r.value)
    decreases |s| - p
  {
    if RotuloDataAt(s, p).Some? then RotuloDataAt(s, p)
    else if p == |s| then None
    else RotuloDataFrom(s, p + 1)
  }

  /** No position from `a` up to `b` starts a match of the label pattern. */
  predicate SemRotulo(s: string, a: nat, b: nat) {
    forall q | a <= q < b && q <= |s| :: RotuloDataAt(s, q).None?
  }

  lemma SemRotuloCons(s: string, p: nat, q: nat)
    requires p <= |s| && RotuloDataAt(s, p).None? && SemRotulo(s, p + 1, q)
    ensures SemRotulo(s, p, q)
  {
  }

  /** The label search finds nothing exactly when the label pattern matches at no position from `p` on. */
  lemma {:induction false} RotuloDataFromNone(s: string, p: nat)
    requires p <= |s|
    ensures RotuloDataFrom(s, p).None? <==> SemRotulo(s, p, |s| + 1)
    decreases |s| - p
  {
    if RotuloDataAt(s, p).None? && p < |s| {
      RotuloDataFromNone(s, p + 1);
    }
  }

  /** The labelled date is the group of the leftmost position where the label pattern matches. */
  lemma {:induction false} RotuloDataFromLeftmost(s: string, p: nat)
    requires p <= |s|
    ensures RotuloDataFrom(s, p).Some? ==>
              exists q | p <= q <= |s| :: RotuloDataAt(s, q) == RotuloDataFrom(s, p) && SemRotulo(s, p, q)
    decreases |s| - p
  {
    if RotuloDataAt(s, p).Some? {
      assert SemRotulo(s, p, p);
    } else if p < |s| {
      RotuloDataFromLeftmost(s, p + 1);
      if RotuloDataFrom(s, p).Some? {
        var q :| p + 1 <= q <= |s| && RotuloDataAt(s, q) == RotuloDataFrom(s, p + 1) && SemRotulo(s, p + 1, q);
        SemRotuloCons(s, p, q);
      }
    }
  }

  /** `sub` occurs somewhere in `s`. */
  predicate Occurs(s: string, sub: string) {
    exists q | 0 <= q <= |s| :: OccursAt(s, sub, q)
  }

  /** `re.findall(r'(\d{2}/\d{2}/\d{4})', s[p..])`: non-overlapping date shapes, left to right. */
  function DatasFrom(s: string, p: nat): (ds: seq<string>)
    ensures forall k | 0 <= k < |ds| :: IsDataBr(ds[k])
    decreases |s| - p
  {
    if p + 10 > |s| then []
    else if DataAt(s, p) then [s[p..p + 10]] + DatasFrom(s, p + 10)
    else DatasFrom(s, p + 1)
  }

  /** Every date `findall` reports occurs in the text. */
  lemma {:induction false} DatasFromOccur(s: string, p: nat)
    ensures forall k | 0 <= k < |DatasFrom(s, p)| :: Occurs(s, DatasFrom(s, p)[k])
    decreases |s| - p
  {
    var ds := DatasFrom(s, p);
    if p + 10 <= |s| {
      if DataAt(s, p) {
        DatasFromOccur(s, p + 10);
        assert ds == [s[p..p + 10]] + DatasFrom(s, p + 10);
        assert OccursAt(s, ds[0], p);
      } else {
        DatasFromOccur(s, p + 1);
      }
    }
  }

  /** `findall` reports no date exactly when no date shape occurs from `p` on. */
  lemma {:induction false} DatasFromEmpty(s: string, p: nat)
    ensures DatasFrom(s, p) == [] <==> forall q | p <= q :: !DataAt(s, q)
    decreases |s| - p
  {
    if p + 10 <= |s| && !DataAt(s, p) {
      DatasFromEmpty(s, p + 1);
    }
  }

  /** pdf_processor.py:83: the split has three parts and its year, read as a number, is at least 2020. */
  predicate Recente(d: string) {
    var partes := Split(d, '/');
    |partes| == 3 && AllDigits(partes[2]) && DigitsValue(partes[2]) >= 2020
  }

  /** The first date of the list that passes `Recente`. */
  function PrimeiraRecente(ds: seq<string>): (r: Option<string>)
    ensures r.Some? ==> r.value in ds && Recente(r.value)
    ensures r.None? ==> forall k | 0 <= k < |ds| :: !Recente(ds[k])
  {
    if ds == [] then None
    else if Recente(ds[0]) then Some(ds[0])
    else PrimeiraRecente(ds[1..])
  }

  /**
   * pdf_processor.py:69-90: the labelled date if the label occurs, otherwise
   * the first date in the text from 2020 on, otherwise today; the chosen date
   * is rewritten to `yyyy-mm-dd`.
   */
  function DataEmissao(texto: string, hoje: string): string {
    match RotuloDataFrom(texto, 0)
    case Some(d) => ParaIso(d).GetOr(hoje)
    case None =>
      match PrimeiraRecente(DatasFrom(texto, 0))
      case Some(d) => ParaIso(d).GetOr(hoje)
      case None => hoje
  }

  /**
   * The emission date is always today's date or a `yyyy-mm-dd` date: the
   * labelled one when the label occurs, otherwise the first date of 2020 or
   * later, and today only when neither exists.
   */
  lemma DataEmissaoSpec(texto: string, hoje: string)
    ensures var r := DataEmissao(texto, hoje);
            (r == hoje || IsDataIso(r))
            && (RotuloDataFrom(texto, 0).Some? ==> |r| == 10 && ParaBr(r) == RotuloDataFrom(texto, 0).value)
            && (RotuloDataFrom(texto, 0).None? && PrimeiraRecente(DatasFrom(texto, 0)).Some? ==>
                  |r| == 10 && ParaBr(r) == PrimeiraRecente(DatasFrom(texto, 0)).value
                  && DigitsValue(r[0..4]) >= 2020)
            && (RotuloDataFrom(texto, 0).None? && PrimeiraRecente(DatasFrom(texto, 0)).None? ==> r == hoje)
  {
    match RotuloDataFrom(texto, 0)
    case Some(d) =>
      ParaIsoRoundTrip(d);
    case None =>
      match PrimeiraRecente(DatasFrom(texto, 0))
      case Some(d) =>
        ParaIsoRoundTrip(d);
        SplitData(d);
        assert ParaIso(d).value[0..4] == d[6..10];
      case None =>
  }

  /** The label pattern matches at `p` when its words and whitespace runs are found one after another. */
  lemma RotuloDataAtPassos(s: string, p: nat, q1: nat, q2: nat, q3: nat)
    requires p <= |s| && OccursAt(s, "DATA", p)
    requires p + 4 < q1 <= |s| && SpacesEnd(s, p + 4) == q1 && OccursAt(s, "DA", q1)
    requires q1 + 2 < q2 <= |s| && SpacesEnd(s, q1 + 2) == q2 && OccursAt(s, "EMISSÃO", q2)
    requires q2 + 7 <= q3 <= |s| && SpacesEnd(s, q2 + 7) == q3 && DataAt(s, q3)
    ensures RotuloDataAt(s, p) == Some(s[q3..q3 + 10])
    ensures RotuloDataFrom(s, p) == Some(s[q3..q3 + 10])
  {
  }

  /** A single whitespace character at `p` is a run that ends at `p + 1`. */
  lemma UmEspaco(s: string, p: nat)
    requires p + 1 < |s| && IsSpace(s[p]) && !IsSpace(s[p + 1])
    ensures SpacesEnd(s, p) == p + 1
  {
    assert SpacesEnd(s, p + 1) == p + 1;
  }

  /** "DATA DA EMISSÃO " followed by a date: where the three words of the label are. */
  lemma RotuloDataPalavras(d: string)
    ensures var s := "DATA DA EMISSÃO " + d;
            OccursAt(s, "DATA", 0) && OccursAt(s, "DA", 5) && OccursAt(s, "EMISSÃO", 8)
  {
    var r := "DATA DA EMISSÃO ";
    var texto := r + d;
    assert texto[0..4] == r[0..4] == "DATA";
    assert texto[5..7] == r[5..7] == "DA";
    assert texto[8..15] == r[8..15] == "EMISSÃO";
  }

  /** "DATA DA EMISSÃO " followed by a date: single spaces between the words, then the date. */
  lemma RotuloDataEspacos(d: string)
    requires IsDataBr(d)
    ensures var s := "DATA DA EMISSÃO " + d;
            SpacesEnd(s, 4) == 5 && SpacesEnd(s, 7) == 8 && SpacesEnd(s, 15) == 16
            && DataAt(s, 16) && s[16..26] == d
  {
    var r := "DATA DA EMISSÃO ";
    var texto := r + d;
    assert texto[4] == ' ' && texto[7] == ' ' && texto[15] == ' ';
    assert texto[5] == 'D' && texto[8] == 'E' && texto[16] == d[0];
    assert IsDigit(d[0]);
    UmEspaco(texto, 4);
    UmEspaco(texto, 7);
    UmEspaco(texto, 15);
    assert texto[16..26] == d;
  }

  /** The label pattern matches at the start of "DATA DA EMISSÃO " followed by any date, with that date as the group. */
  lemma RotuloDataExemplo(d: string)
    requires IsDataBr(d)
    ensures RotuloDataFrom("DATA DA EMISSÃO " + d, 0) == Some(d)
  {
    RotuloDataPalavras(d);
    RotuloDataEspacos(d);
    RotuloDataAtPassos("DATA DA EMISSÃO " + d, 0, 5, 8, 16);
  }

  /** "15/03/2023" is rewritten to "2023-03-15". */
  lemma ParaIsoExemplo(d: string)
    requires d == "15/03/2023"
    ensures ParaIso(d) == Some("2023-03-15")
  {
    assert d[0..2] == "15" && d[3..5] == "03" && d[6..10] == "2023";
    assert IsDataBr(d);
    SplitData(d);
    assert d[6..10] + "-" + d[3..5] + "-" + d[0..2] == "2023-03-15";
  }

  /** The labelled example: "DATA DA EMISSÃO 15/03/2023" gives "2023-03-15". */
  lemma DataEmissaoExemplo(texto: string, hoje: string)
    requires texto == "DATA DA EMISSÃO 15/03/2023"
    ensures DataEmissao(texto, hoje) == "2023-03-15"
  {
    var d := "15/03/2023";
    assert IsDataBr(d) by {
      assert d[0..2] == "15" && d[3..5] == "03" && d[6..10] == "2023";
    }
    assert texto == "DATA DA EMISSÃO " + d;
    RotuloDataExemplo(d);
    ParaIsoExemplo(d);
  }

  // ----- Supplier name -----

  const MarcadorEmitente: string := "IDENTIFICAÇÃO DO EMITENTE"
  const FraseDanfe: string := "Documento Auxiliar da Nota Fiscal Eletrônica"

  /** pdf_processor.py:104-105: the header markers that end the name block. */
  const Paradas: seq<string> := ["DANFE", "CHAVE DE ACESSO", "0 - ENTRADA", "1 - SAÍDA", "NATUREZA"]

  /** A line holding one of the header markers, compared in upper case. */
  predicate EhParada(linha: string) {
    ContainsAny(Upper(linha), Paradas)
  }

  /** A character of `[\d\s\-]`. */
  predicate NumeroOuSeparador(c: char) {
    IsDigit(c) || IsSpace(c) || c == '-'
  }

  /** `re.match(r'^[\d\s\-]+$', linha)`: a non-empty line of digits, whitespace and hyphens only. */
  predicate SoNumeros(linha: string) {
    linha != [] && NumeroOuSeparador(linha[0]) && (|linha| == 1 || SoNumeros(linha[1..]))
  }

  /** pdf_processor.py:109: a stripped line that becomes part of the name. */
  predicate Mantida(linha: string) {
    linha != [] && !SoNumeros(linha)
  }

  function MinNat(a: nat, b: nat): nat {
    if a < b then a else b
  }

  /** The stripped lines `i+1 .. min(i+5, len)-1` after marker line `i`: at most four. */
  function Janela(linhas: seq<string>, i: nat): (w: seq<string>)
    requires i < |linhas|
    ensures |w| <= 4 && |w| == MinNat(i + 5, |linhas|) - (i + 1)
    ensures forall k | 0 <= k < |w| :: w[k] == Strip(linhas[i + 1 + k])
  {
    var fim := MinNat(i + 5, |linhas|);
    seq(fim - (i + 1), k requires 0 <= k < fim - (i + 1) => Strip(linhas[i + 1 + k]))
  }

  /** The lines before the first one holding a header marker. */
  function AteParada(ls: seq<string>): (r: seq<string>)
    ensures |r| <= |ls| && r == ls[..|r|]
    ensures forall k | 0 <= k < |r| :: !EhParada(r[k])
    ensures |r| == |ls| || EhParada(ls[|r|])
  {
    if ls == [] || EhParada(ls[0]) then [] else [ls[0]] + AteParada(ls[1..])
  }

  /** A prefix free of markers that ends at a marker line (or at the end) is exactly what `AteParada` keeps. */
  lemma {:induction false} AteParadaPrefix(ls: seq<string>, m: nat)
    requires m <= |ls| && (m == |ls| || EhParada(ls[m]))
    requires forall k | 0 <= k < m :: !EhParada(ls[k])
    ensures AteParada(ls) == ls[..m]
  {
    if m > 0 {
      AteParadaPrefix(ls[1..], m - 1);
      assert [ls[0]] + ls[1..][..m - 1] == ls[..m];
    }
  }

  /** One step of `AteParada` from position `n`. */
  lemma AteParadaPasso(ls: seq<string>, n: nat)
    requires n < |ls|
    ensures AteParada(ls[n..]) == if EhParada(ls[n]) then [] else [ls[n]] + AteParada(ls[n + 1..])
  {
    assert ls[n..][0] == ls[n];
    assert ls[n..][1..] == ls[n + 1..];
  }

  /** The kept lines, in order. */
  function Mantidas(ls: seq<string>): (r: seq<string>)
    ensures |r| <= |ls|
    ensures forall k | 0 <= k < |r| :: Mantida(r[k])
  {
    if ls == [] then []
    else Mantidas(ls[..|ls| - 1]) + (if Mantida(ls[|ls| - 1]) then [ls[|ls| - 1]] else [])
  }

  /** Every kept line is one of the lines. */
  lemma {:induction false} MantidasIn(ls: seq<string>)
    ensures forall k | 0 <= k < |Mantidas(ls)| :: Mantidas(ls)[k] in ls
  {
    if ls != [] {
      var init := ls[..|ls| - 1];
      MantidasIn(init);
      forall k | 0 <= k < |Mantidas(ls)| ensures Mantidas(ls)[k] in ls {
        if k < |Mantidas(init)| {
          assert Mantidas(ls)[k] == Mantidas(init)[k];
          assert Mantidas(init)[k] in init;
        }
      }
    }
  }

  /** One more line read into the block: a kept line is appended after a space, or starts the name. */
  lemma BlocoPasso(lidas: seq<string>, atual: string)
    ensures var antes := JoinSpace(Mantidas(lidas));
            JoinSpace(Mantidas(lidas + [atual]))
            == if !Mantida(atual) then antes else if antes != [] then antes + " " + atual else atual
  {
    var ls := lidas + [atual];
    assert ls[..|ls| - 1] == lidas;
    var ps := Mantidas(lidas);
    JoinSpaceEmpty(ps);
    if Mantida(atual) {
      var qs := ps + [atual];
      assert Mantidas(ls) == qs;
      assert qs[..|qs| - 1] == ps;
    } else {
      assert Mantidas(ls) == ps + [];
      assert ps + [] == ps;
    }
  }

  /** The name read so far, `nome`, extended with the block lines from `w[n]` on. */
  function Acumular(nome: string, w: seq<string>, n: nat): string
    decreases |w| - n
  {
    if n >= |w| || EhParada(w[n]) then nome
    else
      Acumular(Acrescentar(nome, w[n]), w, n + 1)
  }

  /** pdf_processor.py:109-113: a kept line is appended to the name after a space, or starts it. */
  function Acrescentar(nome: string, atual: string): string {
    if atual != [] && !SoNumeros(atual) then
      if nome != [] then nome + " " + atual else atual
    else nome
  }

  /** The name read so far, `nome`, extended with lines `j .. fim-1` of the text, each stripped. */
  function LerLinhas(nome: string, linhas: seq<string>, j: nat, fim: nat): string
    requires fim <= |linhas|
    decreases fim - j
  {
    if j >= fim || EhParada(Strip(linhas[j])) then nome
    else
      LerLinhas(Acrescentar(nome, Strip(linhas[j])), linhas, j + 1, fim)
  }

  /** Reading the raw lines is reading the stripped window. */
  lemma {:induction false} LerLinhasJanela(nome: string, linhas: seq<string>, i: nat, n: nat)
    requires i < |linhas| && n <= |Janela(linhas, i)|
    ensures LerLinhas(nome, linhas, i + 1 + n, MinNat(i + 5, |linhas|)) == Acumular(nome, Janela(linhas, i), n)
    decreases |Janela(linhas, i)| - n
  {
    var w := Janela(linhas, i);
    if n < |w| {
      assert w[n] == Strip(linhas[i + 1 + n]);
      LerLinhasJanela(Acrescentar(nome, w[n]), linhas, i, n + 1);
    }
  }

  /** Reading the window line by line spells out the joined kept lines before the first marker. */
  lemma {:induction false} AcumularNome(w: seq<string>, n: nat)
    requires n <= |w| && forall k | 0 <= k < n :: !EhParada(w[k])
    ensures Acumular(JoinSpace(Mantidas(w[..n])), w, n) == JoinSpace(Mantidas(AteParada(w)))
    decreases |w| - n
  {
    if n == |w| || EhParada(w[n]) {
      AteParadaPrefix(w, n);
    } else {
      BlocoPasso(w[..n], w[n]);
      assert w[..n] + [w[n]] == w[..n + 1];
      AcumularNome(w, n + 1);
    }
  }


  /** The name spelled out by the block after marker line `i`, before cleanup. */
  function NomeDaJanela(linhas: seq<string>, i: nat): string
    requires i < |linhas|
  {
    LerLinhas([], linhas, i + 1, MinNat(i + 5, |linhas|))
  }

  /** Reading the block line by line joins, with single spaces, the kept lines before the first marker. */
  lemma NomeDaJanelaJunta(linhas: seq<string>, i: nat)
    requires i < |linhas|
    ensures NomeDaJanela(linhas, i) == JoinSpace(Mantidas(AteParada(Janela(linhas, i))))
  {
    var w := Janela(linhas, i);
    LerLinhasJanela([], linhas, i, 0);
    AcumularNome(w, 0);
    assert w[..0] == [];
  }

  /**
   * The block name joins, with single spaces, at most four of the lines
   * after the marker line, each stripped, non-empty, not made of digits,
   * whitespace and hyphens only, and read before the first header marker.
   */
  lemma NomeDaJanelaPartes(linhas: seq<string>, i: nat)
    requires i < |linhas|
    ensures var ps := Mantidas(AteParada(Janela(linhas, i)));
            NomeDaJanela(linhas, i) == JoinSpace(ps) && |ps| <= 4
            && (NomeDaJanela(linhas, i) == [] <==> ps == [])
            && forall k | 0 <= k < |ps| ::
                 Mantida(ps[k]) && !EhParada(ps[k]) && NoSpaceAtEnds(ps[k])
                 && exists j | i + 1 <= j < MinNat(i + 5, |linhas|) :: ps[k] == Strip(linhas[j])
  {
    var w := Janela(linhas, i);
    var a := AteParada(w);
    var ps := Mantidas(a);
    NomeDaJanelaJunta(linhas, i);
    JoinSpaceEmpty(ps);
    MantidasIn(a);
    forall k | 0 <= k < |ps|
      ensures !EhParada(ps[k]) && NoSpaceAtEnds(ps[k])
      ensures exists j | i + 1 <= j < MinNat(i + 5, |linhas|) :: ps[k] == Strip(linhas[j])
    {
      var m :| 0 <= m < |a| && a[m] == ps[k];
      assert a[m] == w[m];
      assert ps[k] == Strip(linhas[i + 1 + m]);
    }
  }

  predicate TemMarcador(linha: string) {
    Contains(Upper(linha), MarcadorEmitente)
  }

  /** pdf_processor.py:96-115: the first marker line from `i` on whose block spells out a non-empty name. */
  function NomeBrutoFrom(linhas: seq<string>, i: nat): (r: Option<string>)
    ensures r.Some? ==> r.value != []
    decreases |linhas| - i
  {
    if i >= |linhas| then None
    else if TemMarcador(linhas[i]) && NomeDaJanela(linhas, i) != [] then Some(NomeDaJanela(linhas, i))
    else NomeBrutoFrom(linhas, i + 1)
  }

  /** Line `j` is a marker line whose block spells out a non-empty name. */
  predicate BlocoComNome(linhas: seq<string>, j: nat)
    requires j < |linhas|
  {
    TemMarcador(linhas[j]) && NomeDaJanela(linhas, j) != []
  }

  /**
   * The scan from line `i` settles on the block of the first marker line at
   * or after `i` whose block is non-empty, and finds nothing exactly when
   * there is no such line.
   */
  lemma {:induction false} NomeBrutoFromSpec(linhas: seq<string>, i: nat)
    ensures var r := NomeBrutoFrom(linhas, i);
            (r.None? <==> forall j | i <= j < |linhas| :: !BlocoComNome(linhas, j))
            && (r.Some? ==> exists j | i <= j < |linhas| ::
                  BlocoComNome(linhas, j) && r.value == NomeDaJanela(linhas, j)
                  && forall j' | i <= j' < j :: !BlocoComNome(linhas, j'))
    decreases |linhas| - i
  {
    if i < |linhas| && !BlocoComNome(linhas, i) {
      NomeBrutoFromSpec(linhas, i + 1);
      var r := NomeBrutoFrom(linhas, i);
      assert r == NomeBrutoFrom(linhas, i + 1);
      if r.Some? {
        var j :| i + 1 <= j < |linhas| && BlocoComNome(linhas, j) && r.value == NomeDaJanela(linhas, j)
                 && forall j' | i + 1 <= j' < j :: !BlocoComNome(linhas, j');
        assert forall j' | i <= j' < j :: !BlocoComNome(linhas, j');
      }
    }
  }

  /** `re.sub(r'\s+', ' ', s)`: every whitespace run becomes one space. */
  function ColapsarEspacos(s: string): (r: string)
    ensures r == [] <==> s == []
    ensures r != [] ==> (r[0] == ' ' <==> IsSpace(s[0]))
    ensures forall k | 0 <= k < |r| :: IsSpace(r[k]) ==> r[k] == ' '
    ensures forall k | 0 <= k < |r| - 1 :: !(r[k] == ' ' && r[k + 1] == ' ')
    ensures forall c | c in r :: c in s || c == ' '
    decreases |s|
  {
    if s == [] then []
    else if IsSpace(s[0]) then
      var rest := StripLeft(s[1..]);
      StripLeftSpec(s[1..]);
      var r := [' '] + ColapsarEspacos(rest);
      assert forall c | c in rest :: c in s;
      r
    else [s[0]] + ColapsarEspacos(s[1..])
  }

  /** Text whose only whitespace is single spaces is left as it is by `ColapsarEspacos`. */
  predicate EspacosSimples(s: string) {
    (forall k | 0 <= k < |s| :: IsSpace(s[k]) ==> s[k] == ' ')
    && forall k | 0 <= k < |s| - 1 :: !(s[k] == ' ' && s[k + 1] == ' ')
  }

  lemma {:induction false} ColapsarEspacosNoop(s: string)
    requires EspacosSimples(s)
    ensures ColapsarEspacos(s) == s
    decreases |s|
  {
    if s != [] {
      if IsSpace(s[0]) {
        assert s[1..] == [] || !IsSpace(s[1]);
        assert StripLeft(s[1..]) == s[1..];
      }
      ColapsarEspacosNoop(s[1..]);
      assert [s[0]] + s[1..] == s;
    }
  }

  /** `p` matches at position `k` of `s` when both sides are lower-cased. */
  predicate OccursAtCI(s: string, p: string, k: int) {
    0 <= k && k + |p| <= |s| && Lower(s[k..k + |p|]) == Lower(p)
  }

  /** `re.sub(p, '', s, flags=re.IGNORECASE)` for a literal pattern: non-overlapping matches, left to right. */
  function RemoverCI(s: string, p: string): (r: string)
    requires p != []
    ensures |r| <= |s|
    ensures forall c | c in r :: c in s
    decreases |s|
  {
    if s == [] then []
    else if OccursAtCI(s, p, 0) then RemoverCI(s[|p|..], p)
    else
      var r := [s[0]] + RemoverCI(s[1..], p);
      assert forall c | c in s[1..] :: c in s;
      r
  }

  lemma {:induction false} RemoverCINoop(s: string, p: string)
    requires p != [] && forall k | 0 <= k < |s| :: !OccursAtCI(s, p, k)
    ensures RemoverCI(s, p) == s
    decreases |s|
  {
    if s != [] {
      assert !OccursAtCI(s, p, 0);
      forall k | 0 <= k < |s| - 1 ensures !OccursAtCI(s[1..], p, k) {
        assert !OccursAtCI(s, p, k + 1);
        if k + |p| <= |s| - 1 {
          assert s[1..][k..k + |p|] == s[k + 1..k + 1 + |p|];
        }
      }
      RemoverCINoop(s[1..], p);
      assert [s[0]] + s[1..] == s;
    }
  }

  /**
   * `re.sub(r'\s*W.*', '', s)` on text without line breaks: everything from
   * the whitespace run before the first `W` to the end goes.
   */
  function CortarEm(s: string, w: string): (r: string)
    requires '\n' !in s
    ensures |r| <= |s| && r == s[..|r|]
    ensures !Contains(s, w) ==> r == s
  {
    var q := Find(s, w);
    if q < 0 then s
    else
      StripRightSpec(s[..q]);
      var r := StripRight(s[..q]);
      assert s[..q][..|r|] == s[..|r|];
      r
  }

  predicate DigitoOuHifen(c: char) {
    IsDigit(c) || c == '-'
  }

  /** `s` without its trailing run of digits and hyphens. */
  function SemDigitosFinais(s: string): (r: string)
    ensures |r| <= |s| && r == s[..|r|]
    ensures r == [] || !DigitoOuHifen(r[|r| - 1])
    ensures forall k | |r| <= k < |s| :: DigitoOuHifen(s[k])
  {
    if s != [] && DigitoOuHifen(s[|s| - 1]) then SemDigitosFinais(s[..|s| - 1]) else s
  }

  /** `re.sub(r'\s*[\d\-]+$', '', s)`: a trailing run of digits and hyphens goes, with the whitespace before it. */
  function SemNumeroFinal(s: string): (r: string)
    ensures |r| <= |s| && r == s[..|r|]
  {
    if s != [] && DigitoOuHifen(s[|s| - 1]) then
      var p := SemDigitosFinais(s);
      StripRightSpec(p);
      var r := StripRight(p);
      assert p[..|r|] == s[..|r|];
      r
    else s
  }

  /** pdf_processor.py:117-125: the cleanup of a name read from the header lines. */
  function LimparNome(bruto: string): (r: string)
    ensures NoSpaceAtEnds(r)
  {
    var s1 := ColapsarEspacos(Strip(bruto));
    var s2 := RemoverCI(s1, FraseDanfe);
    var s3 := RemoverCI(s2, "DANFE");
    assert '\n' !in s3 by {
      assert '\n' !in s1;
    }
    var s4 := CortarEm(s3, "RUA");
    var s5 := CortarEm(s4, "BAURU");
    var s6 := SemNumeroFinal(s5);
    Strip(ColapsarEspacos(Strip(s6)))
  }

  /** A name that is already clean. */
  predicate NomeLimpo(n: string) {
    NoSpaceAtEnds(n) && EspacosSimples(n)
    && (forall k | 0 <= k < |n| :: !OccursAtCI(n, FraseDanfe, k) && !OccursAtCI(n, "DANFE", k))
    && !Contains(n, "RUA") && !Contains(n, "BAURU")
    && (n == [] || !DigitoOuHifen(n[|n| - 1]))
  }

  /** The cleanup leaves an already clean name unchanged. */
  lemma LimparNomeEstavel(n: string)
    requires NomeLimpo(n)
    ensures LimparNome(n) == n
  {
    StripNoop(n);
    ColapsarEspacosNoop(n);
    RemoverCINoop(n, FraseDanfe);
    RemoverCINoop(n, "DANFE");
    assert '\n' !in n by {
      forall k | 0 <= k < |n| ensures n[k] != '\n' {
        if n[k] == '\n' { assert IsSpace(n[k]); }
      }
    }
  }

  /** pdf_processor.py:134-140: the cleanup of the text the fallback name pattern captures. */
  function NomeFallback(grupo: string): (r: string)
    ensures NoSpaceAtEnds(r)
  {
    var s1 := ReplaceChar(Strip(grupo), '\n', ' ');
    var s2 := RemoverCI(s1, FraseDanfe);
    var s3 := RemoverCI(s2, "DANFE");
    Strip(ColapsarEspacos(s3))
  }

  /** The name the line scan settles on: the cleaned first block name, or "" when there is none. */
  function NomePorLinhas(texto: string): (r: string)
    ensures NoSpaceAtEnds(r)
  {
    match NomeBrutoFrom(Split(texto, '\n'), 0)
    case Some(b) => LimparNome(b)
    case None => ""
  }

  /** pdf_processor.py:130-141: the line-scan name, or the cleaned fallback capture when the scan gave "". */
  function NomeEmitente(texto: string, grupoFallback: Option<string>): (r: string)
    ensures NoSpaceAtEnds(r)
  {
    if NomePorLinhas(texto) != [] then NomePorLinhas(texto)
    else match grupoFallback
      case Some(g) => NomeFallback(g)
      case None => ""
  }

  /**
   * pdf_processor.py:99-113: the block after marker line `i`: up to four
   * lines, stopping at a header marker, skipping empty and number-only
   * lines, joined with single spaces.
   */
  method LerBloco(linhas: seq<string>, i: nat) returns (nomeEmitente: string)
    requires i < |linhas|
    ensures nomeEmitente == NomeDaJanela(linhas, i)
  {
    var fim := MinNat(i + 5, |linhas|);
    nomeEmitente := "";
    ghost var alvo := LerLinhas(nomeEmitente, linhas, i + 1, fim);
    var j := i + 1;
    while j < fim
      invariant i + 1 <= j <= fim
      invariant LerLinhas(nomeEmitente, linhas, j, fim) == alvo
    {
      var atual := Strip(linhas[j]);
      if EhParada(atual) {
        break;
      }
      nomeEmitente := Acrescentar(nomeEmitente, atual);
      j := j + 1;
    }
  }

  /**
   * pdf_processor.py:94-127: the line scan. Marker lines are visited in
   * order; the first whose block spells out a name ends the scan with that
   * name cleaned (possibly to ""). Without such a line the result is "".
   */
  method EscanearNome(texto: string) returns (nome: string)
    ensures nome == NomePorLinhas(texto)
  {
    var linhas := Split(texto, '\n');
    var i := 0;
    while i < |linhas|
      invariant 0 <= i <= |linhas|
      invariant NomeBrutoFrom(linhas, 0) == NomeBrutoFrom(linhas, i)
    {
      if TemMarcador(linhas[i]) {
        var bloco := LerBloco(linhas, i);
        if bloco != [] {
          nome := LimparNome(bloco);
          return;
        }
      }
      i := i + 1;
    }
    nome := "";
  }

  // ----- Supplier CNPJ -----

  /** `\d{2}\.\d{3}\.\d{3}/\d{4}-\d{2}`: the CNPJ shape, 18 characters. */
  predicate IsCnpj(c: string) {
    |c| == 18 && c[2] == '.' && c[6] == '.' && c[10] == '/' && c[15] == '-'
    && AllDigits(c[0..2]) && AllDigits(c[3..6]) && AllDigits(c[7..10])
    && AllDigits(c[11..15]) && AllDigits(c[16..18])
  }

  predicate CnpjAt(s: string, p: int) {
    0 <= p && p + 18 <= |s| && IsCnpj(s[p..p + 18])
  }

  /** The CNPJ shape occurs nowhere in `s`. */
  predicate SemCnpj(s: string) {
    forall q | 0 <= q <= |s| :: !CnpjAt(s, q)
  }

  /** `re.findall` of the CNPJ pattern from `p` on: non-overlapping matches, left to right. */
  function CnpjsFrom(s: string, p: nat): (cs: seq<string>)
    ensures forall k | 0 <= k < |cs| :: IsCnpj(cs[k])
    decreases |s| - p
  {
    if p + 18 > |s| then []
    else if CnpjAt(s, p) then [s[p..p + 18]] + CnpjsFrom(s, p + 18)
    else CnpjsFrom(s, p + 1)
  }

  /** Every CNPJ `findall` reports occurs in the text. */
  lemma {:induction false} CnpjsFromOccur(s: string, p: nat)
    ensures forall k | 0 <= k < |CnpjsFrom(s, p)| :: Occurs(s, CnpjsFrom(s, p)[k])
    decreases |s| - p
  {
    var cs := CnpjsFrom(s, p);
    if p + 18 <= |s| {
      if CnpjAt(s, p) {
        CnpjsFromOccur(s, p + 18);
        assert cs == [s[p..p + 18]] + CnpjsFrom(s, p + 18);
        assert OccursAt(s, cs[0], p);
      } else {
        CnpjsFromOccur(s, p + 1);
      }
    }
  }

  /** `findall` reports no CNPJ exactly when the shape occurs nowhere from `p` on. */
  lemma {:induction false} CnpjsFromEmpty(s: string, p: nat)
    ensures CnpjsFrom(s, p) == [] <==> forall q | p <= q :: !CnpjAt(s, q)
    decreases |s| - p
  {
    if p + 18 <= |s| && !CnpjAt(s, p) {
      CnpjsFromEmpty(s, p + 1);
    }
  }

  /** `findall` over the whole text reports no CNPJ exactly when the shape occurs nowhere. */
  lemma SemCnpjIff(s: string)
    ensures CnpjsFrom(s, 0) == [] <==> SemCnpj(s)
  {
    CnpjsFromEmpty(s, 0);
  }

  /** Where Python slicing `s[a:b]` starts. */
  function FatiaInicio(s: string, a: nat): nat {
    MinNat(a, |s|)
  }

  /** Python slicing `s[a:b]` with non-negative bounds: a stretch of `s` from `FatiaInicio(s, a)`. */
  function Fatia(s: string, a: nat, b: nat): (r: string)
    ensures FatiaInicio(s, a) + |r| <= |s| && r == s[FatiaInicio(s, a)..FatiaInicio(s, a) + |r|]
  {
    var lo, hi := MinNat(a, |s|), MinNat(b, |s|);
    if lo <= hi then s[lo..hi] else s[lo..lo]
  }

  function Abs(x: int): nat {
    if x < 0 then -x else x
  }

  /** pdf_processor.py:161-169: the first CNPJ whose first occurrence lies less than 1000 characters from the name's. */
  function PrimeiroProximo(texto: string, posEmitente: int, cs: seq<string>): (r: Option<string>)
    ensures r.Some? ==> r.value in cs
  {
    if cs == [] then None
    else if posEmitente != -1 && Abs(Find(texto, cs[0]) - posEmitente) < 1000 then Some(cs[0])
    else PrimeiroProximo(texto, posEmitente, cs[1..])
  }

  /** pdf_processor.py:163-165: the CNPJ `c` first occurs less than 1000 characters from the name's first occurrence. */
  predicate Perto(texto: string, pos: int, c: string) {
    pos != -1 && Abs(Find(texto, c) - pos) < 1000
  }

  /** `cs[k]` is the first of `cs` close to the name. */
  predicate PrimeiroPerto(texto: string, pos: int, cs: seq<string>, k: int) {
    0 <= k < |cs| && Perto(texto, pos, cs[k]) && forall j | 0 <= j < k :: !Perto(texto, pos, cs[j])
  }

  /**
   * The proximity loop finds a CNPJ exactly when one of `cs` is close to the
   * name, and then it is the first such one in the order of `cs`.
   */
  lemma {:induction false} PrimeiroProximoSpec(texto: string, pos: int, cs: seq<string>)
    ensures var r := PrimeiroProximo(texto, pos, cs);
            (r.Some? <==> exists k | 0 <= k < |cs| :: Perto(texto, pos, cs[k]))
            && (r.Some? ==> exists k :: PrimeiroPerto(texto, pos, cs, k) && r.value == cs[k])
    decreases |cs|
  {
    if cs != [] {
      if Perto(texto, pos, cs[0]) {
        assert PrimeiroPerto(texto, pos, cs, 0);
      } else {
        var rest := cs[1..];
        PrimeiroProximoSpec(texto, pos, rest);
        var r := PrimeiroProximo(texto, pos, cs);
        assert r == PrimeiroProximo(texto, pos, rest);
        assert forall k | 0 <= k < |rest| :: rest[k] == cs[k + 1];
        if r.Some? {
          var k :| PrimeiroPerto(texto, pos, rest, k) && r.value == rest[k];
          assert PrimeiroPerto(texto, pos, cs, k + 1);
        } else {
          forall k | 0 <= k < |cs| ensures !Perto(texto, pos, cs[k]) {
            if k > 0 {
              assert cs[k] == rest[k - 1];
            }
          }
        }
      }
    }
  }

  /** A CNPJ starts at `q`, inside the stretch from `a` to `b` of the text. */
  predicate CnpjEntre(texto: string, a: int, b: int, q: int) {
    a <= q && q + 18 <= b && CnpjAt(texto, q)
  }

  /** Some CNPJ lies in the stretch from `a` to `b`. */
  predicate TemCnpjEntre(texto: string, a: int, b: int) {
    exists q | 0 <= q <= |texto| :: CnpjEntre(texto, a, b, q)
  }

  /** `q` is the leftmost CNPJ position in the stretch from `a` to `b`. */
  predicate PrimeiroCnpjEntre(texto: string, a: int, b: int, q: int) {
    CnpjEntre(texto, a, b, q) && forall q' | a <= q' < q :: !CnpjEntre(texto, a, b, q')
  }

  /** `r` is the leftmost CNPJ of the stretch from `a` to `b`. */
  predicate EhPrimeiroCnpjEntre(texto: string, a: int, b: int, r: string) {
    exists q | 0 <= q <= |texto| - 18 :: PrimeiroCnpjEntre(texto, a, b, q) && r == texto[q..q + 18]
  }

  /** The first CNPJ `findall` reports from `p` on is the one at the leftmost CNPJ position. */
  lemma {:induction false} CnpjsFromPrimeiro(s: string, p: nat)
    ensures CnpjsFrom(s, p) != [] ==> EhPrimeiroCnpjEntre(s, p, |s|, CnpjsFrom(s, p)[0])
    decreases |s| - p
  {
    var cs := CnpjsFrom(s, p);
    if p + 18 <= |s| {
      if CnpjAt(s, p) {
        assert PrimeiroCnpjEntre(s, p, |s|, p);
      } else {
        CnpjsFromPrimeiro(s, p + 1);
        assert cs == CnpjsFrom(s, p + 1);
        if cs != [] {
          var q :| 0 <= q <= |s| - 18 && PrimeiroCnpjEntre(s, p + 1, |s|, q) && cs[0] == s[q..q + 18];
          forall q' | p <= q' < q ensures !CnpjEntre(s, p, |s|, q') {
            if q' > p {
              assert !CnpjEntre(s, p + 1, |s|, q');
            }
          }
          assert PrimeiroCnpjEntre(s, p, |s|, q);
        }
      }
    }
  }

  /** The window's `findall`: CNPJs in the slice are CNPJs of the text between its bounds, found leftmost first. */
  lemma CnpjsDaFatiaSpec(texto: string, a: nat, b: nat)
    ensures var cs := CnpjsFrom(Fatia(texto, a, b), 0);
            (cs != [] <==> TemCnpjEntre(texto, a, b))
            && (cs != [] ==> EhPrimeiroCnpjEntre(texto, a, b, cs[0]))
  {
    if a <= MinNat(b, |texto|) {
      assert Fatia(texto, a, b) == texto[a..MinNat(b, |texto|)];
      JanelaTemCnpj(texto, a, b);
      JanelaPrimeiroCnpj(texto, a, b);
    } else {
      assert Fatia(texto, a, b) == [];
      forall q | 0 <= q <= |texto| ensures !CnpjEntre(texto, a, b, q) {
      }
    }
  }

  /** A slice inside the text holds a CNPJ exactly when the text holds one between the slice's bounds. */
  lemma JanelaTemCnpj(texto: string, a: nat, b: nat)
    requires a <= MinNat(b, |texto|)
    ensures CnpjsFrom(texto[a..MinNat(b, |texto|)], 0) != [] <==> TemCnpjEntre(texto, a, b)
  {
    var w := texto[a..MinNat(b, |texto|)];
    CnpjsFromEmpty(w, 0);
    FatiaCnpjAt(texto, a, b);
    if TemCnpjEntre(texto, a, b) {
      var q :| 0 <= q <= |texto| && CnpjEntre(texto, a, b, q);
      assert CnpjAt(w, q - a);
    }
    if CnpjsFrom(w, 0) != [] {
      var j :| 0 <= j && CnpjAt(w, j);
      assert CnpjEntre(texto, a, b, a + j);
    }
  }

  /** The first CNPJ of a slice inside the text is the text's leftmost CNPJ between the slice's bounds. */
  lemma JanelaPrimeiroCnpj(texto: string, a: nat, b: nat)
    requires a <= MinNat(b, |texto|)
    ensures var cs := CnpjsFrom(texto[a..MinNat(b, |texto|)], 0);
            cs != [] ==> EhPrimeiroCnpjEntre(texto, a, b, cs[0])
  {
    var w := texto[a..MinNat(b, |texto|)];
    var cs := CnpjsFrom(w, 0);
    if cs != [] {
      CnpjsFromPrimeiro(w, 0);
      FatiaCnpjAt(texto, a, b);
      var j :| 0 <= j <= |w| - 18 && PrimeiroCnpjEntre(w, 0, |w|, j) && cs[0] == w[j..j + 18];
      assert CnpjAt(w, j);
      assert w[j..j + 18] == texto[a + j..a + j + 18];
      forall q' | a <= q' < a + j ensures !CnpjEntre(texto, a, b, q') {
        assert !CnpjEntre(w, 0, |w|, q' - a);
      }
      assert PrimeiroCnpjEntre(texto, a, b, a + j);
    }
  }

  /** Inside the text, a CNPJ position of the slice `texto[a:b]` is one of the text between `a` and `b`. */
  lemma FatiaCnpjAt(texto: string, a: nat, b: nat)
    requires a <= MinNat(b, |texto|)
    ensures var w := texto[a..MinNat(b, |texto|)];
            forall j | 0 <= j :: CnpjAt(w, j) <==> CnpjEntre(texto, a, b, a + j)
  {
    var w := texto[a..MinNat(b, |texto|)];
    forall j | 0 <= j
      ensures CnpjAt(w, j) <==> CnpjEntre(texto, a, b, a + j)
    {
      if j + 18 <= |w| {
        assert w[j..j + 18] == texto[a + j..a + j + 18];
      }
    }
  }

  /** Text occurring in a slice occurs in the whole text. */
  lemma OccursInFatia(s: string, a: nat, b: nat, c: string)
    requires Occurs(Fatia(s, a, b), c)
    ensures Occurs(s, c)
  {
    var f := Fatia(s, a, b);
    var lo := FatiaInicio(s, a);
    var q :| 0 <= q <= |f| && OccursAt(f, c, q);
    assert f[q..q + |c|] == c;
    forall k | 0 <= k < |c| ensures s[lo + q + k] == c[k] {
      assert c[k] == f[q + k];
    }
    assert s[lo + q..lo + q + |c|] == c;
    assert OccursAt(s, c, lo + q);
  }

  /** A CNPJ-shaped text occurring in `s` is a CNPJ position of `s`. */
  lemma OccursCnpj(s: string, c: string)
    requires IsCnpj(c) && Occurs(s, c)
    ensures !SemCnpj(s)
  {
    var q :| 0 <= q <= |s| && OccursAt(s, c, q);
    assert CnpjAt(s, q);
  }

  /** A CNPJ found in a stretch of the text has the CNPJ shape and occurs in the text. */
  lemma CnpjDaFatia(texto: string, a: nat, b: nat)
    ensures var cs := CnpjsFrom(Fatia(texto, a, b), 0);
            cs != [] ==> IsCnpj(cs[0]) && Occurs(texto, cs[0])
  {
    var cs := CnpjsFrom(Fatia(texto, a, b), 0);
    if cs != [] {
      CnpjsFromOccur(Fatia(texto, a, b), 0);
      OccursInFatia(texto, a, b, cs[0]);
    }
  }

  /**
   * pdf_processor.py:157-172, the rule over the whole text: `r` is the first
   * CNPJ `findall` reports within 1000 characters of the name; without one,
   * the leftmost CNPJ of the text; without any, "".
   */
  predicate RegraDoTexto(texto: string, pos: int, r: string) {
    var todos := CnpjsFrom(texto, 0);
    if exists k | 0 <= k < |todos| :: Perto(texto, pos, todos[k]) then
      exists k | 0 <= k < |todos| :: PrimeiroPerto(texto, pos, todos, k) && r == todos[k]
    else if SemCnpj(texto) then r == []
    else EhPrimeiroCnpjEntre(texto, 0, |texto|, r)
  }

  /** The CNPJ picked from the whole text is one that `findall` found: the first near the name, or else the leftmost. */
  lemma CnpjDoTexto(texto: string, pos: int)
    ensures var todos := CnpjsFrom(texto, 0);
            todos != [] ==> var c := PrimeiroProximo(texto, pos, todos).GetOr(todos[0]);
                            IsCnpj(c) && Occurs(texto, c) && RegraDoTexto(texto, pos, c)
  {
    var todos := CnpjsFrom(texto, 0);
    if todos != [] {
      CnpjsFromOccur(texto, 0);
      SemCnpjIff(texto);
      CnpjsFromPrimeiro(texto, 0);
      PrimeiroProximoSpec(texto, pos, todos);
      var p := PrimeiroProximo(texto, pos, todos);
      if p.Some? {
        var k :| PrimeiroPerto(texto, pos, todos, k) && p.value == todos[k];
      }
    }
  }

  /** pdf_processor.py:145-147, 163: where the name first occurs, or -1 when it is empty or absent. */
  function PosicaoNome(texto: string, nome: string): int {
    if nome != [] then Find(texto, nome) else -1
  }

  /** pdf_processor.py:148-153: the CNPJs from the end of the name's first occurrence up to 500 characters past its start; none when it is absent. */
  function CnpjsDaJanela(texto: string, nome: string): (cs: seq<string>)
    ensures cs != [] ==> IsCnpj(cs[0]) && Occurs(texto, cs[0])
  {
    var pos := PosicaoNome(texto, nome);
    if pos >= 0 then
      CnpjDaFatia(texto, pos + |nome|, pos + 500);
      CnpjsFrom(Fatia(texto, pos + |nome|, pos + 500), 0)
    else []
  }

  /** pdf_processor.py:152-172: the first CNPJ of the window; otherwise the first CNPJ of the text close to the name; otherwise the first CNPJ of the text; otherwise "". */
  function EscolhaCnpj(texto: string, porJanela: seq<string>, pos: int): string {
    if porJanela != [] then porJanela[0]
    else
      var todos := CnpjsFrom(texto, 0);
      if todos == [] then ""
      else PrimeiroProximo(texto, pos, todos).GetOr(todos[0])
  }

  /** pdf_processor.py:145-174: the CNPJ chosen for the issuer named `nome`. */
  function EscolherCnpj(texto: string, nome: string): string {
    EscolhaCnpj(texto, CnpjsDaJanela(texto, nome), PosicaoNome(texto, nome))
  }

  /**
   * The chosen CNPJ is "" exactly when no CNPJ occurs in the text; otherwise
   * it has the CNPJ shape and occurs in the text.
   */
  lemma EscolherCnpjSpec(texto: string, nome: string)
    ensures var r := EscolherCnpj(texto, nome);
            (r == [] <==> SemCnpj(texto))
            && (r != [] ==> IsCnpj(r) && Occurs(texto, r))
    ensures var pos := PosicaoNome(texto, nome);
            var r := EscolherCnpj(texto, nome);
            (pos >= 0 && TemCnpjEntre(texto, pos + |nome|, pos + 500) ==> EhPrimeiroCnpjEntre(texto, pos + |nome|, pos + 500, r))
            && (!(pos >= 0 && TemCnpjEntre(texto, pos + |nome|, pos + 500)) ==> RegraDoTexto(texto, pos, r))
  {
    var pos := PosicaoNome(texto, nome);
    var janela := CnpjsDaJanela(texto, nome);
    JanelaDoNome(texto, nome);
    assert EscolherCnpj(texto, nome) == EscolhaCnpj(texto, janela, pos);
    EscolhaSpec(texto, janela, pos);
  }

  /** The window after the name holds a CNPJ exactly when the text does between its bounds, and then the first is the leftmost one. */
  lemma JanelaDoNome(texto: string, nome: string)
    ensures var pos := PosicaoNome(texto, nome);
            var janela := CnpjsDaJanela(texto, nome);
            (janela != [] <==> pos >= 0 && TemCnpjEntre(texto, pos + |nome|, pos + 500))
            && (janela != [] ==> EhPrimeiroCnpjEntre(texto, pos + |nome|, pos + 500, janela[0]))
  {
    var pos := PosicaoNome(texto, nome);
    var janela := CnpjsDaJanela(texto, nome);
    if pos >= 0 {
      var a, b := pos + |nome|, pos + 500;
      assert janela == CnpjsFrom(Fatia(texto, a, b), 0);
      CnpjsDaFatiaSpec(texto, a, b);
    } else {
      assert janela == [];
    }
  }

  /** The choice, given CNPJs of the window that occur in the text: the window's first, or else the rule over the whole text. */
  lemma EscolhaSpec(texto: string, porJanela: seq<string>, pos: int)
    requires porJanela != [] ==> IsCnpj(porJanela[0]) && Occurs(texto, porJanela[0])
    ensures var r := EscolhaCnpj(texto, porJanela, pos);
            (r == [] <==> SemCnpj(texto)) && (r != [] ==> IsCnpj(r) && Occurs(texto, r))
    ensures porJanela == [] ==> RegraDoTexto(texto, pos, EscolhaCnpj(texto, porJanela, pos))
  {
    var r := EscolhaCnpj(texto, porJanela, pos);
    if porJanela != [] {
      OccursCnpj(texto, r);
    } else {
      EscolherCnpjDoTexto(texto, pos, r);
    }
  }

  /** The fallback of `EscolherCnpj` to the CNPJs of the whole text. */
  lemma EscolherCnpjDoTexto(texto: string, pos: int, r: string)
    requires var todos := CnpjsFrom(texto, 0);
             r == if todos == [] then "" else PrimeiroProximo(texto, pos, todos).GetOr(todos[0])
    ensures (r == [] <==> SemCnpj(texto)) && (r != [] ==> IsCnpj(r) && Occurs(texto, r))
    ensures RegraDoTexto(texto, pos, r)
  {
    SemCnpjIff(texto);
    CnpjDoTexto(texto, pos);
    if r != [] {
      OccursCnpj(texto, r);
    }
  }

  /**
   * `extrair_emitente_corrigido`: the date, then the name (line scan, then
   * the fallback capture), then the CNPJ chosen with that name.
   */
  method ExtrairEmitente(texto: string, hoje: string, grupoFallback: Option<string>) returns (e: Emitente)
    ensures e.dataEmissao == DataEmissao(texto, hoje)
    ensures e.nome == NomeEmitente(texto, grupoFallback)
    ensures e.cnpj == EscolherCnpj(texto, e.nome)
  {
    var data := DataEmissao(texto, hoje);
    var nome := EscanearNome(texto);
    if nome == [] {
      match grupoFallback
      case Some(g) => nome := NomeFallback(g);
      case None =>
    }
    e := Emitente(nome, EscolherCnpj(texto, nome), data);
  }
}
