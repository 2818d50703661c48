# NF-e ingestion and catalogue, modelled in Dafny

This project models the core of a small web application. The application reads Brazilian NF-e invoices and keeps a catalogue built from them. An invoice reaches it either as NF-e XML or as the text and tables of a DANFE PDF. Each line of the invoice becomes a flat item record: code, name, unit, quantity, unit price, issue date and supplier. The server keeps a catalogue of items and of products, where a product is a list of items ("insumos") with a cost. Two browser pages work on that catalogue:

- the product builder, which selects items, keeps a running total and pages through the item listing with a cursor stack;
- the raw-material listing, which filters the table by material name or by supplier.

The modules follow the program's structure:

| module | file | what it models |
|---|---|---|
| `Codes` | codes.dfy | six-digit code generation with bounded retries and the clock fallback; the code-repair decision |
| `Numbers` | numbers.dfy | Brazilian decimal text (`converter_para_float`) and the number readers of Python and JavaScript, on exact reals |
| `Json` | json.dfy | JSON values as the server and the pages see them, and Python/JavaScript truthiness and conversions on them |
| `PdfHeader` | pdf_header.dfy | the DANFE header: issue date, supplier name (bounded line scan, cleanup, fallback) and supplier CNPJ |
| `PdfItems` | pdf_items.dfy | item validation, table rows to items, the text fallback and the whole PDF extraction |
| `NfeXml` | nfe_xml.dfy | locating the `NFe` element and turning each `det/prod` into an item, over an abstract element tree |
| `Catalogue` | catalogue.dfy | listing (search with early stop, cursor pages with `limit+1`), all-or-nothing batch creation, product creation and PATCH/DELETE, over an in-memory store (`class Store`) |
| `ProductBuilder` | product_builder.dfy | the product builder page's state (`class Builder`): selection, total, pagination and save |
| `RawMaterialFilter` | raw_material_filter.dfy | the raw-material page (`class Pagina`): row capture and the filter |
| `Text`, `Wrappers` | text.dfy, wrappers.dfy | string helpers (strip, split, search, ASCII and Latin-1 letter case maps) and `Option`/`Result` |

Randomness, the clock and server responses are parameters. Random digits are a function `rand: nat -> Digit` read from a position `at`. The time is given as `now` or `agora`, and a page handler receives the response to its request as a parameter. The PDF library's output is an input: the page text, the tables as sequences of optional cells, and the match tuples of the product-line pattern.

## Model

| member | source | states |
|---|---|---|
| Codes.CodigoNumerico | pdf_processor.py:7-12 | a generated code is exactly six characters, all digits, and digit k is the k-th random draw |
| Codes.CodigoDoRelogio | pdf_processor.py:24 | the clock fallback is also exactly six digits |
| Codes.CodigoDoRelogioValue | pdf_processor.py:24 | the fallback's digits spell out the seconds modulo 1,000,000, zero-padded |
| Codes.PadDigitsValue | pdf_processor.py:24 | zero-padding to width w keeps the number modulo 10^w: the padded text reads back as that value |
| Codes.GerarCodigoUnico | pdf_processor.py:14-24 | at most 100 attempts; a code returned from the loop is the first attempt not in the set of codes in use; otherwise the clock fallback is returned unchecked; with an empty set the first draw is returned |
| Codes.PrecisaNovoCodigoIff | pdf_processor.py:259-268 | a code is replaced exactly when it has fewer than four characters after stripping or starts with "PDF_"; the blank test is subsumed |
| Codes.CodigoNumericoAceito | pdf_processor.py:259-268 | a generated code never needs replacing |
| Codes.RepararCodigo | pdf_processor.py:259-268 | a code that needs no replacing is kept and uses no draw; otherwise it becomes a fresh six-digit code; the result never needs replacing |
| Numbers.LimparNoop | pdf_processor.py:341 | text without "R", without spaces and without whitespace at its ends is not changed by the cleanup |
| Numbers.ReescreverComma | pdf_processor.py:350-352 | with a comma and no point, the comma becomes the decimal point |
| Numbers.ReescreverThousands | pdf_processor.py:343-348 | with points before the one comma, the points are dropped and the comma becomes the decimal point |
| Numbers.ConverterCommaDecimal | pdf_processor.py:350-352 | "12,5"-style text reads as its decimal value |
| Numbers.ConverterThousands | pdf_processor.py:343-348 | "1.234,56"-style text reads as its decimal value with the points ignored |
| Numbers.ConverterPointDecimal | pdf_processor.py:354-355 | "1234.56"-style text reads as its decimal value |
| Numbers.ConverterDigits | pdf_processor.py:354-355 | plain digits read as their integer value |
| Numbers.ConverterExampleThousands | pdf_processor.py:343-348 | "1.234,56" is 1234.56 |
| Numbers.ConverterExampleComma | pdf_processor.py:350-352 | "12,5" is 12.5 |
| Numbers.ConverterFallbacks | pdf_processor.py:336-358 | "", "None", "nan", "abc" and any other text without a digit give 0.0 |
| Numbers.JsParseFloatDigits | static/js/pages/produto.js:155 | JavaScript `parseFloat` reads a digit string as its integer value |
| Numbers.JsParseFloatDecimal | static/js/pages/produto.js:155 | JavaScript `parseFloat` reads `a.b` for digit strings as its decimal value |
| Json.PyStrippedOrEmpty | app.py:201-204 | `(x or '').strip()` fails exactly where `x or ''` has no text; otherwise it has no whitespace at its ends |
| Json.PyToFloatDecimal | app.py:189-193 | text `a.b` of digit strings reads as its decimal value |
| Json.PyToFloatCommaDecimal | app.py:189-193 | a decimal written with a comma is read with the comma as the point |
| Json.PyToFloatRejectsThousands | app.py:189-193 | unlike the PDF converter, any "1.234,56"-shaped text (digit groups, a point, a comma) is refused |
| Json.JsNumberOr0Decimal | static/js/pages/produto.js:351-352 | `Number(x \|\| 0)` reads `a.b` as its decimal value but gives NaN for `a,b`, which `parseNumero` reads |
| PdfHeader.SplitData | pdf_processor.py:74 | a date-shaped text splits on "/" into exactly three parts: day, month and year |
| PdfHeader.ParaIsoRoundTrip | pdf_processor.py:73-76 | dd/mm/yyyy becomes yyyy-mm-dd, and rewriting back gives the original text |
| PdfHeader.RotuloDataAt | pdf_processor.py:70 | the label pattern's date group, where it matches, has the dd/mm/yyyy shape |
| PdfHeader.RotuloDataFrom | pdf_processor.py:70-71 | the labelled date the search returns has the dd/mm/yyyy shape |
| PdfHeader.RotuloDataFromNone | pdf_processor.py:71-72 | the label search finds nothing exactly when the pattern matches nowhere |
| PdfHeader.RotuloDataFromLeftmost | pdf_processor.py:71-73 | the labelled date is the group of the leftmost match |
| PdfHeader.DatasFrom | pdf_processor.py:79-80 | every date `findall` reports has the dd/mm/yyyy shape |
| PdfHeader.DatasFromOccur | pdf_processor.py:80 | every date found occurs in the text |
| PdfHeader.DatasFromEmpty | pdf_processor.py:80 | no date is found exactly when no date shape occurs |
| PdfHeader.PrimeiraRecente | pdf_processor.py:81-86 | the fallback date is one of the dates found with a year of 2020 or later, and there is none only when no date found qualifies |
| PdfHeader.DataEmissaoSpec | pdf_processor.py:69-90 | the issue date is today or a yyyy-mm-dd date: the labelled one if the label occurs, else the first date from 2020 on, else today |
| PdfHeader.RotuloDataExemplo | pdf_processor.py:70 | the label with single spaces followed by a date matches, with that date as its group |
| PdfHeader.ParaIsoExemplo | pdf_processor.py:76 | "15/03/2023" becomes "2023-03-15" |
| PdfHeader.DataEmissaoExemplo | pdf_processor.py:69-76 | "DATA DA EMISSÃO 15/03/2023" gives "2023-03-15" |
| PdfHeader.Janela | pdf_processor.py:100-101 | the lines read after the marker line: at most four, the k-th being the line k+1 after the marker, stripped |
| PdfHeader.AteParada | pdf_processor.py:103-106 | the lines read before the first one holding a stop marker: a prefix free of markers, ending at a marker line or at the end |
| PdfHeader.AteParadaPrefix | pdf_processor.py:100-106 | a marker-free prefix ending at a marker line or at the end is exactly what the scan reads |
| PdfHeader.Mantidas | pdf_processor.py:108-109 | every kept line is non-empty and not made only of digits, whitespace and hyphens |
| PdfHeader.MantidasIn | pdf_processor.py:108-109 | every kept line is one of the lines read |
| PdfHeader.BlocoPasso | pdf_processor.py:108-113 | one more line: a kept line is appended after one space, or starts the name |
| PdfHeader.AcumularNome | pdf_processor.py:99-113 | the line-by-line accumulation spells out the kept lines joined with single spaces |
| PdfHeader.NomeDaJanelaJunta | pdf_processor.py:99-113 | the block reads as the kept lines before the first stop marker, joined with single spaces |
| PdfHeader.NomeDaJanelaPartes | pdf_processor.py:99-113 | the block name joins at most four stripped, kept, marker-free lines from the four after the marker line; it is empty exactly when none is kept |
| PdfHeader.NomeBrutoFromSpec | pdf_processor.py:96-127 | the scan gives the block of the first marker line whose block is non-empty, and nothing exactly when no marker line has one |
| PdfHeader.ColapsarEspacos | pdf_processor.py:117 | every whitespace character becomes a space, no two spaces stay side by side, and the text is empty only when it was empty |
| PdfHeader.RemoverCI | pdf_processor.py:119-120 | removing a literal never lengthens the text nor brings in a character it did not have |
| PdfHeader.CortarEm | pdf_processor.py:121-122 | the text cut at "RUA" or "BAURU" is a prefix of it, unchanged when the word does not occur |
| PdfHeader.SemNumeroFinal | pdf_processor.py:123 | removing the trailing number leaves a prefix of the text |
| PdfHeader.LimparNome | pdf_processor.py:117-125 | the cleaned name has no whitespace at its ends |
| PdfHeader.LimparNomeEstavel | pdf_processor.py:117-125 | an already clean name is left unchanged |
| PdfHeader.NomeFallback | pdf_processor.py:134-140 | the cleaned fallback capture has no whitespace at its ends |
| PdfHeader.NomePorLinhas | pdf_processor.py:94-127 | the name from the line scan has no whitespace at its ends |
| PdfHeader.NomeEmitente | pdf_processor.py:129-141 | the supplier name, from the scan or from the fallback capture, has no whitespace at its ends |
| PdfHeader.LerBloco | pdf_processor.py:99-113 | the inner loop builds exactly the block name of the marker line |
| PdfHeader.EscanearNome | pdf_processor.py:94-127 | the outer loop ends with exactly the scan's name |
| PdfHeader.CnpjsFrom | pdf_processor.py:151 | `findall` of the CNPJ shape: non-overlapping, left to right, each CNPJ-shaped |
| PdfHeader.CnpjsFromOccur | pdf_processor.py:158 | every CNPJ found occurs in the text |
| PdfHeader.CnpjsFromEmpty | pdf_processor.py:158-159 | no CNPJ is found exactly when the shape occurs nowhere |
| PdfHeader.SemCnpjIff | pdf_processor.py:157-159 | over the whole text, no CNPJ is found exactly when none occurs |
| PdfHeader.Fatia | pdf_processor.py:150 | a Python slice with non-negative bounds is a stretch of the text |
| PdfHeader.PrimeiroProximoSpec | pdf_processor.py:161-169 | a pick exists exactly when some CNPJ's first occurrence lies within 1000 characters of the name, and it is the first such CNPJ in the list |
| PdfHeader.CnpjsFromPrimeiro | pdf_processor.py:158-174 | the first CNPJ found is the leftmost CNPJ-shaped stretch of the text |
| PdfHeader.CnpjsDaFatiaSpec | pdf_processor.py:150-153 | a slice holds a CNPJ exactly when one lies wholly inside its bounds, and the first found is the leftmost such one |
| PdfHeader.CnpjDoTexto | pdf_processor.py:157-174 | the CNPJ picked from the whole text is the first one within 1000 characters of the name, else "" when none occurs, else the leftmost one; it is CNPJ-shaped and occurs in the text |
| PdfHeader.CnpjsDaJanela | pdf_processor.py:145-153 | a CNPJ found from the end of the name's first occurrence up to 500 characters past where the name starts is CNPJ-shaped and occurs in the text |
| PdfHeader.EscolherCnpjSpec | pdf_processor.py:143-174 | the chosen CNPJ is "" exactly when no CNPJ occurs; it is the leftmost CNPJ lying wholly between the end of the name and 500 characters past its start when there is one, and otherwise the whole-text choice |
| PdfHeader.EscolhaSpec | pdf_processor.py:145-174 | the same for any window result whose first CNPJ occurs in the text; an empty window falls back to the whole-text choice |
| PdfHeader.EscolherCnpjDoTexto | pdf_processor.py:157-174 | the fallback to the whole text gives "" exactly when no CNPJ occurs |
| PdfHeader.ExtrairEmitente | pdf_processor.py:58-189 | the header is the issue date, the scanned or fallback name, and the CNPJ chosen with that name |
| PdfItems.ValidarItemIff | pdf_processor.py:360-384 | an item is accepted exactly when its name is non-empty, is not "Sem nome" and holds no administrative word, and its price and quantity are positive |
| PdfItems.LerCelula | pdf_processor.py:233-237 | a cell reads as its stripped text, or the stripped default when it is empty |
| PdfItems.LerLinhaProduto | pdf_processor.py:233-245 | a row gives an item exactly when it has a description that is not "", "None" or "nan"; the item carries that description, the code as read and the header's supplier, CNPJ and date |
| PdfItems.SeteCelulasRecusadas | pdf_processor.py:235-237 | a seven-cell row's price reads as "0", so its item is refused by validation |
| PdfItems.CodigoFinal | pdf_processor.py:259-268 | the final code never needs replacing, and a code that needs none is kept |
| PdfItems.ProcessarLinhaProduto | pdf_processor.py:225-284 | the row's item with its code repaired from the first draw (the set of codes in use being empty), using six draws exactly when a code is generated |
| PdfItems.ProcessadaSpec | pdf_processor.py:270-280 | a processed row carries the header's supplier data and a code that never needs replacing |
| PdfItems.ManterValidoSpec | pdf_processor.py:216-217 | the candidate is appended exactly when it passes validation, and the items before it are kept |
| PdfItems.ManterSeValido | pdf_processor.py:327-328 | the append step of both extraction loops |
| PdfItems.ManterValidoDoEmitente | pdf_processor.py:216-217 | keeping a candidate of the header keeps every item valid and of the header |
| PdfItems.ManterValidoCodigos | pdf_processor.py:216-217 | keeping a candidate whose code needs no repair keeps every code acceptable |
| PdfItems.PassoSpec | pdf_processor.py:210-217 | one row keeps the items gathered so far, never goes back on the random draws, and keeps the table items' promises |
| PdfItems.PassoOrigem | pdf_processor.py:210-217 | the item a row adds is named after the row's stripped description cell |
| PdfItems.CelulasCheias | pdf_processor.py:205 | the header cells joined are the non-empty ones, in order |
| PdfItems.ExtrairLinhasSpec | pdf_processor.py:210-217 | reading rows appends at most one item per row, all valid and of the header |
| PdfItems.ExtrairTabelasSpec | pdf_processor.py:200-217 | reading tables keeps the same promises as reading rows |
| PdfItems.ExtrairLinhasOrigem | pdf_processor.py:210-217 | each table item comes from a row of at least seven cells whose stripped description is its name |
| PdfItems.ItemDoAchado | pdf_processor.py:306-325 | a product-line match gives an item named after the stripped description, with the header's data |
| PdfItems.ValidosDoEmitente | pdf_processor.py:327-328 | filtering candidates of the header leaves only valid items of the header |
| PdfItems.ValidosCodigos | pdf_processor.py:327-328 | filtering candidates whose codes need no repair leaves only such codes |
| PdfItems.ItensDoTextoDoEmitente | pdf_processor.py:305-330 | every text item passes validation and carries the header's data |
| PdfItems.ItensDoTextoCodigos | pdf_processor.py:303-316 | when the matches have the pattern's shapes, no text item has a code that would need replacing |
| PdfItems.ProcessarAchado | pdf_processor.py:305-328 | one match's item is kept exactly when it passes validation |
| PdfItems.ValidosDosAchadosSpec | pdf_processor.py:305-328 | filtering the matches one by one is filtering their items |
| PdfItems.ExtrairProdutosDoTexto | pdf_processor.py:286-330 | the text path's loop gives exactly the valid items of the matches, in order |
| PdfItems.ProcessarLinhaDaTabela | pdf_processor.py:210-217 | the loop body over one table row, advancing the draws as the row requires |
| PdfItems.ExtrairProdutosEspecifico | pdf_processor.py:191-223 | the table items when there are any, otherwise the text items |
| PdfItems.ItensEspecificosSpec | pdf_processor.py:191-223 | every item is valid and carries the header's data; when the matches have the pattern's shapes, no code needs repair |
| PdfItems.ExtrairDadosPdf | pdf_processor.py:26-56 | an error exactly when no item is found, otherwise the items extracted with the header |
| PdfItems.DadosPdfSpec | pdf_processor.py:43-51 | a successful extraction is non-empty, and all its items are valid and carry the header's supplier, CNPJ and date |
| NfeXml.TagNFeIff | app.py:47 | a tag is `NFe` or ends in `}NFe` exactly when its local name is `NFe` |
| NfeXml.Preorder | app.py:57 | the element and its descendants in document order, the element first |
| NfeXml.PosicoesIguais | app.py:51-59 | the search with the `{*}NFe` pattern and the local-name search find the same position |
| NfeXml.FindNfeRootSpec | app.py:41-61 | the result is the first element in document order whose local name is `NFe`, or None; the third step finds nothing the first two missed |
| NfeXml.PrimeiroComTagSpec | app.py:73 | `find` gives the first element of the list with the tag, and nothing exactly when none has it |
| NfeXml.TodosComTagCompleto | app.py:87 | `findall` keeps every element of the list with the tag, and nothing else |
| NfeXml.TodosComTagConcat | app.py:87 | `findall` keeps order: on two lists joined, it gives the results of each, in turn |
| NfeXml.OuNenhum | app.py:106 | `x or None`: None exactly for empty text |
| NfeXml.ItemDoProdSpec | app.py:93-113 | missing fields default to "Sem nome", "UN", "UN" and 0.0; an empty or missing `cProd` gives no code; present `xProd`, `uCom`, `qCom` and `cProd` give their text, and a present `vUnCom` its text read by `float`, or 0.0 where that raises |
| NfeXml.ValorUnitarioVirgula | app.py:100-103 | a price written with a comma is read with it as the decimal point |
| NfeXml.ItensDosProdsSnoc | app.py:105-113 | one more `prod` appends its item at the end |
| NfeXml.ProdsSpec | app.py:87-90 | at most one `prod` per `det`, each the `prod` of some `det`, and one per `det` when every `det` has one |
| NfeXml.ProcessarDet | app.py:88-113 | a `det` without `prod` is skipped; otherwise its item is appended |
| NfeXml.ItensDosDets | app.py:87-114 | the loop gives the items of the `prod` elements, in order |
| NfeXml.ExtrairDadosXml | app.py:64-119 | the method gives the extraction's outcome |
| NfeXml.DadosXmlSpec | app.py:69-114 | an error only when `NFe` or `infNFe` is missing, with each message; otherwise one item per `prod`, in order, each carrying the header's date |
| Catalogue.PosicaoId | app.py:150-153 | the position found is the first holding a document with that id; none means no document has it |
| Catalogue.PosicaoIdDistintos | app.py:150-153 | with distinct ids, the document at a position is found at that position |
| Catalogue.Exposto | app.py:159-163 | a listed document is its fields with its id under "id" |
| Catalogue.PyIntDigits | app.py:126 | a digit string reads as its value |
| Catalogue.PyIntNegative | app.py:126 | a minus sign and digits read as the negated value |
| Catalogue.LerLimiteInvalido | app.py:126 | a limit without a digit, such as "abc" or "", cannot be read |
| Catalogue.LerLimiteDecimal | app.py:126 | a limit with a decimal point, such as "2.5", cannot be read |
| Catalogue.ParadaSpec | app.py:136-144 | the search reads documents until it may stop, and stops at the first point where it may |
| Catalogue.CoincidentesSpec | app.py:136-142 | every search result is a kept document, and there are no more results than documents |
| Catalogue.CoincidentesNone | app.py:138 | the search fails exactly when some document's name is a true value that is not text |
| Catalogue.CoincidentesPrefixo | app.py:136-142 | a search that succeeds over all documents succeeds over each prefix, with no more results |
| Catalogue.BuscaLimite | app.py:143-144 | with a limit of at least one, the search never returns more than the limit |
| Catalogue.BuscaCompleta | app.py:136-144 | when every kept document fits under the limit, all of them are returned |
| Catalogue.BuscaOrigem | app.py:138-142 | every search result is a document, with its id, whose case-folded name or code contains the query |
| Catalogue.Buscar | app.py:131-145 | the search loop gives exactly the search's results |
| Catalogue.Inicio | app.py:150-153 | a page starts within the collection: after the cursor's document when it exists, otherwise at the newest |
| Catalogue.Lidos | app.py:148-155 | the store reads up to n documents from the start position |
| Catalogue.PyPrefixo | app.py:157 | `xs[:n]`: the first n elements, or all but the last -n for negative n |
| Catalogue.Expostos | app.py:159-163 | each document as listed, in order |
| Catalogue.ExporTodos | app.py:159-163 | the loop adds each document's id to its fields |
| Catalogue.PaginaSpec | app.py:148-166 | a page holds the next `limit` documents after the cursor, fewer at the end, and carries a cursor exactly when more remain; the cursor is the page's last id |
| Catalogue.PaginaSeguinte | app.py:150-165 | with distinct ids, following a page's cursor starts the next page right after it |
| Catalogue.PaginaNegativa | app.py:148-157 | a limit of -1 reads nothing; a lower limit fails |
| Catalogue.Paginar | app.py:147-166 | the paged loop gives exactly the page |
| Catalogue.ListarBusca | app.py:131-145 | search mode never returns a cursor, nor more than the limit when the limit is at least one |
| Catalogue.CodigoOpcional | app.py:205-206 | "" and null become no code; any other value is kept |
| Catalogue.ValidarItemSpec | app.py:197-218 | a normalised item keeps its position and has non-empty stripped name, unit and date and the price as read; an item that is not an object is refused with its position |
| Catalogue.Validacoes | app.py:197-209 | one outcome per item of the batch |
| Catalogue.ValidarDesdeSpec | app.py:196-218 | all items are normalised exactly when each is; otherwise the outcome is that of the first item that fails |
| Catalogue.ConflitosSpec | app.py:221-244 | an item is a conflict exactly when it is in the batch and some stored item equals it |
| Catalogue.NovosItens | app.py:255-265 | as many new documents as normalised items |
| Catalogue.CriarItensSpec | app.py:184-268 | a batch is written only when every item is valid and none equals a stored item, and then all of it is, with `created` the batch length; conflicts are exactly the batch items equal to stored ones |
| Catalogue.LoteRepetido | app.py:221-268 | two equal items in one batch are both written |
| Catalogue.ValidarLote | app.py:196-218 | the validation loop stops at the first failing item and otherwise normalises every item |
| Catalogue.ColetarConflitos | app.py:221-244 | the conflict loop collects exactly the conflicts |
| Catalogue.GerarNovos | app.py:255-266 | the write loop builds exactly the new documents |
| Catalogue.LerInsumoPadroes | app.py:346-348 | a component without price or quantity counts them as zero; a null price is refused |
| Catalogue.LeiturasInsumos | app.py:346-350 | one reading per component |
| Catalogue.LerInsumosDesdeSpec | app.py:346-350 | every component is read, in order, or the first unreadable one is reported by its number |
| Catalogue.CustoTotalConcat | app.py:351-352 | the cost of two lists of components is the sum of their costs |
| Catalogue.CustoTotalSnoc | app.py:351-352 | one more component adds its subtotal |
| Catalogue.CustoTotalCota | app.py:351-352 | with non-negative prices and quantities the cost is non-negative and at least each subtotal |
| Catalogue.SomarInsumos | app.py:344-361 | the component loop gives the components read and their total cost |
| Catalogue.DuplicadoAntesDosValores | app.py:332-341 | a taken name gives 409 whatever the components hold |
| Catalogue.CriarProdutoSpec | app.py:321-376 | a product is created only with a non-empty stripped name not yet used, case-insensitively, and readable components; an unreadable component is reported by its number |
| Catalogue.SoPermitidos | app.py:418-419 | the update keeps the body's allowed keys and their values, and nothing else |
| Catalogue.AtualizacaoSpec | app.py:417-430 | an update is the allowed keys sent, with the price parsed, plus the update time; no allowed key, or an unreadable price, gives no update |
| Catalogue.EditarAusente | app.py:407-409 | a missing document gives 404 for both methods and nothing changes |
| Catalogue.EditarDelete | app.py:411-413 | DELETE removes the document with that id and no other |
| Catalogue.EditarPatch | app.py:416-432 | a PATCH changes only that document: the update's fields overwrite its own, and every other field and document stays |
| Catalogue.EditarPatchVazio | app.py:427-428 | a PATCH without allowed keys is refused and writes nothing |
| Catalogue.NovosValidos | app.py:255-267 | documents with fresh ids put in front keep the ids distinct |
| Catalogue.RemocaoValida | app.py:411-412 | removing a document keeps the ids distinct |
| Catalogue.Store.ListarItens | app.py:122-169 | the listing's answer, with the store unchanged |
| Catalogue.Store.CriarItens | app.py:174-271 | the whole batch is written in front of the stored items, or nothing is; ids stay distinct |
| Catalogue.Store.CriarProduto | app.py:318-379 | the new product is written only when created; otherwise nothing changes |
| Catalogue.Store.EditarItem | app.py:403-434 | the store after PATCH or DELETE, with ids still distinct and products unchanged |
| ProductBuilder.NumeroInteiro | static/js/pages/produto.js:153-156 | a whole number typed as digits reads the same through `parseNumero` and through `toFloat` (lines 43-46) |
| ProductBuilder.ParseNumeroVirgula | static/js/pages/produto.js:155 | `parseNumero` reads `a,b` for digit strings as the decimal value of `a.b` |
| ProductBuilder.ParseNumeroPonto | static/js/pages/produto.js:153-156 | `parseNumero` reads `a.b` as its decimal value, and on that number gives the same as on its text |
| ProductBuilder.Posicao | static/js/pages/produto.js:30 | the position found holds the entry with that id |
| ProductBuilder.PosicaoUnica | static/js/pages/produto.js:30 | with unique ids, an entry is found at its own position |
| ProductBuilder.TotalConcat | static/js/pages/produto.js:157-166 | the total of two parts of a selection is the sum of their totals |
| ProductBuilder.AdicionadoSpec | static/js/pages/produto.js:112-124 | adding keeps ids unique and is idempotent; a new id gets quantity 1 and its listed price, and the total grows by exactly that price |
| ProductBuilder.ComQuantidadeSpec | static/js/pages/produto.js:213-236 | a quantity change touches only that entry's quantity, and the total changes by that entry's change of subtotal |
| ProductBuilder.RemovidoSpec | static/js/pages/produto.js:238-247 | removing deletes only that entry, the others stay in order, and the total drops by its subtotal |
| ProductBuilder.CoerentePreservada | static/js/pages/produto.js:293-341 | starting from the initial state (lines 36-38), every transition keeps the page number equal to the stack's height plus one |
| ProductBuilder.AnteriorSemPiso | static/js/pages/produto.js:322-330 | in a coherent state "prev" lowers the page number by exactly one |
| ProductBuilder.ProximaAnterior | static/js/pages/produto.js:322-341 | "next" then "prev" gives back the state before |
| ProductBuilder.BuscaBloqueiaBotoes | static/js/pages/produto.js:322-341 | in search mode both buttons change nothing |
| ProductBuilder.CursorDaResposta | static/js/pages/produto.js:261 | `data.next_cursor \|\| null` is null or a true value |
| ProductBuilder.LimiteQuatro | static/js/pages/produto.js:253 | the server reads the page's limit as four |
| ProductBuilder.LimiteDoze | static/js/pages/produto.js:275 | the server reads the search's limit as twelve |
| ProductBuilder.PaginaCarregada | static/js/pages/produto.js:250-262 | at most four listed items reach the cache, in order, and "next" gets a cursor exactly when documents remain after the page |
| ProductBuilder.BuscaCarregada | static/js/pages/produto.js:271-283 | a search fills the cache with at most twelve items and leaves "next" without a cursor |
| ProductBuilder.Enviados | static/js/pages/produto.js:349-361 | one component per selected entry, in order |
| ProductBuilder.SomaSubtotaisTotal | static/js/pages/produto.js:374 | the cost sent is the total shown |
| ProductBuilder.EnvioMostraTotal | static/js/pages/produto.js:344-375 | the request's cost is the total the page was showing |
| ProductBuilder.Builder.constructor | static/js/pages/produto.js:28-38 | the initial state: nothing selected, total 0, page 1, empty stack, paged mode |
| ProductBuilder.Builder.RecalcTotal | static/js/pages/produto.js:157-166 | the loop sets the total to the sum of the subtotals |
| ProductBuilder.Builder.Adicionar | static/js/pages/produto.js:112-124 | the selection after "add", with its total recomputed |
| ProductBuilder.Builder.AlterarQuantidade | static/js/pages/produto.js:213-236 | the selection after a quantity change, with its total recomputed |
| ProductBuilder.Builder.Remover | static/js/pages/produto.js:238-247 | the selection without that id, with its total recomputed |
| ProductBuilder.Builder.CarregarPaged | static/js/pages/produto.js:250-269 | a paged response fills the cache and the next cursor; a failure leaves the state |
| ProductBuilder.Builder.CarregarBusca | static/js/pages/produto.js:271-290 | a search response fills the cache; the next cursor becomes null |
| ProductBuilder.Builder.Buscar | static/js/pages/produto.js:293-312 | a non-blank term enters search mode, a blank one paged mode; both reset page 1, cursors and stack; a readable response replaces the listed items and sets the next cursor (null in search mode), any other leaves the items and a null cursor |
| ProductBuilder.Builder.Voltar | static/js/pages/produto.js:322-330 | "prev" is ignored in search mode or with an empty stack; otherwise it pops the cursor and lowers the page, and a readable response replaces the items and the next cursor |
| ProductBuilder.Builder.Avancar | static/js/pages/produto.js:332-341 | "next" is ignored in search mode or without a cursor; otherwise it pushes the cursor and raises the page, and a readable response replaces the items and the next cursor |
| ProductBuilder.Builder.DigitarNome | static/js/pages/produto.js:345 | the name typed is the only change |
| ProductBuilder.Builder.Salvar | static/js/pages/produto.js:344-408 | a blank name or empty selection sends nothing; otherwise each entry and the total are sent, and only a successful answer clears the selection and the name |
| RawMaterialFilter.LinhaCapturada | static/js/pages/listar_materia_prima.js:11-18 | a row with at least five cells gives its trimmed cells; a shorter row fails |
| RawMaterialFilter.Capturadas | static/js/pages/listar_materia_prima.js:10-19 | every row captured, in order, exactly when no row is short |
| RawMaterialFilter.Capturar | static/js/pages/listar_materia_prima.js:10-19 | the capture loop gives exactly the captured rows |
| RawMaterialFilter.FiltradosSpec | static/js/pages/listar_materia_prima.js:33-40 | a row is shown exactly when it is an original row that matches |
| RawMaterialFilter.FiltradosConcat | static/js/pages/listar_materia_prima.js:34-40 | filtering two parts gives the rows of each part, one after the other |
| RawMaterialFilter.FiltradosSubsequencia | static/js/pages/listar_materia_prima.js:34-40 | the shown rows are the original rows with some left out, never reordered |
| RawMaterialFilter.FiltradosVazio | static/js/pages/listar_materia_prima.js:33-39 | an empty search shows every row, under either filter |
| RawMaterialFilter.FiltradosIdempotente | static/js/pages/listar_materia_prima.js:34-40 | filtering again with the same filter and text changes nothing |
| RawMaterialFilter.OutroFiltroFornecedor | static/js/pages/listar_materia_prima.js:37-38 | any filter other than "materia" matches on the supplier |
| RawMaterialFilter.Pagina.constructor | static/js/pages/listar_materia_prima.js:6-19 | the page starts with the material filter, an empty search and every row shown |
| RawMaterialFilter.Pagina.FiltrarTabela | static/js/pages/listar_materia_prima.js:32-54 | the table shows exactly the original rows matching the current filter and text, so filters never accumulate |
| RawMaterialFilter.Pagina.Digitar | static/js/pages/listar_materia_prima.js:30 | typing changes only the search text and re-filters from the original rows |
| RawMaterialFilter.Pagina.MudarFiltro | static/js/pages/listar_materia_prima.js:22-27 | choosing a radio sets the filter and re-filters from the original rows |

## Left out

- PDF reading (pdfplumber), XML byte parsing and namespace resolution, Flask routing, templates, uploads, JSON encoding and `_json_safe`, Firebase set-up and Firestore are I/O; the model starts from their results and treats the store as an in-memory sequence of documents.
- Regular expression matching of the product lines and of the fallback supplier name is not modelled: the match tuples and the fallback capture are inputs. The date, CNPJ and cleanup patterns are modelled as string functions.
- Randomness and the clock are inputs. The timestamp is read once per extraction, where the source reads it once per item.
- Floating point is exact real arithmetic. The number grammar is an optional sign, digits and an optional fraction: exponents, `inf`, `nan`, underscores and Unicode digits are not read.
- Case maps (`upper`, `lower`, `casefold`, `toLowerCase`) cover ASCII and the Latin-1 letters À–Þ/à–þ only (ß, µ and ÿ are left unchanged), and whitespace is the ASCII set.
- The supplier CNPJ and the timestamp fields are carried as text; dates are not checked as calendar dates.
- In pdf_processor.py the lookup of existing codes uses a store handle that the file never defines. The resulting error is caught, so the set of codes in use is always empty there; the model passes the empty set.
- The XML path does no code repair, the listing does no collapse of repeated names or codes, and no invoice is refused as already imported: the source has none of these.
- `listar_produtos`, `/upload-xml`, `/upload-pdf` and the template routes are not modelled.
- The check for existing items and the batch write are not atomic against a live store; the model treats the store as unchanged in between.
- Fresh document ids come from a parameter that is assumed to give ids not yet used.
- Server timestamps are an abstract value; `atualizado_em` is the time passed in.
- The store's behaviour for a negative read count is taken to be an error; only `limit == -1` reads nothing.
- A stored `codigo` that is a true value but not text is searched by its text, which the model takes as "".
- The browser side leaves out the DOM, rendering and HTML escaping, toasts, the debounce timer and the interleaving of concurrent requests. Each handler receives the response to its own request as a parameter.
- `toFloat` in the product builder is modelled, but its result is not used when a quantity is typed, as in the source.
- On the raw-material page the search box is taken as empty when the rows are captured. A row with fewer than five cells stops the page's set-up, modelled as no page.
- ProductBuilder.ProximaAnterior: proved only when the current cursor is null or a true value. An empty-string cursor would come back from the stack as null.
- Catalogue.BuscaLimite: stated for a limit of at least one. With a limit of zero or below, the search stops after the first document whatever it holds, which the model defines but no lemma states.

- ProductBuilder.ParseNumeroPonto: JavaScript's number-to-text conversion is not modelled, so the agreement of `parseNumero` on a number and on its text is stated for numbers whose text is a plain decimal `a.b`, not for exponent forms.
