# ABC teaching-offer tools: a verified Dafny model

This project models the logic core of the ABC-dataset tools. These tools
collect public teaching-job offers ("ofertas") from the APD search service of
the Buenos Aires school system and match them against a catalog of known
teaching positions ("cargos"). The model covers:

- **`cargos.py`** — the `Cargo` record and its case-insensitive predicates;
  `from_dict`/`to_dict`; and the `CargoRepository` class. The class has fields
  `cargos` and `filepath`, the format-detecting `load_from_file`, `load`,
  `save`, first-match lookups, filter queries and sorted listings.
- **`scraper_apd.py`** — the request parameters and `fq` filter string of
  `get_ofertas`. The HTTP call is an abstract page source. Also the cursor loop
  of `get_all_ofertas` and the document written by `save_to_json`.
- **`validar_ofertas_cargos.py`** — the per-offer match loop: exact area
  first, code fallback second. Also the counters of the report and the
  de-duplicated suggestion list.
- **`enriquecer_ofertas.py`** — the copy of each offer with a `cargo_info`
  sub-object, the match count and the merged metadata.
- **`scraper_por_cargos.py`** — the per-cargo extraction driver (a dict keyed
  by code, later duplicates overwrite, flattening, counts) and its modalidad
  pre-filter.
- **`parse_cargos_html.py`** — row-to-cargo conversion over tables of cell
  strings, the "code in parentheses" split, table routing, per-modalidad
  counts, and the two output files.
- **`utils/data_loader.py`** — the dashboard's `filtrar_ofertas`, the shape
  detection and `tipo` tagging of `load_cargos`, and `format_oferta_detalle`.

Modelling conventions:

- The file system is a map from path to already-parsed JSON (`Json.Files`). A
  missing path is `FileNotFoundError`.
- Every Python exception that ends a script is a `Failure` of
  `Json.Error`: `KeyError`, `TypeError`, `AttributeError`, `ValueError`,
  `ZeroDivisionError`.
- JSON numbers are exact `real`s.
- A pandas data frame is the list of its records. Its columns are the keys
  of any record (`ValidarOfertas.Columnas`), and a cell missing from a record
  is `NaN`.
- The remote search service is a function from request parameters to an
  optional page (`ScraperApd.PageSource`).
- Timestamps and Python's `float()` are parameters.

Each imperative source routine becomes a Dafny `method` with loop invariants.
It is proved equal to a specification function, and the promised properties
are lemmas about that function.

Two behaviours of the code that a reader might not expect are modelled as written:

- A catalog root that is neither a list nor a dict with a group key loads as
  an empty catalog rather than a format error (`cargos.py:82-95`).
- The placeholder code of a suggestion is `DESCONOCIDO`
  (`validar_ofertas_cargos.py:137`).

## Model

| member | source | states |
|---|---|---|
| Cargos.ContieneMeaning | cargos.py:16-18 | `contiene` holds iff the lower-cased word occurs at some position of the lower-cased area |
| Cargos.EsModalidadEsCodigoMeaning | cargos.py:20-24 | `es_modalidad` / `es_codigo` hold iff the strings have equal length and agree character by character after case folding |
| Cargos.FromDict | cargos.py:29-36 | succeeds exactly for a dict holding text `modalidad`, `codigo` and `area`, which it copies verbatim; `valor` is the stored value or 1.0 when absent; the first missing key of modalidad, codigo, area is its KeyError; a non-dict is TypeError |
| Cargos.FromDictToDict | cargos.py:26-36 | `from_dict(to_dict(c)) == c` |
| Cargos.FromDictAll | cargos.py:86-87 | the list comprehension succeeds iff every item converts, giving one cargo per item in order |
| Cargos.FromDictAllToDicts | cargos.py:54-71 | converting the saved list of dicts back gives the same cargos |
| Cargos.CatalogFromRoot | cargos.py:82-95 | list root: success iff every element converts, one cargo per element in order; a dict without either group, or any other root: empty catalog |
| Cargos.GroupedCatalogOrder | cargos.py:86-93 | dict root, an absent group counting as empty: it loads iff every entry of both groups converts, failing with the first bad entry's error (`habilitantes` first); on success the `habilitantes` entries are followed by the `bonificantes` entries, every entry kept (no de-duplication) |
| Cargos.FlatCatalogRoundTrip | cargos.py:85-87 | the flat list written by `save` loads back as the same list |
| Cargos.GroupedCatalogRoundTrip | cargos.py:88-93 | the grouped shape loads back as habilitantes then bonificantes |
| Cargos.DeModalidad | cargos.py:108-109 | exactly the cargos of the modalidad (case-insensitive), with their multiplicities, as an order-preserving subsequence |
| Cargos.CargoRepository.constructor | cargos.py:46-52 | the repository holds the given list and path |
| Cargos.CargoRepository.LoadFromFile | cargos.py:73-95 | missing file is FileNotFound; success iff the root loads; the error is the root's error; a fresh repository with the path and the loaded cargos |
| Cargos.CargoRepository.Load | cargos.py:64-71 | unset path is TypeError; missing file gives []; a list file gives `from_dict` of each item; of the other roots, an empty dict or empty string gives [] (nothing to iterate) and anything else is TypeError |
| Cargos.CargoRepository.Save | cargos.py:54-62 | ValueError iff the path is unset or empty; otherwise exactly that file is (re)written with the flat list and every other file is unchanged |
| Cargos.CargoRepository.SaveThenLoad | cargos.py:54-71 | `load` after a successful `save` gives back the repository's cargos |
| Cargos.CargoRepository.BuscarPorPalabra | cargos.py:101-106 | exactly the cargos whose area, codigo or modalidad contains the word case-insensitively, with multiplicities, in order |
| Cargos.CargoRepository.BuscarPorModalidad | cargos.py:108-109 | the repository's `DeModalidad` |
| Cargos.CargoRepository.BuscarPorCodigo | cargos.py:111-115 | None iff no cargo has the code case-insensitively; otherwise the first cargo in list order that has it |
| Cargos.CargoRepository.BuscarAreaExacta | cargos.py:123-128 | None iff no area equals the argument case-insensitively; otherwise the first such cargo |
| Cargos.CargoRepository.ListarModalidades | cargos.py:117-118 | sorted, duplicate-free, and the same value set as the cargos' modalidades |
| Cargos.CargoRepository.ListarCodigos | cargos.py:120-121 | sorted, a permutation of the cargos' codes (duplicates kept), as long as the repository |
| Cargos.CargoRepository.Len | cargos.py:137-138 | `len(repo)` equals the length of `listar_codigos` |
| Cargos.SortedSet | cargos.py:118 | sorting the de-duplicated values gives a sorted, duplicate-free list with the same members |
| ScraperApd.GetOfertas | scraper_apd.py:44-97 | the page is what the source returns for the built parameters, None on a failed request |
| ScraperApd.ParamsForShape | scraper_apd.py:56-81 | `q`, `wt`, `json.nl` and `sort` are fixed; `start`/`rows` are passed through; `fq` is absent iff there are no filters or no recognised key |
| ScraperApd.UnrecognisedKeysIgnored | scraper_apd.py:66-81 | dropping unrecognised filter keys does not change the parameters |
| ScraperApd.FqForCargo | scraper_apd.py:66-81 | the per-cargo filter becomes `estado:"Publicada" AND areaincumbencia:"<code>"`, in the fixed key order |
| ScraperApd.PasoDe | scraper_apd.py:118-151 | a page that lets the loop go on moves `start` past the next batch, and the total stays the first page's |
| ScraperApd.Ronda | scraper_apd.py:118-151 | one round of the loop (request, missing data, first total, empty page, the page cut at the limit, the next start against the total) yields the step of the paging function |
| ScraperApd.PasoLimitado | scraper_apd.py:137-144 | one page with a limit yields what it yields without one, cut at the remaining allowance; a page that continues stays under the limit |
| ScraperApd.GetAllOfertas | scraper_apd.py:99-154 | the loop yields exactly the documents, starts, total and stop reason of the paging function |
| ScraperApd.PaginarFin | scraper_apd.py:120-151 | a stopping page ends the run with that page's result |
| ScraperApd.PaginarSigue | scraper_apd.py:137-151 | a continuing page's documents come first, then the run from `start + batch_size` |
| ScraperApd.TomarPagina | scraper_apd.py:137-144 | the limit is hit iff a truthy limit is reached within the page; then the page is cut to the remaining allowance |
| ScraperApd.StartsAvanzan | scraper_apd.py:146 | the k-th request starts at `start + k * batch_size` |
| ScraperApd.ExtraccionStarts | scraper_apd.py:111-146 | the k-th request of an extraction starts at `k * batch_size` |
| ScraperApd.TotalFijo | scraper_apd.py:127-129 | once captured, the total is never replaced by later pages |
| ScraperApd.TotalDePrimeraPagina | scraper_apd.py:124-129 | the total is the first page's `numFound`; a first page without it yields nothing and ends as the KeyError case |
| ScraperApd.LimitePrefijo | scraper_apd.py:139-144 | with a limit, the documents are the unlimited run's documents cut to the remaining allowance |
| ScraperApd.ExtraccionLimitada | scraper_apd.py:139-144 | with a truthy limit m, the documents are the first m of the unlimited extraction (all of them when fewer) |
| ScraperApd.ExtraccionLimitadaPeticiones | scraper_apd.py:115-151 | against a stable remote of n > 0 records, a positive limit m yields the first min(m, n) records in ceil(min(m, n) / batch_size) requests |
| ScraperApd.LimiteCero | scraper_apd.py:142 | a limit of 0 is no limit |
| ScraperApd.CompletaUltima | scraper_apd.py:146-151 | against a consistent source, the last batch ends the run with the rest of the data |
| ScraperApd.CompletaDesde | scraper_apd.py:115-151 | against a consistent source, the run from any start yields the rest of the data in order, stops as exhausted, and makes ceil(rest / batch) requests |
| ScraperApd.ExtraccionCompleta | scraper_apd.py:111-151 | against a consistent source, an unlimited extraction yields all the data in order with the right total and request count |
| ScraperApd.ArchivoConsistente | scraper_apd.py:179-188 | the saved `total_ofertas` equals the number of offers written, and each offer is written unchanged |
| ScraperApd.SaveToJson | scraper_apd.py:156-193 | the file is the offers of a 100-per-page extraction with metadata; a missing `numFound` is KeyError |
| ValidarOfertas.ResultadosForma | validar_ofertas_cargos.py:37-58 | a successful run has one result per offer row, in input order, each the result of that row |
| ValidarOfertas.ValidarFilas | validar_ofertas_cargos.py:37-58 | the row loop builds exactly the per-row results, failing where a row fails |
| ValidarOfertas.RegistrosForma | validar_ofertas_cargos.py:23 | a list of objects becomes one record per object; a list of non-objects becomes as many records with no named column; a list mixing both is TypeError |
| ValidarOfertas.SinColumnas | validar_ofertas_cargos.py:23-68 | offers with no named column fail with KeyError('cargo') at the first row; no offers (an empty list or null) fail with KeyError('validado') |
| ValidarOfertas.ResultadosPaso | validar_ofertas_cargos.py:37-58 | one loop iteration appends the row's result |
| ValidarOfertas.ResultadosFalla | validar_ofertas_cargos.py:37-58 | an exception on a row ends the whole validation with that error |
| ValidarOfertas.ValidarOfertasConCargos | validar_ofertas_cargos.py:9-109 | the script's outcome is the report of the two loaded files, written to `reporte_validacion_cargos.json`, with every other file unchanged |
| ValidarOfertas.DocumentoForma | validar_ofertas_cargos.py:87-102 | the report document holds the three counts and one row per result in order, whose `validado` is the result's and whose `cargo_conocido` reads back as the entry found, or null |
| ValidarOfertas.ReporteEscrito | validar_ofertas_cargos.py:67-102 | the written totals are the offer count and the validated and unvalidated counts, with one row per offer |
| ValidarOfertas.ValidarTabla | validar_ofertas_cargos.py:35-98 | the loop and counters compute the report function |
| ValidarOfertas.ValidarExito | validar_ofertas_cargos.py:67-98 | the totals and percentage come from the result list; an empty list is the KeyError on `validado` |
| ValidarOfertas.ValidarFalla | validar_ofertas_cargos.py:37-58 | a failing row makes the report fail with the same error |
| ValidarOfertas.ValidarFila | validar_ofertas_cargos.py:38-56 | the loop body computes one offer's result |
| ValidarOfertas.CoincidenciaSii | validar_ofertas_cargos.py:38-46 | exact area first; the code lookup runs only when the area fails and the code is truthy; a match exists iff the area or the non-empty code matches; a non-string truthy code is an error |
| ValidarOfertas.CoincidenciaMonotona | validar_ofertas_cargos.py:42-46 | adding cargos to the catalog never loses a match |
| ValidarOfertas.AreaEncontrada | cargos.py:123-128 | a catalog cargo whose area matches is always found by the area lookup |
| ValidarOfertas.ReporteConteos | validar_ofertas_cargos.py:67-98 | `total == len(resultados)` is the number of offers; validated plus unvalidated is the total; the percentage is within 0..100; no offers is a KeyError |
| ValidarOfertas.Porcentaje | validar_ofertas_cargos.py:96 | the validated percentage is within 0..100 |
| ValidarOfertas.FilaAmpliada | validar_ofertas_cargos.py:42-56 | a row whose offer the extra cargos cover becomes validated, with its other fields unchanged |
| ValidarOfertas.ResultadosAmpliados | validar_ofertas_cargos.py:37-58 | covering every unvalidated offer validates every row |
| ValidarOfertas.CountWhereTodos | validar_ofertas_cargos.py:68 | when every row is validated, the validated count is the row count |
| ValidarOfertas.TodasValidadas | validar_ofertas_cargos.py:67-69 | covering every unvalidated offer leaves zero unvalidated offers |
| ValidarOfertas.SugerenciasForma | validar_ofertas_cargos.py:123-141 | one suggestion per distinct unvalidated triple, in first-occurrence order; the code is the offer code or `DESCONOCIDO`; the area is the offer title; the valor is 1.0 |
| ValidarOfertas.SugerenciasCubren | validar_ofertas_cargos.py:123-141 | every unvalidated offer has its suggestion |
| ValidarOfertas.SugerenciasDeNoValidadas | validar_ofertas_cargos.py:123-141 | every suggestion comes from an unvalidated offer (validated offers never appear) |
| ValidarOfertas.SugerirCargosFaltantes | validar_ofertas_cargos.py:112-145 | validation errors propagate; otherwise the validation report is written, then the suggestion file from the results, and no other file changes |
| ValidarOfertas.ArchivoSugerenciasDe | validar_ofertas_cargos.py:133-145 | the written file is the list of the suggestions' dicts |
| ValidarOfertas.SugerenciaLeida | validar_ofertas_cargos.py:135-140 | a suggestion reads back through `from_dict` as the cargo it describes |
| ValidarOfertas.SugerenciasCompletanCatalogo | validar_ofertas_cargos.py:112-145 | with string-valued triples, adding the suggested cargos to the catalog validates every offer |
| EnriquecerOfertas.EnriquecerTodas | enriquecer_ofertas.py:31-58 | one output per offer, same order |
| EnriquecerOfertas.EnriquecerPaso | enriquecer_ofertas.py:31-58 | one loop iteration appends the offer's enriched copy |
| EnriquecerOfertas.EnriquecerFalla | enriquecer_ofertas.py:31-58 | an exception on an offer ends the script with that error |
| EnriquecerOfertas.EnriquecerFila | enriquecer_ofertas.py:32-58 | the loop body computes one enriched offer |
| EnriquecerOfertas.EnriquecerLista | enriquecer_ofertas.py:28-58 | the loop computes the list, and `match_count` is the number of validated outputs |
| EnriquecerOfertas.EnriquecerOfertasArchivos | enriquecer_ofertas.py:8-71 | the script's outcome is the enrichment function's |
| EnriquecerOfertas.EnriquecidaForma | enriquecer_ofertas.py:33-56 | the copy has the offer's keys plus `cargo_info` and every other value unchanged; matched offers carry the matching cargo's info, found by area or by code; unmatched offers carry `{False, None, None, 0.0}` |
| EnriquecerOfertas.ArchivosExito | enriquecer_ofertas.py:18-71 | success needs both files, an `ofertas` list, a `metadata` object and a non-empty offer list; then the output file holds the enriched list |
| EnriquecerOfertas.SalidaConteos | enriquecer_ofertas.py:61-68 | the output metadata keeps the input keys and adds `ofertas_validadas` equal to the validated count (at most the number of offers) and the percentage within 0..100 |
| EnriquecerOfertas.DifiereDelValidador | enriquecer_ofertas.py:33-37 | the enricher and the validator differ exactly when the offer code is empty, no area matches, and some cargo has an empty code |
| ScraperPorCargos.Acumular | scraper_por_cargos.py:38-63 | the accumulated dict is well formed (distinct keys, key list and map agree) with at most one entry per cargo |
| ScraperPorCargos.ExtraerOfertasPorCargos | scraper_por_cargos.py:11-92 | the script's outcome is the extraction function's |
| ScraperPorCargos.AcumularCargos | scraper_por_cargos.py:38-63 | the per-cargo loop builds the accumulated dict |
| ScraperPorCargos.Aplanar | scraper_por_cargos.py:69-73 | the flattening loop concatenates the entry lists in key order |
| ScraperPorCargos.BuscarOfertasPorModalidad | scraper_por_cargos.py:95-119 | the modalidad driver computes its specification function |
| ScraperPorCargos.AcumularClaves | scraper_por_cargos.py:51-56 | the keys are the codes of cargos with offers, de-duplicated in first-occurrence order (a later duplicate keeps the key's place) |
| ScraperPorCargos.AcumularPresentes | scraper_por_cargos.py:45-59 | a code has an entry iff some cargo has it and its extraction yielded offers |
| ScraperPorCargos.AcumularEntradas | scraper_por_cargos.py:51-56 | each entry holds that code's offers and the last cargo with the code |
| ScraperPorCargos.SalidaConteos | scraper_por_cargos.py:69-85 | `total_cargos_buscados`, `cargos_con_ofertas` is the number of entries, `total_ofertas` is the flattened length, which is the sum of the entry lengths |
| ScraperPorCargos.CardinalidadClaves | scraper_por_cargos.py:80 | the number of entries equals the number of keys |
| ScraperPorCargos.ExtraerConteos | scraper_por_cargos.py:27-88 | success iff the catalog loads; otherwise its error; only the output file changes; at most one entry per cargo |
| ScraperPorCargos.LimitePorCargo | scraper_por_cargos.py:46-48 | with a positive per-cargo limit, each entry has at most that many offers and the total is bounded by limit times entries |
| ScraperPorCargos.ConsultaDeCargo | scraper_por_cargos.py:46-48 | every request for a cargo filters by its code and `estado:"Publicada"` with 100 rows |
| ScraperPorCargos.ModalidadSoloSuya | scraper_por_cargos.py:102-119 | success iff the catalog loads; every entry's cargo is a catalog cargo of that modalidad with at most 150 offers |
| ParseCargosHtml.CodigoSii | parse_cargos_html.py:35-36 | the code is empty iff there is no `(...)` group with content; otherwise it has no `)` and is the content of the leftmost group |
| ParseCargosHtml.QuitarCaracteres | parse_cargos_html.py:39 | removing groups never adds characters |
| ParseCargosHtml.QuitarSinGrupos | parse_cargos_html.py:39 | no `(...)` group survives the removal |
| ParseCargosHtml.QuitarIdentidad | parse_cargos_html.py:39 | text without groups is left unchanged |
| ParseCargosHtml.QuitarPrimerGrupo | parse_cargos_html.py:39 | scanning left to right: the text before the leftmost group is kept unchanged, the group and the whitespace after it are dropped, and the removal continues on the rest |
| ParseCargosHtml.QuitarIdempotente | parse_cargos_html.py:39 | removing groups twice is removing them once; text with no code is unchanged |
| ParseCargosHtml.ConvertirExito | parse_cargos_html.py:27-47 | a table converts iff every row of 3 or more cells has a numeric score; otherwise ValueError |
| ParseCargosHtml.ConvertirFilas | parse_cargos_html.py:26-47 | rows with fewer than 3 cells are skipped; every other row gives exactly one cargo, in row order |
| ParseCargosHtml.ParsearTablas | parse_cargos_html.py:24-74 | no table gives two empty lists; one table fills only `habilitantes`; tables after the second are ignored |
| ParseCargosHtml.ConvertirTabla | parse_cargos_html.py:26-47 | the row loop computes the table conversion |
| ParseCargosHtml.ParseCargosHtml | parse_cargos_html.py:9-74 | the two loops compute the parse function |
| ParseCargosHtml.ConteoCuenta | parse_cargos_html.py:110-112 | the counter has a key iff some cargo has that modalidad, and its value is the positive number of such cargos |
| ParseCargosHtml.ConteoSuma | parse_cargos_html.py:110-112 | the per-modalidad counts sum to the list length |
| ParseCargosHtml.ContarPorModalidad | parse_cargos_html.py:110-112 | the counting loop builds the counter |
| ParseCargosHtml.GenerarJsonCargos | parse_cargos_html.py:77-123 | the file written and the two summaries are those of the parsed lists |
| ParseCargosHtml.GenerarRoundTrip | parse_cargos_html.py:92-104 | success iff parsing succeeds; the written file loads back as habilitantes then bonificantes; the totals equal the list lengths |
| ParseCargosHtml.ParseDesdeString | parse_cargos_html.py:126-146 | the copy loop computes the function |
| ParseCargosHtml.DesdeTextoSoloHabilitantes | parse_cargos_html.py:131-146 | only the habilitantes are returned, in order, and the written file loads back as them |
| DataLoader.PorCampoPaso | utils/data_loader.py:137-150 | an equality step applies only when its value is truthy and not the sentinel; it fails iff it is active and the column is missing; it keeps exactly the matching records |
| DataLoader.PorTextoPaso | utils/data_loader.py:153-160 | the search keeps the records whose lower-cased `cargo`, `descripcionarea` or `descdistrito` contains the lower-cased text; missing values never match |
| DataLoader.PorInicioPaso | utils/data_loader.py:163-164 | the lower date bound keeps `finoferta >= inicio`, and applies only when the column exists |
| DataLoader.PorFinPaso | utils/data_loader.py:166-167 | the upper date bound keeps `finoferta <= fin`, and applies only when the column exists |
| DataLoader.PorCamposEsUnFiltro | utils/data_loader.py:136-150 | the four equality steps keep exactly the records meeting all four conditions |
| DataLoader.FiltrarEsUnFiltro | utils/data_loader.py:123-169 | the result is the input filtered by the conjunction of every active condition |
| DataLoader.PrimeraFaltantePorPartes | utils/data_loader.py:136-160 | the first missing column is found in the order the filters select columns |
| DataLoader.FiltrarErrores | utils/data_loader.py:136-160 | filtering fails iff an active filter needs a missing column, with the KeyError of the first such column |
| DataLoader.FiltrarSinFiltros | utils/data_loader.py:123-169 | with every filter off (absent, empty or sentinel), the output equals the input |
| DataLoader.FiltrarSubsecuencia | utils/data_loader.py:123-169 | the output is an order-preserving subsequence holding each passing record as often as the input, and nothing else |
| DataLoader.FechasInclusivas | utils/data_loader.py:163-167 | both date bounds are inclusive |
| DataLoader.ListaFallaTalCual | utils/data_loader.py:70-75 | as written, a flat-list catalog (one that the repository loads) fails with AttributeError |
| DataLoader.CargarCargosCorregido | utils/data_loader.py:62-94 | the intended loader returns a flat list's records unchanged with empty metadata, and agrees with the code on missing files, dict roots and every successful load |
| DataLoader.EtiquetarForma | utils/data_loader.py:80-88 | tagging keeps every record in order, adds `tipo`, and fails with TypeError iff some item is not a dict |
| DataLoader.CargarCargosAgrupados | utils/data_loader.py:70-90 | on a dict root, an absent group counting as empty, loading succeeds iff every entry of both groups is a dict and otherwise fails with TypeError; on success the records are the habilitantes tagged `habilitante` followed by the bonificantes tagged `bonificante`, with the root's `metadata` or `{}` |
| DataLoader.FromDictEtiquetado | utils/data_loader.py:81-87 | the `tipo` tag does not change how a record reads as a cargo |
| DataLoader.DashboardCoincideConRepositorio | utils/data_loader.py:76-90 | on a dict catalog the repository loads (either group may be absent), the dashboard's records correspond one by one to the repository's cargos |
| DataLoader.EtiquetarGrupo | utils/data_loader.py:80-83 | the tagging loop computes the tagged group |
| DataLoader.LoadCargos | utils/data_loader.py:51-94 | the loader computes the intended `load_cargos` |
| DataLoader.DetalleForma | utils/data_loader.py:172-198 | the card has always the same labels; each shows 'N/A' when its column is absent from the frame, the record's value when present, and NaN otherwise |
| DataLoader.DetalleSinFaltantes | utils/data_loader.py:182-198 | a record holding every field shows its own values and no 'N/A' |

## Findings

| source | as written | input that shows it | evidently intended | confidence | as-written member | corrected member |
|---|---|---|---|---|---|---|
| utils/data_loader.py:70 | `data.get('metadata', {})` runs before the `isinstance(data, list)` test, so every non-dict root raises AttributeError and the list branch at lines 73-75 is unreachable | a flat catalog file such as `[{"modalidad": "A", "codigo": "X", "area": "B", "valor": 1.0}]`, the shape `CargoRepository.save` writes and `load_from_file` accepts | a flat list is loaded as it is, with empty metadata | high (not executed) | DataLoader.CargarCargosTalCual, DataLoader.ListaFallaTalCual | DataLoader.CargarCargos, DataLoader.CargarCargosCorregido |

## Left out

- HTTP and TLS plumbing (`TLSAdapter`, sessions, timeouts, the Latin-1 fix-up) is left out. The page source is a deterministic function from parameters to an optional page. A failed request is `None`.
- `time.sleep` pacing, console output, progress counters and elapsed times are left out. They do not affect any result.
- `datetime.now()` is a `fecha` parameter.
- The CSV export of the validation report is left out: it is a second rendering of the same rows through the pandas CSV writer.
- JSON parsing and serialisation (`json.load`, `json.dump`, `ensure_ascii`, indentation) are left out. Files hold parsed values. The model writes a NaN cell as `null`, where `json.dump` would write the bare token `NaN`.
- Dict key order inside a JSON object is not modelled. The order of the per-cargo entries in `scraper_por_cargos.py` is modelled by an explicit key list.
- Floating point is not modelled. Percentages are exact rationals, without `round(..., 2)`.
- `float(puntaje)` is an abstract `Conversor` parameter: a string to an optional number.
- Dates are numbers; `pd.to_datetime` coercion and `pd.Timestamp` are left out.
- `str.lower()` is ASCII case folding. Unicode case mapping is left out.
- `str.contains` is a plain substring test. Regex metacharacters in the search text are not interpreted.
- The pandas `.str` accessor on an all-non-string column (which raises) is not modelled. Non-string cells simply do not match.
- pandas dtype inference is left out. A record's missing cell is `NaN`, which is truthy as in Python, and no column is ever re-typed.
- BeautifulSoup table selection by style attribute is left out. The importer starts from tables given as rows of cell strings.
- `get_text(strip=True)` is modelled as a whitespace strip of the whole cell.
- The regexes `\(([^)]+)\)` and `\([^)]+\)\s*` are replaced by an explicit scanner.
- `CargoRepository.as_dict`, `__iter__`, `get_filtros_disponibles`, `get_available_files`, the Streamlit pages, `st.cache_data` and the `__main__` blocks are not part of this model. They are presentation, file globbing or glue.
- DataLoader.LoadCargos: it builds new tagged records instead of assigning `tipo` into the parsed dicts in place. The aliasing between the loaded JSON and the frame is not captured.
- EnriquecerOfertas.EnriquecidaForma: the offer dict is copied by value. The shallow-copy sharing of nested values is not captured.
- ScraperApd.GetAllOfertas: requires `batch_size > 0`. With 0 the source loop can request the same page forever.
- ScraperPorCargos.ModalidadSoloSuya: it does not state the contents of `temp_cargos.json` after the run. When the output name is that same path, the output overwrites it.
- ValidarOfertas.Registros: a column-oriented `ofertas` object (which `pd.DataFrame` loads as columns) is refused with TypeError, and so is a list mixing objects and non-objects; pandas' handling of those shapes is not modelled.
- The empty path: `open("")` fails for reading and for writing, but in the file map `""` is an ordinary name, so `CargoRepository.Load`, `load_from_file` and every writer treat it like any other path.
- Cargos.FromDict: non-string `modalidad`/`codigo`/`area` values are rejected with TypeError. The source would build a `Cargo` holding them, and only later string methods would fail.
