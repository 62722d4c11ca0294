# PatrimonioConsultor, modelled in Dafny

`Mr.HolmesCorp.py` is a command-line lookup tool. Given an identifier
(a CNPJ, CPF, name, RG or vehicle plate) and its type, its class
`PatrimonioConsultor` builds a report of Brazilian public sources.

- Two sources are queried over HTTP: ReceitaWS for company data and the
  Banco Central "valores a receber" service.
- Every other source is a placeholder record. It points the user at the
  portal where the lookup has to be done by hand.
- Two constant listings close every report: open-data catalogs and OSINT
  tools.

This project models that core:

| module (file) | what it models |
|---|---|
| `Json` (json.dfy) | Python dicts as insertion-ordered sequences of (key, value) pairs; `d.get`, `d.get(k, default)` and `d[k] = v` |
| `Identifier` (identifier.dfy) | the digit normaliser `''.join(filter(str.isdigit, x))`; `str(n)` for a status code |
| `Registry` (registry.dfy) | the immutable `self.urls` table, 28 entries, in insertion order |
| `Handlers` (handlers.dfy) | the two handlers that make a request: `consultar_cnpj_receitaws`, `consultar_valores_receber_bcb` |
| `Manual` (manual.dfy) | the eleven placeholder `consultar_*` handlers |
| `Listings` (listings.dfy) | `listar_fontes_dados_abertos`, `listar_ferramentas_osint` |
| `Sources` (sources.dfy) | the keys of `resultados["fontes"]` and the order in which each query type stores them |
| `Dispatch` (dispatch.dfy) | `buscar_completa`: a method that fills the `fontes` dict (a class with an in-place `Put`) one key at a time |

How the outside world is modelled:

- The HTTP session is a parameter `net: string -> Outcome`. It maps the
  requested URL to either an exception, whose `str(e)` is opaque text, or a
  status code with a body. The body either parsed as JSON or failed to parse.
- A handler that makes no request is one whose result does not depend on
  `net`. `ReceitaWsRequest`, `BcbRequest` and `ReportRequests` state which
  URLs a result can depend on.
- `datetime.now().isoformat()` becomes a `timestamp` parameter.

Two points where the code does less than a reader might expect, and the model follows the code:

- `buscar_completa` does not reject an unknown `tipo`. Only the
  command-line `choices` do (`Mr.HolmesCorp.py:466`). Given another type,
  the function consults no handler and returns a report that holds only
  the two listings (`Dispatch.UnknownTipoListsOnly`).
- The ReceitaWS rejection of a CNPJ that does not have 14 digits is the
  one-key record `{"erro": ...}`. It has no `url_fonte`, even though every
  other error record names the URL it tried.

The record keys are the code's Portuguese ones: `erro`, `url_fonte`,
`valores`, and so on.

## Model

| member | source | states |
|---|---|---|
| Identifier.Normalize | Mr.HolmesCorp.py:64 | The result holds only digits and is no longer than the input. Each digit occurs as often as in the input, and no other character remains. So the empty input gives the empty output. |
| Identifier.NormalizeAppend | Mr.HolmesCorp.py:106 | Normalising a concatenation gives the concatenation of the normalised parts. |
| Identifier.NormalizeFixpoint | Mr.HolmesCorp.py:170 | A string is left unchanged exactly when it is all digits. |
| Identifier.NormalizeIdempotent | Mr.HolmesCorp.py:185 | Normalising twice is the same as normalising once. |
| Identifier.NormalizePreservesOrder | Mr.HolmesCorp.py:199 | The kept digits are a subsequence of the input: their relative order is preserved. |
| Identifier.NormalizeUnique | Mr.HolmesCorp.py:64 | Any all-digit subsequence of the input that keeps every digit as often as the input has it is the normalised input. The properties above therefore characterise the filter completely. |
| Identifier.DecimalString | Mr.HolmesCorp.py:134 | `str(code)` is a non-empty string of digits, with a leading '-' for a negative code. For a non-negative code, the digits read back as the code. |
| Identifier.DecimalRoundTrip | Mr.HolmesCorp.py:134 | Reading back the decimal digits written for `n` gives `n`. |
| Registry.Lookup | Mr.HolmesCorp.py:29-58 | `self.urls[name]` is absent exactly when no entry has that name. When present, it is the URL of the entry with that name. |
| Registry.UrlsReferencias | Mr.HolmesCorp.py:29-58 | The table has 28 entries, whose keys are the registry names in the dict literal's insertion order. Each entry has its own URL, and every key in it can be looked up. |
| Json.Get | Mr.HolmesCorp.py:75 | The lookup gives the option `None` exactly when `k` is not a key, and otherwise `Some` of a value stored under `k`. Python's `data.get(k)` is that value, or None for both `None` and a stored JSON null. |
| Json.GetOr | Mr.HolmesCorp.py:78-97 | `data.get(k, default)` gives the default when `k` is absent, and a stored value otherwise. |
| Json.GetMember | Mr.HolmesCorp.py:75-97 | In a dict without repeated keys, looking up a stored pair's key returns its value. |
| Json.Assign | Mr.HolmesCorp.py:405-458 | `d[k] = v` appends `(k, v)` when `k` is new, and keeps the key order when `k` is already present. |
| Json.AssignLookup | Mr.HolmesCorp.py:405-458 | After `d[k] = v` the dict still has no repeated key, `d[k]` is `v`, and the lookup of every other key is unchanged. |
| Handlers.ReceitaWsCompany | Mr.HolmesCorp.py:76-95 | The success record is a dict with `fonte` "ReceitaWS" and no `erro`. `cnpj`, `razao_social` and `socios` are taken from the body's `cnpj`, `nome` and `qsa`, with the code's defaults. `url_fonte` is the URL asked. |
| Handlers.ReceitaWsError | Mr.HolmesCorp.py:97-100 | An error record has exactly the keys `erro` and `url_fonte`. |
| Handlers.ReceitaWsReply | Mr.HolmesCorp.py:71-100 | Every outcome yields a record that names the URL asked. It is a company record exactly when the status is 200 and the body's `status` is "OK", and an error record otherwise. An accepted lookup gives exactly `ReceitaWsCompany` of the body. Any other outcome gives a record with exactly the keys `erro` and `url_fonte`. Its `erro` is one of: the body's `message` or "Erro na consulta"; the request-error text for an exception or an unparsable body; or the AttributeError text when the body is not an object. |
| Handlers.ConsultarCnpjReceitaws | Mr.HolmesCorp.py:60-100 | A CNPJ whose normalised form does not have 14 digits gives exactly `{"erro": "CNPJ deve ter 14 dígitos"}`. Otherwise `url_fonte` is the ReceitaWS base followed by the 14 digits. `fonte` is present exactly when the length check and the ReceitaWS acceptance test both pass, and `erro` exactly when `fonte` is not. After the length check, the record is `ReceitaWsReply` of the GET's outcome. |
| Handlers.ReceitaWsRequest | Mr.HolmesCorp.py:64-72 | A rejected CNPJ makes no request; otherwise the only request is the GET of `ReceitaWsUrl(cnpj)`. |
| Handlers.BcbReply | Mr.HolmesCorp.py:111-144 | The record is a dict. All four branches carry `url_fonte` (the URL asked) and `url_portal` (`urls['bcb_valores']`). `erro` is present exactly when no 200 response came back, and then the keys are exactly `erro`, `url_fonte` and `url_portal`. `fonte` and `documento` are present exactly for a 200 response, which names the source and the normalised document. `valores` is present exactly for a 200 response that parsed as JSON, and holds that body. A 200 response that did not parse carries the "not JSON" status note. A non-200 response carries "Status HTTP: " followed by the code, and an exception carries the request-error text. |
| Handlers.ConsultarValoresReceberBcb | Mr.HolmesCorp.py:102-144 | `url_fonte` is `urls['bcb_api']` followed by the normalised digits and "/1960-12-01". `erro` is present exactly when the response was not a 200. A 200 response echoes the normalised document, and a parsed body appears under `valores`. `url_portal` is on every branch. The record is `BcbReply` of the GET's outcome. |
| Handlers.BcbRequest | Mr.HolmesCorp.py:109-112 | The only request is the GET of `BcbUrl(document)`. |
| Handlers.BcbStatusReadable | Mr.HolmesCorp.py:133-137 | For every non-negative status code other than 200, the code written into the BCB error record can be read back from it. |
| Manual.ConsultarPortalTransparencia | Mr.HolmesCorp.py:146-164 | The record never holds `erro`; it names its source under `fonte` and carries its `observacao` note. It echoes the term and the subject kind unchanged, has the "Consulta estruturada" status and links the transparency portal. |
| Manual.ConsultarCaixaBeneficios | Mr.HolmesCorp.py:166-179 | The record never holds `erro`; it names its source under `fonte` and carries its `observacao` note. It echoes the normalised CPF, has the manual-lookup status and links both Caixa portals. |
| Manual.ConsultarAuxilioEmergencial | Mr.HolmesCorp.py:181-193 | The record never holds `erro`; it names its source under `fonte` and carries its `observacao` note. It echoes the normalised CPF, has the manual-lookup status and links the aid portal. |
| Manual.ConsultarReceitaFederal | Mr.HolmesCorp.py:195-213 | The record never holds `erro`; it names its source under `fonte` and carries its `observacao` note. It echoes the normalised document and the type, with the manual-lookup status. It links `receita_cnpj_oficial` when the type is "cnpj" and `receita_cpf` for any other type. |
| Manual.ConsultarSpPoliciaRg | Mr.HolmesCorp.py:215-225 | The record never holds `erro`; it names its source under `fonte` and carries its `observacao` note. It echoes the raw RG, has the manual-lookup status and links the civil-police portal. |
| Manual.ConsultarSpTransparencia | Mr.HolmesCorp.py:227-237 | The record never holds `erro`; it names its source under `fonte` and carries its `observacao` note. It echoes the raw name, has the manual-lookup status and links the SP transparency portal. |
| Manual.ConsultarSinespCidadao | Mr.HolmesCorp.py:239-249 | The record never holds `erro`; it names its source under `fonte` and carries its `observacao` note. It echoes the raw plate and has the "Aplicativo necessário" status, the one placeholder whose status asks for the app. It and `consultar_portal_transparencia` are the two placeholders whose status is not "Consulta manual necessária". |
| Manual.ConsultarFalecidosBrasil | Mr.HolmesCorp.py:251-261 | The record never holds `erro`; it names its source under `fonte` and carries its `observacao` note. It echoes the raw name, has the manual-lookup status and links the registry of deaths. |
| Manual.ConsultarPessoaDesaparecida | Mr.HolmesCorp.py:263-273 | The record never holds `erro`; it names its source under `fonte` and carries its `observacao` note. It echoes the raw name, has the manual-lookup status and links the missing-persons portal. |
| Manual.ConsultarDetranPr | Mr.HolmesCorp.py:275-285 | The record never holds `erro`; it names its source under `fonte` and carries its `observacao` note. It echoes the raw input, has the manual-lookup status and links DETRAN-PR. |
| Manual.ConsultarProconPr | Mr.HolmesCorp.py:287-297 | The record never holds `erro`; it names its source under `fonte` and carries its `observacao` note. It echoes the raw company name, has the manual-lookup status and links PROCON-PR. |
| Manual.PortalTransparenciaKeys | Mr.HolmesCorp.py:146-164 | The record is a dict whose keys are exactly fonte, termo_busca, tipo, status, url_portal, observacao, in that order. |
| Manual.CaixaBeneficiosKeys | Mr.HolmesCorp.py:166-179 | The record is a dict whose keys are exactly fonte, cpf, status, url_programas, url_beneficios, observacao, in that order. |
| Manual.AuxilioEmergencialKeys | Mr.HolmesCorp.py:181-193 | The record is a dict whose keys are exactly fonte, cpf, status, url_consulta, observacao, in that order. |
| Manual.ReceitaFederalKeys | Mr.HolmesCorp.py:195-213 | The record is a dict whose keys are exactly fonte, documento, tipo, status, url_consulta, observacao, in that order. |
| Manual.SpPoliciaRgKeys | Mr.HolmesCorp.py:215-225 | The record is a dict whose keys are exactly fonte, rg, status, url_consulta, observacao, in that order. |
| Manual.SpTransparenciaKeys | Mr.HolmesCorp.py:227-237 | The record is a dict whose keys are exactly fonte, nome, status, url_consulta, observacao, in that order. |
| Manual.SinespCidadaoKeys | Mr.HolmesCorp.py:239-249 | The record is a dict whose keys are exactly fonte, placa, status, url_info, observacao, in that order. |
| Manual.FalecidosBrasilKeys | Mr.HolmesCorp.py:251-261 | The record is a dict whose keys are exactly fonte, nome, status, url_consulta, observacao, in that order. |
| Manual.PessoaDesaparecidaKeys | Mr.HolmesCorp.py:263-273 | The record is a dict whose keys are exactly fonte, nome, status, url_consulta, observacao, in that order. |
| Manual.DetranPrKeys | Mr.HolmesCorp.py:275-285 | The record is a dict whose keys are exactly fonte, info, status, url_consulta, observacao, in that order. |
| Manual.ProconPrKeys | Mr.HolmesCorp.py:287-297 | The record is a dict whose keys are exactly fonte, empresa, status, url_consulta, observacao, in that order. |
| Listings.ListarFontesDadosAbertos | Mr.HolmesCorp.py:299-345 | The record's `fonte` is "Repositórios de Dados Abertos". It lists the seven catalogs `dados_gov`, `brasil_io`, `ibict_dados`, `bcb_dados`, `turismo_dados`, `mj_dados` and `sc_dados`, in that order, each with its URL from the table. `total_fontes` equals the number listed. |
| Listings.ListarFerramentasOsint | Mr.HolmesCorp.py:347-373 | The record's `fonte` is "Ferramentas OSINT". It lists the three tools `scan_user`, `osint_brasil` and `omnisci_demo`, in that order, each with its URL from the table. `total_ferramentas` equals the number listed. |
| Listings.OpenDataListingDistinct | Mr.HolmesCorp.py:303-339 | No catalog key is listed twice. |
| Listings.OsintListingDistinct | Mr.HolmesCorp.py:351-367 | No tool key is listed twice. |
| Sources.PlanKeys | Mr.HolmesCorp.py:403-458 | The key lists of `fontes` for each query type, written out. cnpj: receitaws, receita_federal, bcb_valores, transparencia. cpf: receita_federal, bcb_valores, caixa_beneficios, auxilio_emergencial, transparencia. nome: sp_transparencia, falecidos, pessoa_desaparecida. rg: sp_policia_rg. placa: sinesp, detran_pr. Each list ends with dados_abertos, ferramentas_osint, and for any other type those two are the whole list. |
| Sources.PlanDistinct | Mr.HolmesCorp.py:403-458 | For every type, no key occurs twice in that list. |
| Sources.Stores | Mr.HolmesCorp.py:405 | Storing a key that is not yet present appends the pair at the end. |
| Sources.CnpjStores | Mr.HolmesCorp.py:403-414 | Whatever the four records are, the cnpj stores leave exactly those four entries in the cnpj order, and neither listing key among them. |
| Sources.CpfStores | Mr.HolmesCorp.py:416-430 | The same for the five cpf stores. |
| Sources.NomeStores | Mr.HolmesCorp.py:432-440 | The same for the three nome stores. |
| Sources.RgStores | Mr.HolmesCorp.py:442-444 | The same for the rg store. |
| Sources.PlacaStores | Mr.HolmesCorp.py:446-451 | The same for the two placa stores. |
| Sources.ListingStores | Mr.HolmesCorp.py:453-458 | After any run of stores without them, storing the two listings appends them in this order. |
| Dispatch.FontesTable.constructor | Mr.HolmesCorp.py:397 | `fontes` starts empty. |
| Dispatch.FontesTable.Put | Mr.HolmesCorp.py:405 | `fontes[k] = v` updates the dict in place as `Json.Assign` describes. |
| Dispatch.ConsultCnpj | Mr.HolmesCorp.py:403-414 | The cnpj branch fills the empty dict with the four handler records, called with the dispatcher's arguments, in order. |
| Dispatch.ConsultCpf | Mr.HolmesCorp.py:416-430 | The cpf branch fills the empty dict with its five records, in order. |
| Dispatch.ConsultNome | Mr.HolmesCorp.py:432-440 | The nome branch fills the empty dict with its three records, in order. |
| Dispatch.ConsultRg | Mr.HolmesCorp.py:442-444 | The rg branch stores its one record. |
| Dispatch.ConsultPlaca | Mr.HolmesCorp.py:446-451 | The placa branch stores its two records, in order. |
| Dispatch.PutListings | Mr.HolmesCorp.py:453-458 | The two listing stores append the open-data listing and then the OSINT listing. |
| Dispatch.BuscarCompleta | Mr.HolmesCorp.py:389-460 | The filled report is exactly `Report`: the header, `fontes` holding the type's records and then the two listings, and the URL table. |
| Dispatch.StoredKeys | Mr.HolmesCorp.py:403-458 | The stored sources are the type's plan followed by the two listings. |
| Dispatch.FontesKeyOrder | Mr.HolmesCorp.py:403-458 | The keys of `resultados["fontes"]` are, in insertion order, the list `Sources.PlanKeys` gives for the type. |
| Dispatch.FontesIsDict | Mr.HolmesCorp.py:403-458 | No key of `fontes` is written twice, so no store overwrites an earlier record. |
| Dispatch.ListingsLast | Mr.HolmesCorp.py:453-458 | For every type, the last two entries are `dados_abertos` and then `ferramentas_osint`, holding the two listings. |
| Dispatch.UnknownTipoListsOnly | Mr.HolmesCorp.py:403-458 | A type other than cnpj, cpf, nome, rg or placa yields a `fontes` holding exactly the two listings. |
| Dispatch.SourceCount | Mr.HolmesCorp.py:403-458 | `fontes` has 6 entries for cnpj, 7 for cpf, 5 for nome, 3 for rg, 4 for placa and 2 for any other type. |
| Dispatch.ReportHeader | Mr.HolmesCorp.py:393-399 | The report has exactly the keys identificador, tipo, timestamp, fontes and urls_referencias, in that order. It echoes the identifier, type and timestamp unchanged, holds the filled `fontes`, and `urls_referencias` is the whole URL table. |
| Dispatch.ReportRequests | Mr.HolmesCorp.py:403-451 | The report depends on the network only through the ReceitaWS GET of a cnpj query and the BCB GET of a cnpj or cpf query. |

## Left out

- The `requests.Session`, its User-Agent header and the real GETs (`Mr.HolmesCorp.py:23-26, 72, 112`) are not modelled. The response is an input value, and the 30-second timeout is just one more exception.
- The text of `str(e)` for an exception from the HTTP client or the JSON decoder is opaque. The one exception text the model writes out is the AttributeError that `data.get` raises on a non-object body, as Python phrases it.
- `datetime.now()` is not modelled: `timestamp` is a parameter of `BuscarCompleta`.
- `gerar_relatorio` is not modelled: it writes a file through `json.dump` and prints.
- `main` is not modelled: argument parsing, progress and summary printing, `--listar-fontes` and exit codes. The type choices it enforces are recorded by `Dispatch.KnownTipo`.
- The `print` calls inside `buscar_completa` are not modelled; they do not affect the result.
- Python's `str.isdigit` also accepts non-ASCII Unicode digits. The model restricts digits to '0'..'9'.
- JSON floats are kept as their literal text, since floating point is not modelled.
- Handlers.ReceitaWsCompany: the contract names five of the record's eleven fields (`fonte`, `cnpj`, `razao_social`, `socios`, `url_fonte`). It does not state `nome_fantasia`, `situacao`, `capital_social`, `endereco` (with its six fields), `atividade_principal` or `atividades_secundarias`. The body builds all of them as the code does.
- The default arguments `tipo="pessoa"` of `consultar_portal_transparencia` (`Mr.HolmesCorp.py:146`) and `placa=None` of `consultar_sinesp_cidadao` (`Mr.HolmesCorp.py:239`) are not modelled. Both parameters are required, and `buscar_completa` always passes them.
- A parsed body (`Handlers.Body.Parsed`) is the value `json.loads` returns, in which no object repeats a key. A raw document that repeats a key is not modelled.
- Dispatch.BuscarCompleta: the `if`/`elif` chain calls one method per branch (`ConsultCnpj` … `ConsultPlaca`), each storing that branch's records with `FontesTable.Put`. The stores and their order are the code's.
