/** The two handlers of `PatrimonioConsultor` that make a request
    (`consultar_cnpj_receitaws`, `consultar_valores_receber_bcb`).  Each builds
    one flat record.  The HTTP
    session is abstracted: a GET is the function `net` from the requested URL
    to what came back, so a handler that makes no request is one whose result
    does not depend on `net`. */
module Handlers {
  import opened Json
  import opened Identifier
  import opened Registry

  /** What `response.json()` gives: the value `json.loads` built from the
      document (in which no object repeats a key, at any depth), or the
      decoder's failure (whose message is foreign text). */
  datatype Body = Parsed(json: Json) | Unparsable(reason: string)

  /** What `session.get(url, timeout=30)` gives: an exception from the HTTP
      client (connection refused, timeout, ...; `str(e)` is kept as opaque
      text), or a response with a status code and a body. */
  datatype Outcome = Raised(reason: string) | Resp(code: int, body: Body)

  type Network = string -> Outcome

  const RequestErrorPrefix := "Erro na requisição: "

  /** The message `f"Erro na requisição: {str(e)}"` for an exception `e`. */
  function RequestError(reason: string): Json
  {
    JString(RequestErrorPrefix + reason)
  }

  /** Python's name for the type of a parsed JSON value. */
  function PyTypeName(j: Json): string
  {
    match j
    case JNull => "NoneType"
    case JBool(_) => "bool"
    case JInt(_) => "int"
    case JFloat(_) => "float"
    case JString(_) => "str"
    case JArray(_) => "list"
    case JObject(_) => "dict"
  }

  /** `str(e)` for the AttributeError raised by `data.get(...)` when the body
      parsed to something other than a JSON object. */
  function NoGetAttribute(j: Json): string
  {
    "'" + PyTypeName(j) + "' object has no attribute 'get'"
  }

  // ---------------------------------------------------------------- ReceitaWS

  const ReceitaWsBase := "https://www.receitaws.com.br/v1/cnpj/"
  const CnpjLengthError := "CNPJ deve ter 14 dígitos"
  const ReceitaWsSource := "ReceitaWS"

  function ReceitaWsUrl(cnpj: string): string
  {
    ReceitaWsBase + Normalize(cnpj)
  }

  /** The lookup succeeds exactly when the status is 200 and the body is an
      object whose `status` is the string "OK". */
  predicate ReceitaWsAccepted(o: Outcome)
  {
    o.Resp? && o.code == 200 && o.body.Parsed? && o.body.json.JObject? &&
    Get(o.body.json.fields, "status") == Some(JString("OK"))
  }

  /** Whatever the values, the company record names its source and is not
      an error record. */
  lemma CompanyKeys(fonte: Json, cnpj: Json, razao: Json, fantasia: Json, situacao: Json, capital: Json,
                    endereco: Json, principal: Json, secundarias: Json, socios: Json, url: Json)
    ensures var fs := [ ("fonte", fonte), ("cnpj", cnpj), ("razao_social", razao), ("nome_fantasia", fantasia),
                        ("situacao", situacao), ("capital_social", capital), ("endereco", endereco),
                        ("atividade_principal", principal), ("atividades_secundarias", secundarias),
                        ("socios", socios), ("url_fonte", url) ];
      "fonte" in Keys(fs) && "erro" !in Keys(fs)
  {
    var fs := [ ("fonte", fonte), ("cnpj", cnpj), ("razao_social", razao), ("nome_fantasia", fantasia),
                ("situacao", situacao), ("capital_social", capital), ("endereco", endereco),
                ("atividade_principal", principal), ("atividades_secundarias", secundarias),
                ("socios", socios), ("url_fonte", url) ];
    assert Keys(fs)[0] == "fonte";
  }

  /** The company record built from an accepted body. */
  function ReceitaWsCompany(data: Fields, url: string): (r: Json)
    ensures r.JObject? && DistinctKeys(r.fields) && "fonte" in Keys(r.fields) && "erro" !in Keys(r.fields)
    ensures ("fonte", JString(ReceitaWsSource)) in r.fields
    ensures ("cnpj", GetOr(data, "cnpj", JNull)) in r.fields
    ensures ("razao_social", GetOr(data, "nome", JNull)) in r.fields
    ensures ("socios", GetOr(data, "qsa", JArray([]))) in r.fields
    ensures ("url_fonte", JString(url)) in r.fields
  {
    var fs :=
    [ ("fonte", JString(ReceitaWsSource)),
      ("cnpj", GetOr(data, "cnpj", JNull)),
      ("razao_social", GetOr(data, "nome", JNull)),
      ("nome_fantasia", GetOr(data, "fantasia", JNull)),
      ("situacao", GetOr(data, "situacao", JNull)),
      ("capital_social", GetOr(data, "capital_social", JNull)),
      ("endereco", JObject([
        ("logradouro", GetOr(data, "logradouro", JNull)),
        ("numero", GetOr(data, "numero", JNull)),
        ("bairro", GetOr(data, "bairro", JNull)),
        ("municipio", GetOr(data, "municipio", JNull)),
        ("uf", GetOr(data, "uf", JNull)),
        ("cep", GetOr(data, "cep", JNull))])),
      ("atividade_principal", GetOr(data, "atividade_principal", JArray([]))),
      ("atividades_secundarias", GetOr(data, "atividades_secundarias", JArray([]))),
      ("socios", GetOr(data, "qsa", JArray([]))),
      ("url_fonte", JString(url)) ];
    CompanyKeys(fs[0].1, fs[1].1, fs[2].1, fs[3].1, fs[4].1, fs[5].1, fs[6].1, fs[7].1, fs[8].1, fs[9].1, fs[10].1);
    JObject(fs)
  }

  const ReceitaWsFailure := "Erro na consulta"

  /** The record the ReceitaWS handler builds from what its GET of `url` gave
      back.  It always names the URL asked, and it is a company record exactly
      when the lookup was accepted, an error record otherwise. */
  function ReceitaWsReply(o: Outcome, url: string): (r: Json)
    ensures r.JObject?
    ensures ("url_fonte", JString(url)) in r.fields
    ensures "fonte" in Keys(r.fields) <==> ReceitaWsAccepted(o)
    ensures "erro" in Keys(r.fields) <==> !ReceitaWsAccepted(o)
    ensures ReceitaWsAccepted(o) ==>
      var data := o.body.json.fields;
      ("fonte", JString(ReceitaWsSource)) in r.fields &&
      ("cnpj", GetOr(data, "cnpj", JNull)) in r.fields &&
      ("razao_social", GetOr(data, "nome", JNull)) in r.fields &&
      ("socios", GetOr(data, "qsa", JArray([]))) in r.fields
    ensures ReceitaWsAccepted(o) ==> r == ReceitaWsCompany(o.body.json.fields, url)
    ensures !ReceitaWsAccepted(o) ==> Keys(r.fields) == ["erro", "url_fonte"]
    ensures o.Raised? ==> ("erro", RequestError(o.reason)) in r.fields
    ensures o.Resp? && o.body.Unparsable? ==> ("erro", RequestError(o.body.reason)) in r.fields
    ensures o.Resp? && o.body.Parsed? && !o.body.json.JObject? ==>
      ("erro", RequestError(NoGetAttribute(o.body.json))) in r.fields
    ensures !ReceitaWsAccepted(o) && o.Resp? && o.body.Parsed? && o.body.json.JObject? ==>
      ("erro", GetOr(o.body.json.fields, "message", JString(ReceitaWsFailure))) in r.fields
  {
    match o
    case Raised(e) => ReceitaWsError(RequestError(e), url)
    case Resp(_, Unparsable(e)) => ReceitaWsError(RequestError(e), url)
    case Resp(code, Parsed(data)) =>
      if !data.JObject? then
        // `data.get` is reached on both sides of the status test and raises.
        ReceitaWsError(RequestError(NoGetAttribute(data)), url)
      else if code == 200 && Get(data.fields, "status") == Some(JString("OK")) then
        ReceitaWsCompany(data.fields, url)
      else
        ReceitaWsError(GetOr(data.fields, "message", JString(ReceitaWsFailure)), url)
  }

  /** A ReceitaWS error record: the error and the URL asked, nothing else. */
  function ReceitaWsError(erro: Json, url: string): (r: Json)
    ensures r.JObject? && Keys(r.fields) == ["erro", "url_fonte"]
    ensures ("erro", erro) in r.fields && ("url_fonte", JString(url)) in r.fields
  {
    JObject([("erro", erro), ("url_fonte", JString(url))])
  }

  /** `consultar_cnpj_receitaws`.  A CNPJ that does not normalise to 14 digits
      is rejected with a one-key record and no request; otherwise the outcome
      of one GET of `ReceitaWsUrl(cnpj)` decides the record as
      `ReceitaWsReply` describes. */
  function ConsultarCnpjReceitaws(cnpj: string, net: Network): (r: Json)
    ensures r.JObject?
    ensures |Normalize(cnpj)| != 14 ==> r.fields == [("erro", JString(CnpjLengthError))]
    ensures |Normalize(cnpj)| == 14 ==> ("url_fonte", JString(ReceitaWsUrl(cnpj))) in r.fields
    ensures "fonte" in Keys(r.fields) <==>
      |Normalize(cnpj)| == 14 && ReceitaWsAccepted(net(ReceitaWsUrl(cnpj)))
    ensures "erro" in Keys(r.fields) <==> "fonte" !in Keys(r.fields)
    ensures |Normalize(cnpj)| == 14 ==> r == ReceitaWsReply(net(ReceitaWsUrl(cnpj)), ReceitaWsUrl(cnpj))
  {
    var digits := Normalize(cnpj);
    if |digits| != 14 then
      var r := [("erro", JString(CnpjLengthError))];
      assert Keys(r) == ["erro"];
      JObject(r)
    else
      var url := ReceitaWsBase + digits;
      ReceitaWsReply(net(url), url)
  }

  /** The only request the ReceitaWS handler can make is a GET of
      `ReceitaWsUrl(cnpj)`, and it makes none when the CNPJ is rejected:
      networks that agree on that URL give the same record. */
  lemma ReceitaWsRequest(cnpj: string, net1: Network, net2: Network)
    requires |Normalize(cnpj)| != 14 || net1(ReceitaWsUrl(cnpj)) == net2(ReceitaWsUrl(cnpj))
    ensures ConsultarCnpjReceitaws(cnpj, net1) == ConsultarCnpjReceitaws(cnpj, net2)
  {
  }

  // ---------------------------------------------------- Banco Central (BCB)

  const BcbSource := "Banco Central - Valores a Receber"
  const BcbNotJson := "Resposta recebida mas não é JSON válido"

  function BcbUrl(document: string): string
  {
    Address(BcbApi) + Normalize(document) + BcbDateSuffix
  }

  const StatusPrefix := "Status HTTP: "
  const BcbDateSuffix := "/1960-12-01"

  /** The record the BCB handler builds from what its GET of `url` gave back.
      Every branch names the URL asked and the portal; the record is an error
      exactly when no 200 response came back; a 200 response passes its
      parsed body through under `valores`, or notes that it was not JSON. */
  function BcbReply(o: Outcome, digits: string, url: string): (r: Json)
    ensures r.JObject? && DistinctKeys(r.fields)
    ensures ("url_fonte", JString(url)) in r.fields
    ensures ("url_portal", JString(Address(BcbValores))) in r.fields
    ensures "erro" in Keys(r.fields) <==> !(o.Resp? && o.code == 200)
    ensures o.Resp? && o.code == 200 ==>
      ("fonte", JString(BcbSource)) in r.fields && ("documento", JString(digits)) in r.fields
    ensures !(o.Resp? && o.code == 200) ==> Keys(r.fields) == ["erro", "url_fonte", "url_portal"]
    ensures "valores" in Keys(r.fields) <==> o.Resp? && o.code == 200 && o.body.Parsed?
    ensures "valores" in Keys(r.fields) ==> ("valores", o.body.json) in r.fields
    ensures o.Resp? && o.code == 200 && o.body.Unparsable? ==>
      ("status", JString(BcbNotJson)) in r.fields
    ensures o.Resp? && o.code != 200 ==>
      ("erro", JString(StatusPrefix + DecimalString(o.code))) in r.fields
    ensures o.Raised? ==> ("erro", RequestError(o.reason)) in r.fields
  {
    var portal := JString(Address(BcbValores));
    match o
    case Resp(200, Parsed(data)) =>
      var fs := [("fonte", JString(BcbSource)), ("documento", JString(digits)),
                 ("valores", data), ("url_fonte", JString(url)), ("url_portal", portal)];
      assert Keys(fs) == ["fonte", "documento", "valores", "url_fonte", "url_portal"];
      JObject(fs)
    case Resp(200, Unparsable(_)) =>
      var fs := [("fonte", JString(BcbSource)), ("documento", JString(digits)),
                 ("status", JString(BcbNotJson)), ("url_fonte", JString(url)), ("url_portal", portal)];
      assert Keys(fs) == ["fonte", "documento", "status", "url_fonte", "url_portal"];
      JObject(fs)
    case Resp(code, _) =>
      var fs := [("erro", JString(StatusPrefix + DecimalString(code))),
                 ("url_fonte", JString(url)), ("url_portal", portal)];
      assert Keys(fs) == ["erro", "url_fonte", "url_portal"];
      JObject(fs)
    case Raised(e) =>
      var fs := [("erro", RequestError(e)), ("url_fonte", JString(url)), ("url_portal", portal)];
      assert Keys(fs) == ["erro", "url_fonte", "url_portal"];
      JObject(fs)
  }

  /** `consultar_valores_receber_bcb`: one GET of `BcbUrl(document)`, whose
      outcome decides the record as `BcbReply` describes; the echoed document
      is the normalised one. */
  function ConsultarValoresReceberBcb(document: string, net: Network): (r: Json)
    ensures r.JObject?
    ensures ("url_fonte", JString(BcbUrl(document))) in r.fields
    ensures "erro" in Keys(r.fields) <==>
      !(net(BcbUrl(document)).Resp? && net(BcbUrl(document)).code == 200)
    ensures net(BcbUrl(document)).Resp? && net(BcbUrl(document)).code == 200 ==>
      ("documento", JString(Normalize(document))) in r.fields
    ensures "valores" in Keys(r.fields) <==>
      net(BcbUrl(document)).Resp? && net(BcbUrl(document)).code == 200 &&
      net(BcbUrl(document)).body.Parsed?
    ensures "valores" in Keys(r.fields) ==> ("valores", net(BcbUrl(document)).body.json) in r.fields
    ensures ("url_portal", JString(Address(BcbValores))) in r.fields
    ensures r == BcbReply(net(BcbUrl(document)), Normalize(document), BcbUrl(document))
  {
    var digits := Normalize(document);
    var url := Address(BcbApi) + digits + BcbDateSuffix;
    BcbReply(net(url), digits, url)
  }

  /** The BCB handler's one request is a GET of `BcbUrl(document)`. */
  lemma BcbRequest(document: string, net1: Network, net2: Network)
    requires net1(BcbUrl(document)) == net2(BcbUrl(document))
    ensures ConsultarValoresReceberBcb(document, net1) == ConsultarValoresReceberBcb(document, net2)
  {
  }

  /** The status code in a BCB error record can be read back from it. */
  lemma {:induction false} BcbStatusReadable(document: string, net: Network)
    requires net(BcbUrl(document)).Resp?
    requires net(BcbUrl(document)).code >= 0 && net(BcbUrl(document)).code != 200
    ensures var erro := StatusPrefix + NatDigits(net(BcbUrl(document)).code);
      ("erro", JString(erro)) in ConsultarValoresReceberBcb(document, net).fields &&
      AllDigits(erro[|StatusPrefix|..]) && DecimalValue(erro[|StatusPrefix|..]) == net(BcbUrl(document)).code
  {
    var code := net(BcbUrl(document)).code;
    var erro := StatusPrefix + NatDigits(code);
    assert erro[|StatusPrefix|..] == NatDigits(code);
    DecimalRoundTrip(code);
  }
}
