/** The `consultar_*` handlers that make no request: each returns a fixed
    record that echoes its argument and points at the portal where the lookup
    has to be done by hand. */
module Manual {
  import opened Json
  import opened Identifier
  import opened Registry

  const ManualStatus := "Consulta manual necessária"

  const TransparenciaStatus := "Consulta estruturada - implementar com API oficial"

  /** `consultar_portal_transparencia`: echoes the search term as given and
      the subject kind; never an error.  (Its `except` branch cannot be
      reached: building a literal record from present keys does not raise.) */
  function ConsultarPortalTransparencia(termo: string, tipo: string): (r: Json)
    ensures r.JObject? && "erro" !in Keys(r.fields)
    ensures ("fonte", JString(TransparenciaSource)) in r.fields && ("observacao", JString(TransparenciaNote)) in r.fields
    ensures ("termo_busca", JString(termo)) in r.fields && ("tipo", JString(tipo)) in r.fields
    ensures ("status", JString(TransparenciaStatus)) in r.fields && ("status", JString(ManualStatus)) !in r.fields
    ensures ("url_portal", JString(Address(PortalTransparencia))) in r.fields
  {
    JObject([
      ("fonte", JString(TransparenciaSource)),
      ("termo_busca", JString(termo)),
      ("tipo", JString(tipo)),
      ("status", JString(TransparenciaStatus)),
      ("url_portal", JString(Address(PortalTransparencia))),
      ("observacao", JString(TransparenciaNote))])
  }

  /** `consultar_caixa_beneficios`: echoes the normalised CPF. */
  function ConsultarCaixaBeneficios(cpf: string): (r: Json)
    ensures r.JObject? && "erro" !in Keys(r.fields)
    ensures ("fonte", JString(CaixaSource)) in r.fields && ("observacao", JString(CaixaNote)) in r.fields
    ensures ("cpf", JString(Normalize(cpf))) in r.fields
    ensures ("status", JString(ManualStatus)) in r.fields
    ensures ("url_programas", JString(Address(CaixaProgramas))) in r.fields
    ensures ("url_beneficios", JString(Address(CaixaBeneficios))) in r.fields
  {
    JObject([
      ("fonte", JString(CaixaSource)),
      ("cpf", JString(Normalize(cpf))),
      ("status", JString(ManualStatus)),
      ("url_programas", JString(Address(CaixaProgramas))),
      ("url_beneficios", JString(Address(CaixaBeneficios))),
      ("observacao", JString(CaixaNote))])
  }

  /** `consultar_auxilio_emergencial`: echoes the normalised CPF. */
  function ConsultarAuxilioEmergencial(cpf: string): (r: Json)
    ensures r.JObject? && "erro" !in Keys(r.fields)
    ensures ("fonte", JString(AuxilioSource)) in r.fields && ("observacao", JString(AuxilioNote)) in r.fields
    ensures ("cpf", JString(Normalize(cpf))) in r.fields
    ensures ("status", JString(ManualStatus)) in r.fields
    ensures ("url_consulta", JString(Address(AuxilioEmergencial))) in r.fields
  {
    JObject([
      ("fonte", JString(AuxilioSource)),
      ("cpf", JString(Normalize(cpf))),
      ("status", JString(ManualStatus)),
      ("url_consulta", JString(Address(AuxilioEmergencial))),
      ("observacao", JString(AuxilioNote))])
  }

  /** `consultar_receita_federal`: the company portal when `tipo` is "cnpj",
      the person portal otherwise; echoes the normalised document. */
  function ConsultarReceitaFederal(documento: string, tipo: string): (r: Json)
    ensures r.JObject? && "erro" !in Keys(r.fields)
    ensures ("fonte", JString(ReceitaSource)) in r.fields && ("observacao", JString(ReceitaNote)) in r.fields
    ensures ("documento", JString(Normalize(documento))) in r.fields
    ensures ("tipo", JString(tipo)) in r.fields
    ensures ("status", JString(ManualStatus)) in r.fields
    ensures tipo == "cnpj" ==> ("url_consulta", JString(Address(ReceitaCnpjOficial))) in r.fields
    ensures tipo != "cnpj" ==> ("url_consulta", JString(Address(ReceitaCpf))) in r.fields
  {
    var urlConsulta := if tipo == "cnpj" then Address(ReceitaCnpjOficial) else Address(ReceitaCpf);
    JObject([
      ("fonte", JString(ReceitaSource)),
      ("documento", JString(Normalize(documento))),
      ("tipo", JString(tipo)),
      ("status", JString(ManualStatus)),
      ("url_consulta", JString(urlConsulta)),
      ("observacao", JString(ReceitaNote))])
  }

  /** `consultar_sp_policia_rg`: echoes the RG as given. */
  function ConsultarSpPoliciaRg(rg: string): (r: Json)
    ensures r.JObject? && "erro" !in Keys(r.fields)
    ensures ("fonte", JString(SpPoliciaSource)) in r.fields && ("observacao", JString(SpPoliciaNote)) in r.fields
    ensures ("rg", JString(rg)) in r.fields
    ensures ("status", JString(ManualStatus)) in r.fields
    ensures ("url_consulta", JString(Address(SpPoliciaRg))) in r.fields
  {
    JObject([
      ("fonte", JString(SpPoliciaSource)),
      ("rg", JString(rg)),
      ("status", JString(ManualStatus)),
      ("url_consulta", JString(Address(SpPoliciaRg))),
      ("observacao", JString(SpPoliciaNote))])
  }

  /** `consultar_sp_transparencia`: echoes the name as given. */
  function ConsultarSpTransparencia(nome: string): (r: Json)
    ensures r.JObject? && "erro" !in Keys(r.fields)
    ensures ("fonte", JString(SpTransparenciaSource)) in r.fields && ("observacao", JString(SpTransparenciaNote)) in r.fields
    ensures ("nome", JString(nome)) in r.fields
    ensures ("status", JString(ManualStatus)) in r.fields
    ensures ("url_consulta", JString(Address(SpTransparencia))) in r.fields
  {
    JObject([
      ("fonte", JString(SpTransparenciaSource)),
      ("nome", JString(nome)),
      ("status", JString(ManualStatus)),
      ("url_consulta", JString(Address(SpTransparencia))),
      ("observacao", JString(SpTransparenciaNote))])
  }

  const SinespStatus := "Aplicativo necessário"

  /** `consultar_sinesp_cidadao`: the one placeholder whose status asks for
      the mobile app rather than a manual lookup; echoes the plate as given. */
  function ConsultarSinespCidadao(placa: string): (r: Json)
    ensures r.JObject? && "erro" !in Keys(r.fields)
    ensures ("fonte", JString(SinespSource)) in r.fields && ("observacao", JString(SinespNote)) in r.fields
    ensures ("placa", JString(placa)) in r.fields
    ensures ("status", JString(SinespStatus)) in r.fields
    ensures ("status", JString(ManualStatus)) !in r.fields
    ensures ("url_info", JString(Address(SinespCidadao))) in r.fields
  {
    JObject([
      ("fonte", JString(SinespSource)),
      ("placa", JString(placa)),
      ("status", JString(SinespStatus)),
      ("url_info", JString(Address(SinespCidadao))),
      ("observacao", JString(SinespNote))])
  }

  /** `consultar_falecidos_brasil`: echoes the name as given. */
  function ConsultarFalecidosBrasil(nome: string): (r: Json)
    ensures r.JObject? && "erro" !in Keys(r.fields)
    ensures ("fonte", JString(FalecidosSource)) in r.fields && ("observacao", JString(FalecidosNote)) in r.fields
    ensures ("nome", JString(nome)) in r.fields
    ensures ("status", JString(ManualStatus)) in r.fields
    ensures ("url_consulta", JString(Address(FalecidosBrasil))) in r.fields
  {
    JObject([
      ("fonte", JString(FalecidosSource)),
      ("nome", JString(nome)),
      ("status", JString(ManualStatus)),
      ("url_consulta", JString(Address(FalecidosBrasil))),
      ("observacao", JString(FalecidosNote))])
  }

  /** `consultar_pessoa_desaparecida`: echoes the name as given. */
  function ConsultarPessoaDesaparecida(nome: string): (r: Json)
    ensures r.JObject? && "erro" !in Keys(r.fields)
    ensures ("fonte", JString(DesaparecidaSource)) in r.fields && ("observacao", JString(DesaparecidaNote)) in r.fields
    ensures ("nome", JString(nome)) in r.fields
    ensures ("status", JString(ManualStatus)) in r.fields
    ensures ("url_consulta", JString(Address(PessoaDesaparecida))) in r.fields
  {
    JObject([
      ("fonte", JString(DesaparecidaSource)),
      ("nome", JString(nome)),
      ("status", JString(ManualStatus)),
      ("url_consulta", JString(Address(PessoaDesaparecida))),
      ("observacao", JString(DesaparecidaNote))])
  }

  /** `consultar_detran_pr`: echoes the query as given. */
  function ConsultarDetranPr(info: string): (r: Json)
    ensures r.JObject? && "erro" !in Keys(r.fields)
    ensures ("fonte", JString(DetranSource)) in r.fields && ("observacao", JString(DetranNote)) in r.fields
    ensures ("info", JString(info)) in r.fields
    ensures ("status", JString(ManualStatus)) in r.fields
    ensures ("url_consulta", JString(Address(DetranPr))) in r.fields
  {
    JObject([
      ("fonte", JString(DetranSource)),
      ("info", JString(info)),
      ("status", JString(ManualStatus)),
      ("url_consulta", JString(Address(DetranPr))),
      ("observacao", JString(DetranNote))])
  }

  /** `consultar_procon_pr`: echoes the company name as given (no query type
      reaches it). */
  function ConsultarProconPr(empresa: string): (r: Json)
    ensures r.JObject? && "erro" !in Keys(r.fields)
    ensures ("fonte", JString(ProconSource)) in r.fields && ("observacao", JString(ProconNote)) in r.fields
    ensures ("empresa", JString(empresa)) in r.fields
    ensures ("status", JString(ManualStatus)) in r.fields
    ensures ("url_consulta", JString(Address(ProconPr))) in r.fields
  {
    JObject([
      ("fonte", JString(ProconSource)),
      ("empresa", JString(empresa)),
      ("status", JString(ManualStatus)),
      ("url_consulta", JString(Address(ProconPr))),
      ("observacao", JString(ProconNote))])
  }

  // The fixed `fonte` and `observacao` texts of the reference-only handlers.
  // Every placeholder record is a dict with a fixed key list: the keys of
  // its literal, in order, none of them twice.

  lemma PortalTransparenciaKeys(termo: string, tipo: string)
    ensures ConsultarPortalTransparencia(termo, tipo).JObject?
    ensures var fs := ConsultarPortalTransparencia(termo, tipo).fields;
      Keys(fs) == ["fonte", "termo_busca", "tipo", "status", "url_portal", "observacao"] && DistinctKeys(fs)
  {
    var fs := ConsultarPortalTransparencia(termo, tipo).fields;
    SixKeys("fonte", "termo_busca", "tipo", "status", "url_portal", "observacao",
      fs[0].1, fs[1].1, fs[2].1, fs[3].1, fs[4].1, fs[5].1);
  }

  lemma CaixaBeneficiosKeys(cpf: string)
    ensures ConsultarCaixaBeneficios(cpf).JObject?
    ensures var fs := ConsultarCaixaBeneficios(cpf).fields;
      Keys(fs) == ["fonte", "cpf", "status", "url_programas", "url_beneficios", "observacao"] && DistinctKeys(fs)
  {
    var fs := ConsultarCaixaBeneficios(cpf).fields;
    SixKeys("fonte", "cpf", "status", "url_programas", "url_beneficios", "observacao",
      fs[0].1, fs[1].1, fs[2].1, fs[3].1, fs[4].1, fs[5].1);
  }

  lemma AuxilioEmergencialKeys(cpf: string)
    ensures ConsultarAuxilioEmergencial(cpf).JObject?
    ensures var fs := ConsultarAuxilioEmergencial(cpf).fields;
      Keys(fs) == ["fonte", "cpf", "status", "url_consulta", "observacao"] && DistinctKeys(fs)
  {
    var fs := ConsultarAuxilioEmergencial(cpf).fields;
    FiveKeys("fonte", "cpf", "status", "url_consulta", "observacao",
      fs[0].1, fs[1].1, fs[2].1, fs[3].1, fs[4].1);
  }

  lemma ReceitaFederalKeys(documento: string, tipo: string)
    ensures ConsultarReceitaFederal(documento, tipo).JObject?
    ensures var fs := ConsultarReceitaFederal(documento, tipo).fields;
      Keys(fs) == ["fonte", "documento", "tipo", "status", "url_consulta", "observacao"] && DistinctKeys(fs)
  {
    var fs := ConsultarReceitaFederal(documento, tipo).fields;
    SixKeys("fonte", "documento", "tipo", "status", "url_consulta", "observacao",
      fs[0].1, fs[1].1, fs[2].1, fs[3].1, fs[4].1, fs[5].1);
  }

  lemma SpPoliciaRgKeys(rg: string)
    ensures ConsultarSpPoliciaRg(rg).JObject?
    ensures var fs := ConsultarSpPoliciaRg(rg).fields;
      Keys(fs) == ["fonte", "rg", "status", "url_consulta", "observacao"] && DistinctKeys(fs)
  {
    var fs := ConsultarSpPoliciaRg(rg).fields;
    FiveKeys("fonte", "rg", "status", "url_consulta", "observacao",
      fs[0].1, fs[1].1, fs[2].1, fs[3].1, fs[4].1);
  }

  lemma SpTransparenciaKeys(nome: string)
    ensures ConsultarSpTransparencia(nome).JObject?
    ensures var fs := ConsultarSpTransparencia(nome).fields;
      Keys(fs) == ["fonte", "nome", "status", "url_consulta", "observacao"] && DistinctKeys(fs)
  {
    var fs := ConsultarSpTransparencia(nome).fields;
    FiveKeys("fonte", "nome", "status", "url_consulta", "observacao",
      fs[0].1, fs[1].1, fs[2].1, fs[3].1, fs[4].1);
  }

  lemma SinespCidadaoKeys(placa: string)
    ensures ConsultarSinespCidadao(placa).JObject?
    ensures var fs := ConsultarSinespCidadao(placa).fields;
      Keys(fs) == ["fonte", "placa", "status", "url_info", "observacao"] && DistinctKeys(fs)
  {
    var fs := ConsultarSinespCidadao(placa).fields;
    FiveKeys("fonte", "placa", "status", "url_info", "observacao",
      fs[0].1, fs[1].1, fs[2].1, fs[3].1, fs[4].1);
  }

  lemma FalecidosBrasilKeys(nome: string)
    ensures ConsultarFalecidosBrasil(nome).JObject?
    ensures var fs := ConsultarFalecidosBrasil(nome).fields;
      Keys(fs) == ["fonte", "nome", "status", "url_consulta", "observacao"] && DistinctKeys(fs)
  {
    var fs := ConsultarFalecidosBrasil(nome).fields;
    FiveKeys("fonte", "nome", "status", "url_consulta", "observacao",
      fs[0].1, fs[1].1, fs[2].1, fs[3].1, fs[4].1);
  }

  lemma PessoaDesaparecidaKeys(nome: string)
    ensures ConsultarPessoaDesaparecida(nome).JObject?
    ensures var fs := ConsultarPessoaDesaparecida(nome).fields;
      Keys(fs) == ["fonte", "nome", "status", "url_consulta", "observacao"] && DistinctKeys(fs)
  {
    var fs := ConsultarPessoaDesaparecida(nome).fields;
    FiveKeys("fonte", "nome", "status", "url_consulta", "observacao",
      fs[0].1, fs[1].1, fs[2].1, fs[3].1, fs[4].1);
  }

  lemma DetranPrKeys(info: string)
    ensures ConsultarDetranPr(info).JObject?
    ensures var fs := ConsultarDetranPr(info).fields;
      Keys(fs) == ["fonte", "info", "status", "url_consulta", "observacao"] && DistinctKeys(fs)
  {
    var fs := ConsultarDetranPr(info).fields;
    FiveKeys("fonte", "info", "status", "url_consulta", "observacao",
      fs[0].1, fs[1].1, fs[2].1, fs[3].1, fs[4].1);
  }

  lemma ProconPrKeys(empresa: string)
    ensures ConsultarProconPr(empresa).JObject?
    ensures var fs := ConsultarProconPr(empresa).fields;
      Keys(fs) == ["fonte", "empresa", "status", "url_consulta", "observacao"] && DistinctKeys(fs)
  {
    var fs := ConsultarProconPr(empresa).fields;
    FiveKeys("fonte", "empresa", "status", "url_consulta", "observacao",
      fs[0].1, fs[1].1, fs[2].1, fs[3].1, fs[4].1);
  }

  const TransparenciaSource := "Portal da Transparência"
  const TransparenciaNote := "Acessar manualmente o portal para consultas específicas"
  const CaixaSource := "Caixa Econômica Federal - Benefícios Sociais"
  const CaixaNote := "Acessar os portais da Caixa para consulta manual"
  const AuxilioSource := "Auxílio Emergencial - Ministério da Cidadania"
  const AuxilioNote := "Acessar o portal para consulta manual do auxílio"
  const ReceitaSource := "Receita Federal do Brasil"
  const ReceitaNote := "Acessar o portal da Receita Federal para consulta oficial"
  const SpPoliciaSource := "Polícia Civil de São Paulo"
  const SpPoliciaNote := "Acessar o portal da Polícia Civil de SP para consulta do RG"
  const SpTransparenciaSource := "Transparência São Paulo - Servidores"
  const SpTransparenciaNote := "Acessar o portal para consulta de servidores públicos de SP"
  const SinespSource := "SINESP Cidadão"
  const SinespNote := "Baixar o aplicativo SINESP Cidadão para consultas"
  const FalecidosSource := "Falecidos no Brasil"
  const FalecidosNote := "Acessar o site para consulta de registros de óbito"
  const DesaparecidaSource := "Consulta Pessoa Desaparecida - Gov.br"
  const DesaparecidaNote := "Acessar o portal gov.br para consulta de pessoas desaparecidas"
  const DetranSource := "DETRAN Paraná"
  const DetranNote := "Acessar o portal do DETRAN-PR para consultas veiculares"
  const ProconSource := "PROCON Paraná"
  const ProconNote := "Acessar o portal do PROCON-PR para consultas sobre reclamações"
}
