/** `listar_fontes_dados_abertos` and `listar_ferramentas_osint`: constant
    listings of open-data catalogs and OSINT tools, each entry with its URL
    from the registry. */
module Listings {
  import opened Json
  import opened Registry

  /** One listed entry: (dict key, `nome`, registry entry holding its `url`,
      `descricao`). */
  type CatalogEntry = (string, string, SourceKey, string)

  const OpenDataCatalog: seq<CatalogEntry> := [
    ("dados_gov", "Dados.gov.br", DadosGov, "Portal oficial de dados abertos do governo federal"),
    ("brasil_io", "Brasil.io", BrasilIo, "Datasets organizados sobre o Brasil"),
    ("ibict_dados", "IBICT Dados", IbictDados, "Instituto Brasileiro de Informação em Ciência e Tecnologia"),
    ("bcb_dados", "BCB Dados Abertos", BcbDados, "Dados abertos do Banco Central do Brasil"),
    ("turismo_dados", "Dados Turismo", TurismoDados, "Dados do Ministério do Turismo"),
    ("mj_dados", "Dados MJ", MjDados, "Dados do Ministério da Justiça"),
    ("sc_dados", "Dados SC", ScDados, "Dados abertos do estado de Santa Catarina")
  ]

  const OsintToolCatalog: seq<CatalogEntry> := [
    ("scan_user", "Scan User", ScanUserRepo, "Ferramenta para scan de usuários"),
    ("osint_brasil", "OSINT Kit Brasil", OsintBrasilRepo, "Kit de ferramentas OSINT focado no Brasil"),
    ("omnisci_demo", "OmniSci Tweet Map", OmnisciDemo, "Demo de visualização de dados de tweets")
  ]

  function CatalogFields(catalog: seq<CatalogEntry>): (fs: Fields)
    ensures |fs| == |catalog|
    ensures forall i :: 0 <= i < |catalog| ==>
      fs[i].0 == catalog[i].0 && fs[i].1.JObject? &&
      ("url", JString(Address(catalog[i].2))) in fs[i].1.fields
  {
    seq(|catalog|, i requires 0 <= i < |catalog| =>
      (catalog[i].0, JObject([("nome", JString(catalog[i].1)),
                              ("url", JString(Address(catalog[i].2))),
                              ("descricao", JString(catalog[i].3))])))
  }

  /** A listing record: its `fonte`, the entries, and their count. */
  function Listing(fonte: string, listKey: string, totalKey: string, catalog: seq<CatalogEntry>): Json
  {
    var entries := CatalogFields(catalog);
    JObject([("fonte", JString(fonte)), (listKey, JObject(entries)), (totalKey, JInt(|entries|))])
  }

  /** `listar_fontes_dados_abertos`: seven distinct catalogs, each with its
      URL from the registry, and a total that counts what is listed. */
  function ListarFontesDadosAbertos(): (r: Json)
    ensures r.JObject? && |r.fields| == 3
    ensures r.fields[0] == ("fonte", JString("Repositórios de Dados Abertos"))
    ensures r.fields[1].0 == "fontes_disponiveis" && r.fields[1].1.JObject?
    ensures var listed := r.fields[1].1.fields;
      |listed| == 7 &&
      Keys(listed) == ["dados_gov", "brasil_io", "ibict_dados", "bcb_dados",
                       "turismo_dados", "mj_dados", "sc_dados"] &&
      r.fields[2] == ("total_fontes", JInt(|listed|)) &&
      forall i :: 0 <= i < |listed| ==>
        listed[i].1.JObject? && ("url", JString(Address(OpenDataCatalog[i].2))) in listed[i].1.fields
  {
    Listing("Repositórios de Dados Abertos", "fontes_disponiveis", "total_fontes", OpenDataCatalog)
  }

  /** `listar_ferramentas_osint`: three distinct tools, each with its URL from
      the registry, and a total that counts what is listed. */
  function ListarFerramentasOsint(): (r: Json)
    ensures r.JObject? && |r.fields| == 3
    ensures r.fields[0] == ("fonte", JString("Ferramentas OSINT"))
    ensures r.fields[1].0 == "ferramentas_disponiveis" && r.fields[1].1.JObject?
    ensures var listed := r.fields[1].1.fields;
      |listed| == 3 &&
      Keys(listed) == ["scan_user", "osint_brasil", "omnisci_demo"] &&
      r.fields[2] == ("total_ferramentas", JInt(|listed|)) &&
      forall i :: 0 <= i < |listed| ==>
        listed[i].1.JObject? && ("url", JString(Address(OsintToolCatalog[i].2))) in listed[i].1.fields
  {
    Listing("Ferramentas OSINT", "ferramentas_disponiveis", "total_ferramentas", OsintToolCatalog)
  }

  /** No catalog is listed twice. */
  lemma OpenDataListingDistinct()
    ensures ListarFontesDadosAbertos().fields[1].1.JObject?
    ensures DistinctKeys(ListarFontesDadosAbertos().fields[1].1.fields)
  {
    var listed := ListarFontesDadosAbertos().fields[1].1.fields;
    assert Keys(listed) == ["dados_gov", "brasil_io", "ibict_dados", "bcb_dados",
                            "turismo_dados", "mj_dados", "sc_dados"];
  }

  /** No tool is listed twice. */
  lemma OsintListingDistinct()
    ensures ListarFerramentasOsint().fields[1].1.JObject?
    ensures DistinctKeys(ListarFerramentasOsint().fields[1].1.fields)
  {
    var listed := ListarFerramentasOsint().fields[1].1.fields;
    assert Keys(listed) == ["scan_user", "osint_brasil", "omnisci_demo"];
  }
}
