/** The table of source URLs (`PatrimonioConsultor.urls`), set once when the
    consultor is created and never changed afterwards: a constant here. */
module Registry {
  import opened Json

  datatype SourceKey =
    | CaixaProgramas | CaixaBeneficios | AuxilioEmergencial | ReceitaCnpj
    | BcbValores | BcbApi | OmnisciDemo | ScanUserRepo | OsintBrasilRepo
    | DadosGov | BrasilIo | IbictDados | BcbDados | TurismoDados | MjDados
    | ScDados | SpPoliciaRg | SpTransparencia | ReceitaCnpjOficial | ReceitaCpf
    | SinespCidadao | FalecidosBrasil | PessoaDesaparecida | PortalTransparencia
    | JuntasComerciais | BcbOficial | DetranPr | ProconPr

  /** The dict key under which the URL is stored. */
  function Name(k: SourceKey): string
  {
    match k
    case CaixaProgramas => "caixa_programas"
    case CaixaBeneficios => "caixa_beneficios"
    case AuxilioEmergencial => "auxilio_emergencial"
    case ReceitaCnpj => "receita_cnpj"
    case BcbValores => "bcb_valores"
    case BcbApi => "bcb_api"
    case OmnisciDemo => "omnisci_demo"
    case ScanUserRepo => "scan_user_repo"
    case OsintBrasilRepo => "osint_brasil_repo"
    case DadosGov => "dados_gov"
    case BrasilIo => "brasil_io"
    case IbictDados => "ibict_dados"
    case BcbDados => "bcb_dados"
    case TurismoDados => "turismo_dados"
    case MjDados => "mj_dados"
    case ScDados => "sc_dados"
    case SpPoliciaRg => "sp_policia_rg"
    case SpTransparencia => "sp_transparencia"
    case ReceitaCnpjOficial => "receita_cnpj_oficial"
    case ReceitaCpf => "receita_cpf"
    case SinespCidadao => "sinesp_cidadao"
    case FalecidosBrasil => "falecidos_brasil"
    case PessoaDesaparecida => "pessoa_desaparecida"
    case PortalTransparencia => "portal_transparencia"
    case JuntasComerciais => "juntas_comerciais"
    case BcbOficial => "bcb_oficial"
    case DetranPr => "detran_pr"
    case ProconPr => "procon_pr"
  }

  // The URLs, one constant each.
  const UrlCaixaProgramas := "https://www.caixa.gov.br/programas-sociais/Paginas/default.aspx"
  const UrlCaixaBeneficios := "https://www.beneficiossociais.caixa.gov.br/consulta/beneficio/04.01.00-00_00.asp"
  const UrlAuxilioEmergencial := "https://consultaauxilio.cidadania.gov.br/consulta/#/"
  const UrlReceitaCnpj := "http://www.receita.fazenda.gov.br/PessoaJuridica/CNPJ/cnpjreva/Cnpjreva_Solicitacao.asp"
  const UrlBcbValores := "https://valoresareceber.bcb.gov.br/publico/"
  const UrlBcbApi := "https://valoresareceber.bcb.gov.br/publico/rest/valoresAReceber/"
  const UrlOmnisciDemo := "https://www.omnisci.com/demos/tweetmap"
  const UrlScanUserRepo := "https://github.com/faciltech/scan-user"
  const UrlOsintBrasilRepo := "https://github.com/felipeluan20/OSINTKit-Brasil"
  const UrlDadosGov := "https://dados.gov.br/home"
  const UrlBrasilIo := "https://brasil.io/datasets/"
  const UrlIbictDados := "https://dados.ibict.br/dataset"
  const UrlBcbDados := "https://dadosabertos.bcb.gov.br/dataset"
  const UrlTurismoDados := "https://dados.turismo.gov.br/dataset/"
  const UrlMjDados := "https://dados.mj.gov.br/dataset"
  const UrlScDados := "https://dados.sc.gov.br/"
  const UrlSpPoliciaRg := "https://www.policiacivil.sp.gov.br/portal/faces/pages_home/servicos/consultaSituacaoRG"
  const UrlSpTransparencia := "https://www.transparencia.sp.gov.br/home/servidor"
  const UrlReceitaCnpjOficial := "https://solucoes.receita.fazenda.gov.br/servicos/cnpjreva/cnpjreva_solicitacao.asp"
  const UrlReceitaCpf := "https://servicos.receita.fazenda.gov.br/Servicos/CPF/ConsultaSituacao/ConsultaPublica.asp"
  const UrlSinespCidadao := "https://www.gov.br/pt-br/apps/sinesp-cidadao"
  const UrlFalecidosBrasil := "https://www.falecidosnobrasil.org.br/index.php"
  const UrlPessoaDesaparecida := "https://www.gov.br/pt-br/servicos/consultar-pessoa-desaparecida"
  const UrlPortalTransparencia := "https://portaldatransparencia.gov.br/"
  const UrlJuntasComerciais := "https://www.gov.br/empresas-e-negocios/pt-br/drei/juntas-comerciais"
  const UrlBcbOficial := "https://www.bcb.gov.br/"
  const UrlDetranPr := "https://www.detran.pr.gov.br/"
  const UrlProconPr := "https://www.procon.pr.gov.br/"

  /** The URL stored under the key. */
  function Address(k: SourceKey): string
  {
    match k
    case CaixaProgramas => UrlCaixaProgramas
    case CaixaBeneficios => UrlCaixaBeneficios
    case AuxilioEmergencial => UrlAuxilioEmergencial
    case ReceitaCnpj => UrlReceitaCnpj
    case BcbValores => UrlBcbValores
    case BcbApi => UrlBcbApi
    case OmnisciDemo => UrlOmnisciDemo
    case ScanUserRepo => UrlScanUserRepo
    case OsintBrasilRepo => UrlOsintBrasilRepo
    case DadosGov => UrlDadosGov
    case BrasilIo => UrlBrasilIo
    case IbictDados => UrlIbictDados
    case BcbDados => UrlBcbDados
    case TurismoDados => UrlTurismoDados
    case MjDados => UrlMjDados
    case ScDados => UrlScDados
    case SpPoliciaRg => UrlSpPoliciaRg
    case SpTransparencia => UrlSpTransparencia
    case ReceitaCnpjOficial => UrlReceitaCnpjOficial
    case ReceitaCpf => UrlReceitaCpf
    case SinespCidadao => UrlSinespCidadao
    case FalecidosBrasil => UrlFalecidosBrasil
    case PessoaDesaparecida => UrlPessoaDesaparecida
    case PortalTransparencia => UrlPortalTransparencia
    case JuntasComerciais => UrlJuntasComerciais
    case BcbOficial => UrlBcbOficial
    case DetranPr => UrlDetranPr
    case ProconPr => UrlProconPr
  }

  /** The insertion order of the dict literal. */
  const RegistryOrder: seq<SourceKey> := [
    CaixaProgramas, CaixaBeneficios, AuxilioEmergencial, ReceitaCnpj,
    BcbValores, BcbApi, OmnisciDemo, ScanUserRepo, OsintBrasilRepo,
    DadosGov, BrasilIo, IbictDados, BcbDados, TurismoDados, MjDados,
    ScDados, SpPoliciaRg, SpTransparencia, ReceitaCnpjOficial, ReceitaCpf,
    SinespCidadao, FalecidosBrasil, PessoaDesaparecida, PortalTransparencia,
    JuntasComerciais, BcbOficial, DetranPr, ProconPr
  ]

  /** Every entry of the registry appears in its insertion order. */
  lemma {:induction false} InRegistryOrder(k: SourceKey)
    ensures k in RegistryOrder
  {
    match k
    case CaixaProgramas => assert RegistryOrder[0] == k;
    case CaixaBeneficios => assert RegistryOrder[1] == k;
    case AuxilioEmergencial => assert RegistryOrder[2] == k;
    case ReceitaCnpj => assert RegistryOrder[3] == k;
    case BcbValores => assert RegistryOrder[4] == k;
    case BcbApi => assert RegistryOrder[5] == k;
    case OmnisciDemo => assert RegistryOrder[6] == k;
    case ScanUserRepo => assert RegistryOrder[7] == k;
    case OsintBrasilRepo => assert RegistryOrder[8] == k;
    case DadosGov => assert RegistryOrder[9] == k;
    case BrasilIo => assert RegistryOrder[10] == k;
    case IbictDados => assert RegistryOrder[11] == k;
    case BcbDados => assert RegistryOrder[12] == k;
    case TurismoDados => assert RegistryOrder[13] == k;
    case MjDados => assert RegistryOrder[14] == k;
    case ScDados => assert RegistryOrder[15] == k;
    case SpPoliciaRg => assert RegistryOrder[16] == k;
    case SpTransparencia => assert RegistryOrder[17] == k;
    case ReceitaCnpjOficial => assert RegistryOrder[18] == k;
    case ReceitaCpf => assert RegistryOrder[19] == k;
    case SinespCidadao => assert RegistryOrder[20] == k;
    case FalecidosBrasil => assert RegistryOrder[21] == k;
    case PessoaDesaparecida => assert RegistryOrder[22] == k;
    case PortalTransparencia => assert RegistryOrder[23] == k;
    case JuntasComerciais => assert RegistryOrder[24] == k;
    case BcbOficial => assert RegistryOrder[25] == k;
    case DetranPr => assert RegistryOrder[26] == k;
    case ProconPr => assert RegistryOrder[27] == k;
  }

  /** The first of `order` whose name is `name`. */
  function Find(order: seq<SourceKey>, name: string): (r: Option<SourceKey>)
    ensures r.Some? ==> r.value in order && Name(r.value) == name
    ensures r.None? ==> forall k :: k in order ==> Name(k) != name
  {
    if order == [] then None
    else if Name(order[0]) == name then Some(order[0])
    else Find(order[1..], name)
  }

  /** `self.urls[name]`: the URL stored under `name`, or None where Python
      would raise KeyError. */
  function Lookup(name: string): (r: Option<string>)
    ensures r.None? <==> forall k :: Name(k) != name
    ensures r.Some? ==> exists k :: Name(k) == name && r.value == Address(k)
  {
    match Find(RegistryOrder, name)
    case Some(k) => Some(Address(k))
    case None =>
      assert forall k :: Name(k) != name by {
        forall k ensures Name(k) != name { InRegistryOrder(k); }
      }
      None
  }

  /** `urls_referencias` in the report: the whole table, in insertion order,
      each entry paired with its URL. */
  function UrlsReferencias(): (r: Json)
    ensures r.JObject? && |r.fields| == 28
    ensures Keys(r.fields) == seq(|RegistryOrder|, i requires 0 <= i < |RegistryOrder| => Name(RegistryOrder[i]))
    ensures forall k :: (Name(k), JString(Address(k))) in r.fields
    ensures forall name :: name in Keys(r.fields) ==> Lookup(name).Some?
  {
    var fs := seq(|RegistryOrder|, i requires 0 <= i < |RegistryOrder| =>
      (Name(RegistryOrder[i]), JString(Address(RegistryOrder[i]))));
    assert forall k :: (Name(k), JString(Address(k))) in fs by {
      forall k ensures (Name(k), JString(Address(k))) in fs {
        InRegistryOrder(k);
        var i :| 0 <= i < |RegistryOrder| && RegistryOrder[i] == k;
        assert fs[i] == (Name(k), JString(Address(k)));
      }
    }
    JObject(fs)
  }
}
