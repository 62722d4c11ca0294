/** `buscar_completa`: the report for one identifier.  The query type picks
    which handlers run and in which order; their records are stored one by one
    under fixed keys of `resultados["fontes"]`, and the two constant listings
    are stored last whatever the type. */
module Dispatch {
  import opened Json
  import opened Identifier
  import Registry
  import opened Handlers
  import opened Manual
  import opened Listings
  import opened Sources

  /** The query types the command line accepts.  `buscar_completa` itself
      accepts any string: an unknown type consults no handler. */
  predicate KnownTipo(tipo: string)
  {
    tipo == "cnpj" || tipo == "cpf" || tipo == "nome" || tipo == "rg" || tipo == "placa"
  }

  /** The handler records stored for the query type, in storing order, each
      under its key and called with the arguments the dispatcher passes. */
  function Consulted(identificador: string, tipo: string, net: Network): seq<(Fonte, Json)>
  {
    if tipo == "cnpj" then
      [ (Receitaws, ConsultarCnpjReceitaws(identificador, net)),
        (ReceitaFederal, ConsultarReceitaFederal(identificador, "cnpj")),
        (BcbValores, ConsultarValoresReceberBcb(identificador, net)),
        (Transparencia, ConsultarPortalTransparencia(identificador, "empresa")) ]
    else if tipo == "cpf" then
      [ (ReceitaFederal, ConsultarReceitaFederal(identificador, "cpf")),
        (BcbValores, ConsultarValoresReceberBcb(identificador, net)),
        (CaixaBeneficios, ConsultarCaixaBeneficios(identificador)),
        (AuxilioEmergencial, ConsultarAuxilioEmergencial(identificador)),
        (Transparencia, ConsultarPortalTransparencia(identificador, "pessoa")) ]
    else if tipo == "nome" then
      [ (SpTransparencia, ConsultarSpTransparencia(identificador)),
        (Falecidos, ConsultarFalecidosBrasil(identificador)),
        (PessoaDesaparecida, ConsultarPessoaDesaparecida(identificador)) ]
    else if tipo == "rg" then
      [ (SpPoliciaRg, ConsultarSpPoliciaRg(identificador)) ]
    else if tipo == "placa" then
      [ (Sinesp, ConsultarSinespCidadao(identificador)),
        (DetranPr, ConsultarDetranPr(identificador)) ]
    else
      []
  }

  /** The two listings that close every report. */
  function Listed(): seq<(Fonte, Json)>
  {
    [ (DadosAbertos, ListarFontesDadosAbertos()),
      (FerramentasOsint, ListarFerramentasOsint()) ]
  }

  /** `resultados["fontes"]` once the dispatcher is done, by source. */
  function Stored(identificador: string, tipo: string, net: Network): seq<(Fonte, Json)>
  {
    Consulted(identificador, tipo, net) + Listed()
  }

  /** `resultados["fontes"]` as the report holds it. */
  function Fontes(identificador: string, tipo: string, net: Network): Fields
  {
    Named(Stored(identificador, tipo, net))
  }

  /** The whole report: the header echoes the query, `timestamp` is the
      caller's clock reading, and `urls_referencias` is the source table. */
  function Report(identificador: string, tipo: string, timestamp: string, net: Network): Json
  {
    JObject([ ("identificador", JString(identificador)),
              ("tipo", JString(tipo)),
              ("timestamp", JString(timestamp)),
              ("fontes", JObject(Fontes(identificador, tipo, net))),
              ("urls_referencias", Registry.UrlsReferencias()) ])
  }

  /** `resultados["fontes"]`, the dict the dispatcher fills in place, with
      each key written as the source it names. */
  class FontesTable {
    var entries: seq<(Fonte, Json)>

    constructor ()
      ensures entries == []
    {
      entries := [];
    }

    /** `fontes[Key(key)] = value`. */
    method Put(key: Fonte, value: Json)
      modifies this
      ensures entries == Assign(old(entries), key, value)
    {
      entries := Assign(entries, key, value);
    }
  }

  // The branches of the `if`/`elif` chain, one method each: every one stores
  // its handlers' records, in order, into the still empty dict.

  method ConsultCnpj(fontes: FontesTable, identificador: string, tipo: string, net: Network)
    modifies fontes
    requires tipo == "cnpj" && fontes.entries == []
    ensures fontes.entries == Consulted(identificador, tipo, net)
    ensures Excludes(fontes.entries, DadosAbertos, FerramentasOsint)
  {
    fontes.Put(Receitaws, ConsultarCnpjReceitaws(identificador, net));
    fontes.Put(ReceitaFederal, ConsultarReceitaFederal(identificador, "cnpj"));
    fontes.Put(BcbValores, ConsultarValoresReceberBcb(identificador, net));
    fontes.Put(Transparencia, ConsultarPortalTransparencia(identificador, "empresa"));
    CnpjStores(ConsultarCnpjReceitaws(identificador, net), ConsultarReceitaFederal(identificador, "cnpj"),
               ConsultarValoresReceberBcb(identificador, net),
               ConsultarPortalTransparencia(identificador, "empresa"));
  }

  method ConsultCpf(fontes: FontesTable, identificador: string, tipo: string, net: Network)
    modifies fontes
    requires tipo == "cpf" && fontes.entries == []
    ensures fontes.entries == Consulted(identificador, tipo, net)
    ensures Excludes(fontes.entries, DadosAbertos, FerramentasOsint)
  {
    fontes.Put(ReceitaFederal, ConsultarReceitaFederal(identificador, "cpf"));
    fontes.Put(BcbValores, ConsultarValoresReceberBcb(identificador, net));
    fontes.Put(CaixaBeneficios, ConsultarCaixaBeneficios(identificador));
    fontes.Put(AuxilioEmergencial, ConsultarAuxilioEmergencial(identificador));
    fontes.Put(Transparencia, ConsultarPortalTransparencia(identificador, "pessoa"));
    CpfStores(ConsultarReceitaFederal(identificador, "cpf"), ConsultarValoresReceberBcb(identificador, net),
              ConsultarCaixaBeneficios(identificador), ConsultarAuxilioEmergencial(identificador),
              ConsultarPortalTransparencia(identificador, "pessoa"));
  }

  method ConsultNome(fontes: FontesTable, identificador: string, tipo: string, net: Network)
    modifies fontes
    requires tipo == "nome" && fontes.entries == []
    ensures fontes.entries == Consulted(identificador, tipo, net)
    ensures Excludes(fontes.entries, DadosAbertos, FerramentasOsint)
  {
    fontes.Put(SpTransparencia, ConsultarSpTransparencia(identificador));
    fontes.Put(Falecidos, ConsultarFalecidosBrasil(identificador));
    fontes.Put(PessoaDesaparecida, ConsultarPessoaDesaparecida(identificador));
    NomeStores(ConsultarSpTransparencia(identificador), ConsultarFalecidosBrasil(identificador),
               ConsultarPessoaDesaparecida(identificador));
  }

  method ConsultRg(fontes: FontesTable, identificador: string, tipo: string, net: Network)
    modifies fontes
    requires tipo == "rg" && fontes.entries == []
    ensures fontes.entries == Consulted(identificador, tipo, net)
    ensures Excludes(fontes.entries, DadosAbertos, FerramentasOsint)
  {
    fontes.Put(SpPoliciaRg, ConsultarSpPoliciaRg(identificador));
    RgStores(ConsultarSpPoliciaRg(identificador));
  }

  method ConsultPlaca(fontes: FontesTable, identificador: string, tipo: string, net: Network)
    modifies fontes
    requires tipo == "placa" && fontes.entries == []
    ensures fontes.entries == Consulted(identificador, tipo, net)
    ensures Excludes(fontes.entries, DadosAbertos, FerramentasOsint)
  {
    fontes.Put(Sinesp, ConsultarSinespCidadao(identificador));
    fontes.Put(DetranPr, ConsultarDetranPr(identificador));
    PlacaStores(ConsultarSinespCidadao(identificador), ConsultarDetranPr(identificador));
  }

  /** The two stores after the chain, whatever it stored. */
  method PutListings(fontes: FontesTable)
    modifies fontes
    requires Excludes(fontes.entries, DadosAbertos, FerramentasOsint)
    ensures fontes.entries == old(fontes.entries) + Listed()
  {
    ListingStores(fontes.entries, ListarFontesDadosAbertos(), ListarFerramentasOsint());
    fontes.Put(DadosAbertos, ListarFontesDadosAbertos());
    fontes.Put(FerramentasOsint, ListarFerramentasOsint());
  }

  /** `buscar_completa(identificador, tipo)`, with the clock reading and the
      network given as parameters.  Every store adds a new key, so the dict
      it fills is exactly the table `Stored` describes. */
  method BuscarCompleta(identificador: string, tipo: string, timestamp: string, net: Network)
    returns (resultados: Json)
    ensures resultados == Report(identificador, tipo, timestamp, net)
  {
    var fontes := new FontesTable();
    if tipo == "cnpj" {
      ConsultCnpj(fontes, identificador, tipo, net);
    } else if tipo == "cpf" {
      ConsultCpf(fontes, identificador, tipo, net);
    } else if tipo == "nome" {
      ConsultNome(fontes, identificador, tipo, net);
    } else if tipo == "rg" {
      ConsultRg(fontes, identificador, tipo, net);
    } else if tipo == "placa" {
      ConsultPlaca(fontes, identificador, tipo, net);
    }
    PutListings(fontes);
    resultados := JObject([ ("identificador", JString(identificador)),
                            ("tipo", JString(tipo)),
                            ("timestamp", JString(timestamp)),
                            ("fontes", JObject(Named(fontes.entries))),
                            ("urls_referencias", Registry.UrlsReferencias()) ]);
  }

  // ------------------------------------------------------------ properties

  /** The sources stored, in storing order: the type's own, then the two
      listings. */
  lemma {:induction false} StoredKeys(identificador: string, tipo: string, net: Network)
    ensures Keys(Stored(identificador, tipo, net)) == Plan(tipo) + ListingKeys
    ensures Excludes(Consulted(identificador, tipo, net), DadosAbertos, FerramentasOsint)
  {
    var c := Consulted(identificador, tipo, net);
    if tipo == "cnpj" {
      CnpjStores(ConsultarCnpjReceitaws(identificador, net), ConsultarReceitaFederal(identificador, "cnpj"),
                 ConsultarValoresReceberBcb(identificador, net),
                 ConsultarPortalTransparencia(identificador, "empresa"));
    } else if tipo == "cpf" {
      CpfStores(ConsultarReceitaFederal(identificador, "cpf"), ConsultarValoresReceberBcb(identificador, net),
                ConsultarCaixaBeneficios(identificador), ConsultarAuxilioEmergencial(identificador),
                ConsultarPortalTransparencia(identificador, "pessoa"));
    } else if tipo == "nome" {
      NomeStores(ConsultarSpTransparencia(identificador), ConsultarFalecidosBrasil(identificador),
                 ConsultarPessoaDesaparecida(identificador));
    } else if tipo == "rg" {
      RgStores(ConsultarSpPoliciaRg(identificador));
    } else if tipo == "placa" {
      PlacaStores(ConsultarSinespCidadao(identificador), ConsultarDetranPr(identificador));
    }
    ListingStores(c, ListarFontesDadosAbertos(), ListarFerramentasOsint());
  }

  /** `resultados["fontes"]` holds exactly the keys of the type, in the order
      the `if`/`elif` chain stores them, followed by `dados_abertos` and
      `ferramentas_osint` (the lists are written out in `PlanKeys`). */
  lemma FontesKeyOrder(identificador: string, tipo: string, net: Network)
    ensures Keys(Fontes(identificador, tipo, net)) == Names(Plan(tipo) + ListingKeys)
  {
    StoredKeys(identificador, tipo, net);
    NamedKeys(Stored(identificador, tipo, net));
  }

  /** `resultados["fontes"]` is a dict: no key is written twice, so no store
      overwrites an earlier one. */
  lemma FontesIsDict(identificador: string, tipo: string, net: Network)
    ensures DistinctKeys(Fontes(identificador, tipo, net))
  {
    var fs := Fontes(identificador, tipo, net);
    FontesKeyOrder(identificador, tipo, net);
    PlanDistinct(tipo);
    forall i, j | 0 <= i < j < |fs|
      ensures fs[i].0 != fs[j].0
    {
      assert fs[i].0 == Keys(fs)[i] && fs[j].0 == Keys(fs)[j];
    }
  }

  /** Whatever the type, the last two entries are the two listings, in this
      order. */
  lemma ListingsLast(identificador: string, tipo: string, net: Network)
    ensures var fs := Fontes(identificador, tipo, net);
      |fs| >= 2 &&
      fs[|fs| - 2] == ("dados_abertos", ListarFontesDadosAbertos()) &&
      fs[|fs| - 1] == ("ferramentas_osint", ListarFerramentasOsint())
  {
    ListingsAfter(Consulted(identificador, tipo, net), ListarFontesDadosAbertos(), ListarFerramentasOsint());
  }

  /** A type outside the five the command line offers consults nothing: the
      report lists only the two listings. */
  lemma UnknownTipoListsOnly(identificador: string, tipo: string, net: Network)
    requires !KnownTipo(tipo)
    ensures Fontes(identificador, tipo, net) ==
      [("dados_abertos", ListarFontesDadosAbertos()), ("ferramentas_osint", ListarFerramentasOsint())]
  {
    ListingsAfter(Consulted(identificador, tipo, net), ListarFontesDadosAbertos(), ListarFerramentasOsint());
  }

  /** How many sources each type produces; a CNPJ query gives six. */
  lemma SourceCount(identificador: string, tipo: string, net: Network)
    ensures |Fontes(identificador, tipo, net)| ==
      if tipo == "cnpj" then 6
      else if tipo == "cpf" then 7
      else if tipo == "nome" then 5
      else if tipo == "rg" then 3
      else if tipo == "placa" then 4
      else 2
  {
    StoredKeys(identificador, tipo, net);
  }

  /** The report's header: the query is echoed unchanged, `fontes` is the
      filled dict and `urls_referencias` is the whole source table. */
  lemma ReportHeader(identificador: string, tipo: string, timestamp: string, net: Network)
    ensures var r := Report(identificador, tipo, timestamp, net);
      r.JObject? &&
      Keys(r.fields) == ["identificador", "tipo", "timestamp", "fontes", "urls_referencias"] &&
      Get(r.fields, "identificador") == Some(JString(identificador)) &&
      Get(r.fields, "tipo") == Some(JString(tipo)) &&
      Get(r.fields, "timestamp") == Some(JString(timestamp)) &&
      Get(r.fields, "fontes") == Some(JObject(Fontes(identificador, tipo, net))) &&
      Get(r.fields, "urls_referencias") == Some(Registry.UrlsReferencias())
  {
    FiveFields("identificador", "tipo", "timestamp", "fontes", "urls_referencias",
               JString(identificador), JString(tipo), JString(timestamp),
               JObject(Fontes(identificador, tipo, net)), Registry.UrlsReferencias());
  }

  /** The report depends on the network only through the ReceitaWS request
      of a CNPJ query and the BCB request of a CNPJ or CPF query; the other
      types make no request at all. */
  lemma ReportRequests(identificador: string, tipo: string, timestamp: string, net1: Network, net2: Network)
    requires tipo == "cnpj" ==> net1(ReceitaWsUrl(identificador)) == net2(ReceitaWsUrl(identificador))
    requires tipo == "cnpj" || tipo == "cpf" ==> net1(BcbUrl(identificador)) == net2(BcbUrl(identificador))
    ensures Report(identificador, tipo, timestamp, net1) == Report(identificador, tipo, timestamp, net2)
  {
    if tipo == "cnpj" {
      ReceitaWsRequest(identificador, net1, net2);
      BcbRequest(identificador, net1, net2);
    } else if tipo == "cpf" {
      BcbRequest(identificador, net1, net2);
    }
  }
}
