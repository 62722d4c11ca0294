/** The keys of `resultados["fontes"]`: one per handler the dispatcher can
    run, and one per constant listing. */
module Sources {
  import opened Json

  datatype Fonte =
    | Receitaws | ReceitaFederal | BcbValores | Transparencia
    | CaixaBeneficios | AuxilioEmergencial
    | SpTransparencia | Falecidos | PessoaDesaparecida
    | SpPoliciaRg
    | Sinesp | DetranPr
    | DadosAbertos | FerramentasOsint

  /** The dict key the dispatcher stores the record under. */
  function Key(f: Fonte): string
  {
    match f
    case Receitaws => "receitaws"
    case ReceitaFederal => "receita_federal"
    case BcbValores => "bcb_valores"
    case Transparencia => "transparencia"
    case CaixaBeneficios => "caixa_beneficios"
    case AuxilioEmergencial => "auxilio_emergencial"
    case SpTransparencia => "sp_transparencia"
    case Falecidos => "falecidos"
    case PessoaDesaparecida => "pessoa_desaparecida"
    case SpPoliciaRg => "sp_policia_rg"
    case Sinesp => "sinesp"
    case DetranPr => "detran_pr"
    case DadosAbertos => "dados_abertos"
    case FerramentasOsint => "ferramentas_osint"
  }

  /** No two sources share a key, so storing one never overwrites another. */
  lemma KeyInjective(a: Fonte, b: Fonte)
    ensures Key(a) == Key(b) ==> a == b
  {
  }

  /** The keys of a run of sources. */
  function Names(fs: seq<Fonte>): (ns: seq<string>)
    ensures |ns| == |fs|
    ensures forall i :: 0 <= i < |fs| ==> ns[i] == Key(fs[i])
  {
    seq(|fs|, i requires 0 <= i < |fs| => Key(fs[i]))
  }

  /** The stored records as the report holds them, each under its key. */
  function Named(es: seq<(Fonte, Json)>): (fs: Fields)
    ensures |fs| == |es|
    ensures forall i :: 0 <= i < |es| ==> fs[i] == (Key(es[i].0), es[i].1)
  {
    seq(|es|, i requires 0 <= i < |es| => (Key(es[i].0), es[i].1))
  }

  lemma NamedKeys(es: seq<(Fonte, Json)>)
    ensures Keys(Named(es)) == Names(Keys(es))
  {
  }

  /** The sources the query type consults, in the order they are stored; the
      two listings follow for every type. */
  function Plan(tipo: string): seq<Fonte>
  {
    if tipo == "cnpj" then [Receitaws, ReceitaFederal, BcbValores, Transparencia]
    else if tipo == "cpf" then [ReceitaFederal, BcbValores, CaixaBeneficios, AuxilioEmergencial, Transparencia]
    else if tipo == "nome" then [SpTransparencia, Falecidos, PessoaDesaparecida]
    else if tipo == "rg" then [SpPoliciaRg]
    else if tipo == "placa" then [Sinesp, DetranPr]
    else []
  }

  /** The closing listings. */
  const ListingKeys: seq<Fonte> := [DadosAbertos, FerramentasOsint]

  /** The dict keys of a report, written out per query type. */
  lemma PlanKeys(tipo: string)
    ensures tipo == "cnpj" ==> (Names(Plan(tipo) + ListingKeys) ==
      ["receitaws", "receita_federal", "bcb_valores", "transparencia", "dados_abertos", "ferramentas_osint"])
    ensures tipo == "cpf" ==> (Names(Plan(tipo) + ListingKeys) ==
      ["receita_federal", "bcb_valores", "caixa_beneficios", "auxilio_emergencial", "transparencia",
       "dados_abertos", "ferramentas_osint"])
    ensures tipo == "nome" ==> (Names(Plan(tipo) + ListingKeys) ==
      ["sp_transparencia", "falecidos", "pessoa_desaparecida", "dados_abertos", "ferramentas_osint"])
    ensures tipo == "rg" ==> (Names(Plan(tipo) + ListingKeys) ==
      ["sp_policia_rg", "dados_abertos", "ferramentas_osint"])
    ensures tipo == "placa" ==> (Names(Plan(tipo) + ListingKeys) ==
      ["sinesp", "detran_pr", "dados_abertos", "ferramentas_osint"])
    ensures tipo != "cnpj" && tipo != "cpf" && tipo != "nome" && tipo != "rg" && tipo != "placa" ==>
      (Names(Plan(tipo) + ListingKeys) == ["dados_abertos", "ferramentas_osint"])
  {
  }

  /** No key is stored twice in a report, whatever the query type. */
  lemma PlanDistinct(tipo: string)
    ensures var ns := Names(Plan(tipo) + ListingKeys);
      forall i, j :: 0 <= i < j < |ns| ==> ns[i] != ns[j]
  {
    var fs := Plan(tipo) + ListingKeys;
    assert forall i, j :: 0 <= i < j < |fs| ==> fs[i] != fs[j];
    forall i, j | 0 <= i < j < |fs|
      ensures Key(fs[i]) != Key(fs[j])
    {
      KeyInjective(fs[i], fs[j]);
    }
  }

  /** The two listings stored after any run of sources are the last two
      entries, in this order; after an empty run they are the only ones. */
  lemma ListingsAfter(c: seq<(Fonte, Json)>, x: Json, y: Json)
    ensures var fs := Named(c + [(DadosAbertos, x), (FerramentasOsint, y)]);
      |fs| == |c| + 2 &&
      fs[|c|] == ("dados_abertos", x) && fs[|c| + 1] == ("ferramentas_osint", y)
    ensures c == [] ==>
      Named(c + [(DadosAbertos, x), (FerramentasOsint, y)]) == [("dados_abertos", x), ("ferramentas_osint", y)]
  {
    var es := c + [(DadosAbertos, x), (FerramentasOsint, y)];
    assert es[|c|] == (DadosAbertos, x) && es[|c| + 1] == (FerramentasOsint, y);
  }

  // The dict reasoning for each branch, once for any stored values: every key
  // stored is new, so each store appends.  (Stated over arbitrary values so
  // that the proof never looks inside the handlers' records.)

  /** The fresh keys a run of stores has left out. */
  predicate Excludes(fs: seq<(Fonte, Json)>, a: Fonte, b: Fonte)
  {
    forall i :: 0 <= i < |fs| ==> fs[i].0 != a && fs[i].0 != b
  }

  /** Storing under a key not yet present appends the pair. */
  lemma {:induction false} Stores(fs: seq<(Fonte, Json)>, key: Fonte, value: Json)
    returns (r: seq<(Fonte, Json)>)
    requires forall i :: 0 <= i < |fs| ==> fs[i].0 != key
    ensures r == fs + [(key, value)] && Assign(fs, key, value) == r
  {
    assert key !in Keys(fs);
    r := fs + [(key, value)];
  }

  lemma CnpjStores(a: Json, b: Json, c: Json, d: Json)
    ensures var fs := [(Receitaws, a), (ReceitaFederal, b), (BcbValores, c), (Transparencia, d)];
      Assign(Assign(Assign(Assign([], Receitaws, a), ReceitaFederal, b), BcbValores, c), Transparencia, d) == fs &&
      Keys(fs) == Plan("cnpj") && Excludes(fs, DadosAbertos, FerramentasOsint)
  {
    var s0: seq<(Fonte, Json)> := [];
    var s1 := Stores(s0, Receitaws, a);
    var s2 := Stores(s1, ReceitaFederal, b);
    var s3 := Stores(s2, BcbValores, c);
    var s4 := Stores(s3, Transparencia, d);
  }

  lemma CpfStores(a: Json, b: Json, c: Json, d: Json, e: Json)
    ensures var fs := [(ReceitaFederal, a), (BcbValores, b), (CaixaBeneficios, c),
                       (AuxilioEmergencial, d), (Transparencia, e)];
      Assign(Assign(Assign(Assign(Assign([], ReceitaFederal, a), BcbValores, b), CaixaBeneficios, c),
                    AuxilioEmergencial, d), Transparencia, e) == fs &&
      Keys(fs) == Plan("cpf") && Excludes(fs, DadosAbertos, FerramentasOsint)
  {
    var s0: seq<(Fonte, Json)> := [];
    var s1 := Stores(s0, ReceitaFederal, a);
    var s2 := Stores(s1, BcbValores, b);
    var s3 := Stores(s2, CaixaBeneficios, c);
    var s4 := Stores(s3, AuxilioEmergencial, d);
    var s5 := Stores(s4, Transparencia, e);
  }

  lemma NomeStores(a: Json, b: Json, c: Json)
    ensures var fs := [(SpTransparencia, a), (Falecidos, b), (PessoaDesaparecida, c)];
      Assign(Assign(Assign([], SpTransparencia, a), Falecidos, b), PessoaDesaparecida, c) == fs &&
      Keys(fs) == Plan("nome") && Excludes(fs, DadosAbertos, FerramentasOsint)
  {
    var s0: seq<(Fonte, Json)> := [];
    var s1 := Stores(s0, SpTransparencia, a);
    var s2 := Stores(s1, Falecidos, b);
    var s3 := Stores(s2, PessoaDesaparecida, c);
  }

  lemma RgStores(a: Json)
    ensures var fs := [(SpPoliciaRg, a)];
      Assign([], SpPoliciaRg, a) == fs &&
      Keys(fs) == Plan("rg") && Excludes(fs, DadosAbertos, FerramentasOsint)
  {
    var s1 := Stores([], SpPoliciaRg, a);
  }

  lemma PlacaStores(a: Json, b: Json)
    ensures var fs := [(Sinesp, a), (DetranPr, b)];
      Assign(Assign([], Sinesp, a), DetranPr, b) == fs &&
      Keys(fs) == Plan("placa") && Excludes(fs, DadosAbertos, FerramentasOsint)
  {
    var s0: seq<(Fonte, Json)> := [];
    var s1 := Stores(s0, Sinesp, a);
    var s2 := Stores(s1, DetranPr, b);
  }

  lemma ListingStores(fs: seq<(Fonte, Json)>, x: Json, y: Json)
    requires Excludes(fs, DadosAbertos, FerramentasOsint)
    ensures Assign(Assign(fs, DadosAbertos, x), FerramentasOsint, y) ==
            fs + [(DadosAbertos, x), (FerramentasOsint, y)]
    ensures Keys(fs + [(DadosAbertos, x), (FerramentasOsint, y)]) == Keys(fs) + ListingKeys
  {
    var s1 := Stores(fs, DadosAbertos, x);
    var s2 := Stores(s1, FerramentasOsint, y);
  }
}
