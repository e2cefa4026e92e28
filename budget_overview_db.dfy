/** The database-backed overview: the same per-item formulas and totals as
    the local hook, applied to table rows, with fallbacks for configuration
    values that are zero or absent, and an average material cost taken from
    the materials' per-piece hints. */
module BudgetOverviewDb {
  import opened Common
  import U = UseBudget
  import BudgetTypes
  import opened UseBudgetDatabase

  function CustoDaLinha(x: DbBudgetItem): real
  {
    U.CustoItem(x.preco_unit, x.quantidade, x.impostos, x.frete)
  }

  /** `items.reduce((acc, item) => acc + custoFinal(item), 0)` */
  function CalcularTotais(items: seq<DbBudgetItem>): (r: real)
    ensures items == [] ==> r == 0.0
  {
    SumOf(items, CustoDaLinha)
  }

  /** Appending a row adds exactly its final cost to the total. */
  lemma CalcularTotaisSnoc(xs: seq<DbBudgetItem>, x: DbBudgetItem)
    ensures CalcularTotais(xs + [x]) == CalcularTotais(xs) + U.CustoItem(x.preco_unit, x.quantidade, x.impostos, x.frete)
  {
    assert (xs + [x])[..|xs|] == xs;
  }

  const DefaultProducaoMensal: real := 100.0
  const DefaultCustoOperacional: real := 2500.0
  const DefaultMaoObraInterna: real := 3500.0
  const DefaultCustoMaterialMedio: real := 67.85

  /** `value || fallback` on a number: zero counts as absent. */
  function OrDefault(value: real, fallback: real): real
  {
    if value == 0.0 then fallback else value
  }

  /** The three configuration values the formulas read, after fallbacks. */
  datatype Parametros = Parametros(producaoMensal: real, custoOperacional: real, maoObraInterna: real)

  /** A missing project, or a zero in a column, gives that column's default;
      any other value is used as stored. None of the three can be zero, so
      the per-piece divisions are always defined; an explicit zero is never
      honoured. */
  function ParametrosEfetivos(config: Option<DbBudgetProject>): (p: Parametros)
    ensures p.producaoMensal != 0.0 && p.custoOperacional != 0.0 && p.maoObraInterna != 0.0
    ensures config.None? ==> p == Parametros(DefaultProducaoMensal, DefaultCustoOperacional, DefaultMaoObraInterna)
    ensures config.Some? ==>
      && (config.value.producao_mensal != 0.0 ==> p.producaoMensal == config.value.producao_mensal)
      && (config.value.custo_operacional != 0.0 ==> p.custoOperacional == config.value.custo_operacional)
      && (config.value.mao_obra_interna != 0.0 ==> p.maoObraInterna == config.value.mao_obra_interna)
    ensures config.Some? ==>
      && (config.value.producao_mensal == 0.0 ==> p.producaoMensal == DefaultProducaoMensal)
      && (config.value.custo_operacional == 0.0 ==> p.custoOperacional == DefaultCustoOperacional)
      && (config.value.mao_obra_interna == 0.0 ==> p.maoObraInterna == DefaultMaoObraInterna)
  {
    match config
    case None => Parametros(DefaultProducaoMensal, DefaultCustoOperacional, DefaultMaoObraInterna)
    case Some(c) =>
      Parametros(OrDefault(c.producao_mensal, DefaultProducaoMensal),
                 OrDefault(c.custo_operacional, DefaultCustoOperacional),
                 OrDefault(c.mao_obra_interna, DefaultMaoObraInterna))
  }

  function CustoPorPecaDe(x: DbBudgetItem): real { x.custo_por_peca }

  /** The mean of the materials' per-piece hints; 67.85 when there are no
      materials. */
  function CustoMaterialMedio(materials: seq<DbBudgetItem>): (r: real)
    ensures materials == [] ==> r == DefaultCustoMaterialMedio
    ensures materials != [] ==> r * (|materials| as real) == SumOf(materials, CustoPorPecaDe)
  {
    if |materials| > 0 then SumOf(materials, CustoPorPecaDe) / (|materials| as real)
    else DefaultCustoMaterialMedio
  }

  /** The mean lies between any lower and upper bound of the hints. */
  lemma CustoMaterialMedioBounds(materials: seq<DbBudgetItem>, lo: real, hi: real)
    requires materials != []
    requires forall i :: 0 <= i < |materials| ==> lo <= materials[i].custo_por_peca <= hi
    ensures lo <= CustoMaterialMedio(materials) <= hi
  {
    SumOfAtLeast(materials, CustoPorPecaDe, lo);
    SumOfAtMost(materials, CustoPorPecaDe, hi);
    var n := |materials| as real;
    var m := CustoMaterialMedio(materials);
    assert m * n >= n * lo;
    assert m * n <= n * hi;
  }

  /** Everything the overview displays. */
  datatype Analise = Analise(
    totais: U.Totais,
    custoFixoPorPeca: real,
    custoVariavelPorPeca: real,
    custoMaterialMedio: real,
    custoTotalPorPeca: real,
    precos: U.Precos
  )

  function CalcularAnalise(materials: seq<DbBudgetItem>, machines: seq<DbBudgetItem>, production: seq<DbBudgetItem>,
                           config: Option<DbBudgetProject>): (a: Analise)
    ensures a.totais == U.Totais(CalcularTotais(materials), CalcularTotais(machines), CalcularTotais(production))
    ensures a.custoMaterialMedio == CustoMaterialMedio(materials)
    ensures a.custoTotalPorPeca == a.custoFixoPorPeca + a.custoVariavelPorPeca + a.custoMaterialMedio
    ensures var p := ParametrosEfetivos(config);
      && a.custoFixoPorPeca * p.producaoMensal
         == a.totais.maquinas / U.AmortizacaoMeses + p.custoOperacional + p.maoObraInterna
      && a.custoVariavelPorPeca * p.producaoMensal == a.totais.producao
    ensures a.precos.atacado == 2.0 * a.custoTotalPorPeca
    ensures a.precos.varejoMinimo == 3.0 * a.custoTotalPorPeca
    ensures a.precos.varejoIdeal == 4.0 * a.custoTotalPorPeca
  {
    var totais := U.Totais(CalcularTotais(materials), CalcularTotais(machines), CalcularTotais(production));
    var p := ParametrosEfetivos(config);
    var fixo := totais.maquinas / U.AmortizacaoMeses / p.producaoMensal
                + p.custoOperacional / p.producaoMensal
                + p.maoObraInterna / p.producaoMensal;
    var variavel := totais.producao / p.producaoMensal;
    var material := CustoMaterialMedio(materials);
    var total := fixo + variavel + material;
    Analise(totais, fixo, variavel, material, total, U.CalcularPrecos(total))
  }

  /** The profit shown under each price: price minus the per-piece total,
      which is one, two and three times that total. */
  function Lucros(materials: seq<DbBudgetItem>, machines: seq<DbBudgetItem>, production: seq<DbBudgetItem>,
                  config: Option<DbBudgetProject>): (l: U.Precos)
    ensures var total := CalcularAnalise(materials, machines, production, config).custoTotalPorPeca;
      && l.atacado == total
      && l.varejoMinimo == 2.0 * total
      && l.varejoIdeal == 3.0 * total
  {
    var a := CalcularAnalise(materials, machines, production, config);
    U.Precos(a.precos.atacado - a.custoTotalPorPeca,
             a.precos.varejoMinimo - a.custoTotalPorPeca,
             a.precos.varejoIdeal - a.custoTotalPorPeca)
  }

  /** The project's columns read as the local configuration record. */
  function ConfigDe(p: DbBudgetProject): BudgetTypes.Config
  {
    BudgetTypes.Config(p.impostos_default, p.margem_lucro, p.frete_medio,
                       p.custo_operacional, p.mao_obra_interna, p.producao_mensal)
  }

  /** Where no fallback applies the overview agrees with the local hook's
      per-piece formulas; it differs only in the material term, which is the
      mean of the hints here and the constant 67.85 there. */
  lemma AgreesWithLocalFormulas(materials: seq<DbBudgetItem>, machines: seq<DbBudgetItem>, production: seq<DbBudgetItem>,
                                project: DbBudgetProject)
    requires project.producao_mensal != 0.0 && project.custo_operacional != 0.0 && project.mao_obra_interna != 0.0
    ensures var a := CalcularAnalise(materials, machines, production, Some(project));
      && a.custoFixoPorPeca == U.CustoFixoPorPeca(a.totais.maquinas, ConfigDe(project))
      && a.custoVariavelPorPeca == U.CustoVariavelPorPeca(a.totais.producao, ConfigDe(project))
      && (materials == [] ==> a.custoMaterialMedio == U.CustoMaterialMedioPorPeca)
  {
  }
}
