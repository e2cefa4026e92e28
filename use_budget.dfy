/** The local budget hook: the three per-item cost formulas, the per-list
    totals, the per-piece cost breakdown with its three price tiers, and the
    in-memory store whose add, remove and update operations replace one of
    its three item lists. */
module UseBudget {
  import opened Common
  import opened BudgetTypes

  // ---------------------------------------------------------------------
  // Per-item formulas (exported; the other views and the CSV export use them)

  function CalcularSubtotal(preco: real, qtd: real): real { preco * qtd }

  function CalcularImpostos(subtotal: real, percImpostos: real): real { subtotal * (percImpostos / 100.0) }

  function CalcularCustoFinal(subtotal: real, impostos: real, frete: real): real { subtotal + impostos + frete }

  /** The final cost of one line item, composed the way every total composes
      the three formulas. */
  function CustoItem(precoUnit: real, quantidade: real, impostos: real, frete: real): (r: real)
    ensures r == precoUnit * quantidade + precoUnit * quantidade * (impostos / 100.0) + frete
    ensures precoUnit >= 0.0 && quantidade >= 0.0 && impostos >= 0.0 && frete >= 0.0
            ==> r >= precoUnit * quantidade + frete
  {
    var subtotal := CalcularSubtotal(precoUnit, quantidade);
    assert precoUnit >= 0.0 && quantidade >= 0.0 && impostos >= 0.0 ==>
      subtotal >= 0.0 && CalcularImpostos(subtotal, impostos) >= 0.0;
    CalcularCustoFinal(subtotal, CalcularImpostos(subtotal, impostos), frete)
  }

  function CustoDoItem(x: BudgetItem): real
  {
    CustoItem(x.precoUnit, x.quantidade, x.impostos, x.frete)
  }

  // ---------------------------------------------------------------------
  // Totals and per-piece costs

  /** `lista.reduce((acc, item) => acc + custoFinal(item), 0)` */
  function CalcularTotais(lista: seq<BudgetItem>): (r: real)
    ensures lista == [] ==> r == 0.0
  {
    SumOf(lista, CustoDoItem)
  }

  /** Appending an item adds exactly its final cost to the total. */
  lemma CalcularTotaisSnoc(xs: seq<BudgetItem>, x: BudgetItem)
    ensures CalcularTotais(xs + [x]) == CalcularTotais(xs) + CustoDoItem(x)
  {
    assert (xs + [x])[..|xs|] == xs;
  }

  /** The total of two lists laid end to end, and of any reordering. */
  lemma CalcularTotaisConcatAndReorder(a: seq<BudgetItem>, b: seq<BudgetItem>)
    ensures CalcularTotais(a + b) == CalcularTotais(a) + CalcularTotais(b)
    ensures CalcularTotais(a + b) == CalcularTotais(b + a)
  {
    SumOfAppend(a, b, CustoDoItem);
    SumOfAppend(b, a, CustoDoItem);
  }

  /** With no negative field, no total is negative. */
  lemma CalcularTotaisNonNegative(lista: seq<BudgetItem>)
    requires forall i :: 0 <= i < |lista| ==>
      lista[i].precoUnit >= 0.0 && lista[i].quantidade >= 0.0 && lista[i].impostos >= 0.0 && lista[i].frete >= 0.0
    ensures CalcularTotais(lista) >= 0.0
  {
    forall i | 0 <= i < |lista| ensures 0.0 <= CustoDoItem(lista[i]) {
      assert lista[i].precoUnit * lista[i].quantidade >= 0.0;
    }
    SumOfAtLeast(lista, CustoDoItem, 0.0);
  }

  /** Equipment is amortised over this many months. */
  const AmortizacaoMeses: real := 24.0

  /** The fixed material cost per piece this variant uses. */
  const CustoMaterialMedioPorPeca: real := 67.85

  /** Amortised equipment, operating cost and internal labour, each shared
      over the monthly production. The source divides without a guard. */
  function CustoFixoPorPeca(totalMaquinas: real, config: Config): (r: real)
    requires config.producaoMensal != 0.0
    ensures r * config.producaoMensal
            == totalMaquinas / AmortizacaoMeses + config.custoOperacional + config.maoObraInterna
  {
    totalMaquinas / AmortizacaoMeses / config.producaoMensal
      + config.custoOperacional / config.producaoMensal
      + config.maoObraInterna / config.producaoMensal
  }

  /** The production services' total shared over the monthly production. */
  function CustoVariavelPorPeca(totalProducao: real, config: Config): (r: real)
    requires config.producaoMensal != 0.0
    ensures r * config.producaoMensal == totalProducao
  {
    totalProducao / config.producaoMensal
  }

  datatype Precos = Precos(atacado: real, varejoMinimo: real, varejoIdeal: real)

  /** The three suggested prices: wholesale, minimum retail, ideal retail. */
  function CalcularPrecos(custoTotalPorPeca: real): (p: Precos)
    ensures p.atacado - custoTotalPorPeca == custoTotalPorPeca
    ensures p.varejoMinimo - custoTotalPorPeca == 2.0 * custoTotalPorPeca
    ensures p.varejoIdeal - custoTotalPorPeca == 3.0 * custoTotalPorPeca
    ensures custoTotalPorPeca > 0.0 ==> custoTotalPorPeca < p.atacado < p.varejoMinimo < p.varejoIdeal
  {
    Precos(custoTotalPorPeca * 2.0, custoTotalPorPeca * 3.0, custoTotalPorPeca * 4.0)
  }

  datatype Totais = Totais(materiais: real, maquinas: real, producao: real)

  /** Every value the hook derives from its state. */
  datatype Resumo = Resumo(
    totais: Totais,
    custoFixoPorPeca: real,
    custoVariavelPorPeca: real,
    custoTotalPorPeca: real,
    precos: Precos
  )

  /** The hook's memoised values: each list's total, the per-piece costs
      derived from the machine and production totals, and the prices. */
  function CalcularResumo(materiais: seq<BudgetItem>, maquinas: seq<BudgetItem>, producao: seq<BudgetItem>, config: Config): (r: Resumo)
    requires config.producaoMensal != 0.0
    ensures r.totais == Totais(CalcularTotais(materiais), CalcularTotais(maquinas), CalcularTotais(producao))
    ensures r.custoFixoPorPeca * config.producaoMensal
            == CalcularTotais(maquinas) / AmortizacaoMeses + config.custoOperacional + config.maoObraInterna
    ensures r.custoVariavelPorPeca * config.producaoMensal == CalcularTotais(producao)
    ensures r.custoTotalPorPeca == r.custoFixoPorPeca + r.custoVariavelPorPeca + CustoMaterialMedioPorPeca
    ensures r.precos.atacado == 2.0 * r.custoTotalPorPeca
    ensures r.precos.varejoMinimo == 3.0 * r.custoTotalPorPeca
    ensures r.precos.varejoIdeal == 4.0 * r.custoTotalPorPeca
  {
    var totais := Totais(CalcularTotais(materiais), CalcularTotais(maquinas), CalcularTotais(producao));
    var fixo := CustoFixoPorPeca(totais.maquinas, config);
    var variavel := CustoVariavelPorPeca(totais.producao, config);
    var total := fixo + variavel + CustoMaterialMedioPorPeca;
    Resumo(totais, fixo, variavel, total, CalcularPrecos(total))
  }

  /** The per-piece total is fixed plus variable plus the constant material
      term, and the material list does not enter any per-piece value or
      price: only its own total depends on it. */
  lemma ResumoIgnoresMaterials(m1: seq<BudgetItem>, m2: seq<BudgetItem>, maquinas: seq<BudgetItem>, producao: seq<BudgetItem>, config: Config)
    requires config.producaoMensal != 0.0
    ensures var r1, r2 := CalcularResumo(m1, maquinas, producao, config), CalcularResumo(m2, maquinas, producao, config);
      && r1.custoTotalPorPeca == r1.custoFixoPorPeca + r1.custoVariavelPorPeca + CustoMaterialMedioPorPeca
      && r1.custoFixoPorPeca == r2.custoFixoPorPeca
      && r1.custoVariavelPorPeca == r2.custoVariavelPorPeca
      && r1.custoTotalPorPeca == r2.custoTotalPorPeca
      && r1.precos == r2.precos
  {
  }

  // ---------------------------------------------------------------------
  // The in-memory store

  /** The item created by "add": blank text, zero amounts and the configured
      default tax rate. */
  function NovoItem(id: int, impostosDefault: real): BudgetItem
  {
    BudgetItem(id, "", "", "", "", 0.0, 0.0, 0.0, impostosDefault, "", 0.0, "")
  }

  /** A new item costs nothing, so adding one leaves every total as it was. */
  lemma NovoItemKeepsTotal(xs: seq<BudgetItem>, id: int, impostosDefault: real)
    ensures CustoDoItem(NovoItem(id, impostosDefault)) == 0.0
    ensures CalcularTotais(xs + [NovoItem(id, impostosDefault)]) == CalcularTotais(xs)
  {
    CalcularTotaisSnoc(xs, NovoItem(id, impostosDefault));
  }

  /** The hook's state: three item lists and the configuration. */
  class BudgetStore {
    var materiais: seq<BudgetItem>
    var maquinas: seq<BudgetItem>
    var producao: seq<BudgetItem>
    var config: Config

    constructor (materiais0: seq<BudgetItem>, maquinas0: seq<BudgetItem>, producao0: seq<BudgetItem>, config0: Config)
      ensures materiais == materiais0 && maquinas == maquinas0 && producao == producao0 && config == config0
    {
      materiais, maquinas, producao, config := materiais0, maquinas0, producao0, config0;
    }

    /** The list a `tipo` selects. */
    function Lista(tipo: Tipo): seq<BudgetItem>
      reads this
    {
      match tipo
      case Materiais => materiais
      case Maquinas => maquinas
      case Producao => producao
    }

    /** The derived values the hook returns. */
    function Derivados(): Resumo
      reads this
      requires config.producaoMensal != 0.0
    {
      CalcularResumo(materiais, maquinas, producao, config)
    }

    method SetConfig(c: Config)
      modifies this
      ensures config == c
      ensures materiais == old(materiais) && maquinas == old(maquinas) && producao == old(producao)
    {
      config := c;
    }

    /** `adicionarItem`: append a fresh blank item to the chosen list;
        `novoId` stands for `Date.now()`. */
    method AdicionarItem(tipo: Tipo, novoId: int)
      modifies this
      ensures Lista(tipo) == old(Lista(tipo)) + [NovoItem(novoId, old(config).impostosDefault)]
      ensures forall t :: t != tipo ==> Lista(t) == old(Lista(t))
      ensures config == old(config)
    {
      var novoItem := NovoItem(novoId, config.impostosDefault);
      match tipo
      case Materiais => materiais := materiais + [novoItem];
      case Maquinas => maquinas := maquinas + [novoItem];
      case Producao => producao := producao + [novoItem];
    }

    /** `removerItem`: drop every item of the chosen list with this id. */
    method RemoverItem(tipo: Tipo, id: int)
      modifies this
      ensures Lista(tipo) == RemoveKey(old(Lista(tipo)), IdOf, id)
      ensures forall t :: t != tipo ==> Lista(t) == old(Lista(t))
      ensures config == old(config)
    {
      match tipo
      case Materiais => materiais := RemoveKey(materiais, IdOf, id);
      case Maquinas => maquinas := RemoveKey(maquinas, IdOf, id);
      case Producao => producao := RemoveKey(producao, IdOf, id);
    }

    /** `atualizarItem`: write one field of every item of the chosen list
        with this id. */
    method AtualizarItem(tipo: Tipo, id: int, edicao: Edicao)
      modifies this
      ensures Lista(tipo) == UpdateKey(old(Lista(tipo)), IdOf, id, edicao, Aplicar)
      ensures forall t :: t != tipo ==> Lista(t) == old(Lista(t))
      ensures config == old(config)
    {
      match tipo
      case Materiais => materiais := UpdateKey(materiais, IdOf, id, edicao, Aplicar);
      case Maquinas => maquinas := UpdateKey(maquinas, IdOf, id, edicao, Aplicar);
      case Producao => producao := UpdateKey(producao, IdOf, id, edicao, Aplicar);
    }
  }

  /** What removing an id does to a list: no item with that id is left, every
      other item is kept, the survivors keep their order, and exactly the
      matching items are gone. */
  lemma RemoverItemSpec(xs: seq<BudgetItem>, id: int)
    ensures forall x :: x in RemoveKey(xs, IdOf, id) <==> x in xs && x.id != id
    ensures IsSubsequence(RemoveKey(xs, IdOf, id), xs)
    ensures |RemoveKey(xs, IdOf, id)| == |xs| - CountKey(xs, IdOf, id)
  {
    forall x ensures x in RemoveKey(xs, IdOf, id) <==> x in xs && x.id != id {
      RemoveKeyMembers(xs, IdOf, id, x);
    }
    RemoveKeySubsequence(xs, IdOf, id);
  }

  /** What updating an id does to a list: the length is kept; an item whose
      id matches gets the new value in the named field and keeps every other
      field; every other item is untouched. */
  lemma AtualizarItemSpec(xs: seq<BudgetItem>, id: int, e: Edicao, i: nat)
    requires i < |xs|
    ensures |UpdateKey(xs, IdOf, id, e, Aplicar)| == |xs|
    ensures xs[i].id != id ==> UpdateKey(xs, IdOf, id, e, Aplicar)[i] == xs[i]
    ensures xs[i].id == id ==>
      && Ler(UpdateKey(xs, IdOf, id, e, Aplicar)[i], CampoDe(e)) == ValorDe(e)
      && forall c :: c != CampoDe(e) ==> Ler(UpdateKey(xs, IdOf, id, e, Aplicar)[i], c) == Ler(xs[i], c)
  {
    UpdateKeyAt(xs, IdOf, id, e, Aplicar, i);
    AplicarChangesOnlyNamedField(xs[i], e);
  }
}
