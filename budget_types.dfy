/** The records of the local (in-memory) budget: a line item, the budget
    configuration, the three lists an item can belong to, and the single-field
    edits the item table sends back. */
module BudgetTypes {

  /** One priced entry of a list. Money and quantities are exact reals;
      the identifier is the number the store assigned at creation. */
  datatype BudgetItem = BudgetItem(
    id: int,
    item: string,
    categoria: string,
    descricao: string,
    fornecedor: string,
    precoUnit: real,
    quantidade: real,
    frete: real,
    impostos: real,      // tax rate, in percent
    aplicacao: string,
    custoPorPeca: real,  // per-piece cost hint, entered by hand
    obs: string
  )

  /** The configuration record. `margemLucro` and `fretemedio` are stored
      but no formula reads them. */
  datatype Config = Config(
    impostosDefault: real,
    margemLucro: real,
    fretemedio: real,
    custoOperacional: real,
    maoObraInterna: real,
    producaoMensal: real
  )

  /** The three lists: raw materials, machines, production services. */
  datatype Tipo = Materiais | Maquinas | Producao

  function IdOf(x: BudgetItem): int { x.id }

  /** The name of a field of `BudgetItem` (`keyof BudgetItem`). */
  datatype Campo =
    | CampoId | CampoItem | CampoCategoria | CampoDescricao | CampoFornecedor
    | CampoPrecoUnit | CampoQuantidade | CampoFrete | CampoImpostos
    | CampoAplicacao | CampoCustoPorPeca | CampoObs

  /** The value held in one field: the source's `string | number`, with the
      identifier kept apart because it is an integer. */
  datatype Valor = Texto(s: string) | Numero(n: real) | Identificador(i: int)

  /** A single-field assignment `{ ...item, [campo]: valor }`, one constructor
      per field so that the value always has the field's type. */
  datatype Edicao =
    | SetId(i: int)
    | SetItem(s: string)
    | SetCategoria(s: string)
    | SetDescricao(s: string)
    | SetFornecedor(s: string)
    | SetPrecoUnit(n: real)
    | SetQuantidade(n: real)
    | SetFrete(n: real)
    | SetImpostos(n: real)
    | SetAplicacao(s: string)
    | SetCustoPorPeca(n: real)
    | SetObs(s: string)

  /** The field an edit names. */
  function CampoDe(e: Edicao): Campo
  {
    match e
    case SetId(_) => CampoId
    case SetItem(_) => CampoItem
    case SetCategoria(_) => CampoCategoria
    case SetDescricao(_) => CampoDescricao
    case SetFornecedor(_) => CampoFornecedor
    case SetPrecoUnit(_) => CampoPrecoUnit
    case SetQuantidade(_) => CampoQuantidade
    case SetFrete(_) => CampoFrete
    case SetImpostos(_) => CampoImpostos
    case SetAplicacao(_) => CampoAplicacao
    case SetCustoPorPeca(_) => CampoCustoPorPeca
    case SetObs(_) => CampoObs
  }

  /** The value an edit writes. */
  function ValorDe(e: Edicao): Valor
  {
    match e
    case SetId(i) => Identificador(i)
    case SetItem(s) => Texto(s)
    case SetCategoria(s) => Texto(s)
    case SetDescricao(s) => Texto(s)
    case SetFornecedor(s) => Texto(s)
    case SetPrecoUnit(n) => Numero(n)
    case SetQuantidade(n) => Numero(n)
    case SetFrete(n) => Numero(n)
    case SetImpostos(n) => Numero(n)
    case SetAplicacao(s) => Texto(s)
    case SetCustoPorPeca(n) => Numero(n)
    case SetObs(s) => Texto(s)
  }

  /** Reads one field: `item[campo]`. */
  function Ler(x: BudgetItem, c: Campo): Valor
  {
    match c
    case CampoId => Identificador(x.id)
    case CampoItem => Texto(x.item)
    case CampoCategoria => Texto(x.categoria)
    case CampoDescricao => Texto(x.descricao)
    case CampoFornecedor => Texto(x.fornecedor)
    case CampoPrecoUnit => Numero(x.precoUnit)
    case CampoQuantidade => Numero(x.quantidade)
    case CampoFrete => Numero(x.frete)
    case CampoImpostos => Numero(x.impostos)
    case CampoAplicacao => Texto(x.aplicacao)
    case CampoCustoPorPeca => Numero(x.custoPorPeca)
    case CampoObs => Texto(x.obs)
  }

  /** `{ ...item, [campo]: valor }` */
  function Aplicar(x: BudgetItem, e: Edicao): BudgetItem
  {
    match e
    case SetId(i) => x.(id := i)
    case SetItem(s) => x.(item := s)
    case SetCategoria(s) => x.(categoria := s)
    case SetDescricao(s) => x.(descricao := s)
    case SetFornecedor(s) => x.(fornecedor := s)
    case SetPrecoUnit(n) => x.(precoUnit := n)
    case SetQuantidade(n) => x.(quantidade := n)
    case SetFrete(n) => x.(frete := n)
    case SetImpostos(n) => x.(impostos := n)
    case SetAplicacao(s) => x.(aplicacao := s)
    case SetCustoPorPeca(n) => x.(custoPorPeca := n)
    case SetObs(s) => x.(obs := s)
  }

  /** An edit writes its value into the field it names and leaves every other
      field as it was. */
  lemma AplicarChangesOnlyNamedField(x: BudgetItem, e: Edicao)
    ensures Ler(Aplicar(x, e), CampoDe(e)) == ValorDe(e)
    ensures forall c :: c != CampoDe(e) ==> Ler(Aplicar(x, e), c) == Ler(x, c)
  {
  }
}
