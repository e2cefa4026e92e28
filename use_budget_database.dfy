/** The remote-backed budget hook. Its state is the user's project list, the
    current project and the current project's three item lists; every
    operation makes one backend call (two when it has to create a
    replacement project) and changes the local state only after the call
    has succeeded. Each call is modelled by its reply, passed in as a
    parameter, and each operation returns the request it would send. */
module UseBudgetDatabase {
  import opened Common

  /** A row of the `materials`, `machines` or `production` table. */
  datatype DbBudgetItem = DbBudgetItem(
    id: string,
    project_id: string,
    item: string,
    categoria: string,
    descricao: Option<string>,
    fornecedor: Option<string>,
    preco_unit: real,
    quantidade: real,
    frete: real,
    impostos: real,
    aplicacao: Option<string>,
    custo_por_peca: real,
    obs: Option<string>
  )

  /** A row of the `budget_projects` table: a project with its configuration. */
  datatype DbBudgetProject = DbBudgetProject(
    id: string,
    user_id: string,
    name: string,
    description: Option<string>,
    impostos_default: real,
    margem_lucro: real,
    frete_medio: real,
    custo_operacional: real,
    mao_obra_interna: real,
    producao_mensal: real,
    created_at: string,
    updated_at: string
  )

  /** The three item tables. */
  datatype ItemTable = Materials | Machines | Production

  function ItemId(x: DbBudgetItem): string { x.id }

  function ProjectId(p: DbBudgetProject): string { p.id }

  // ---------------------------------------------------------------------
  // Requests sent to the backend

  /** The insert sent to `budget_projects`. */
  datatype ProjectInsert = ProjectInsert(user_id: string, name: string, description: Option<string>)

  /** The insert sent to an item table: every column of a row except the
      store-assigned id. */
  datatype ItemInsert = ItemInsert(
    table: ItemTable,
    project_id: string,
    item: string,
    categoria: string,
    descricao: string,
    fornecedor: string,
    preco_unit: real,
    quantidade: real,
    frete: real,
    impostos: real,
    aplicacao: string,
    custo_por_peca: real,
    obs: string
  )

  /** The tax rate a new item of each table starts with. */
  function DefaultImpostos(table: ItemTable): real
  {
    match table
    case Materials => 12.0
    case Machines => 15.0
    case Production => 8.0
  }

  /** The blank row `addItem` inserts into `table` for project `projectId`. */
  function NewItemInsert(table: ItemTable, projectId: string): ItemInsert
  {
    ItemInsert(table, projectId, "", "", "", "", 0.0, 0.0, 0.0, DefaultImpostos(table), "", 0.0, "")
  }

  const MainProjectName: string := "Orçamento Principal"
  const ReplacementProjectName: string := "Novo Orçamento"

  // ---------------------------------------------------------------------
  // Single-field edits of an item row: `{ ...item, [field]: value }`

  datatype ItemField =
    | FieldId | FieldProjectId | FieldItem | FieldCategoria | FieldDescricao
    | FieldFornecedor | FieldPrecoUnit | FieldQuantidade | FieldFrete
    | FieldImpostos | FieldAplicacao | FieldCustoPorPeca | FieldObs

  /** The value held in one column: text, nullable text, or a number. */
  datatype ItemValue = Text(s: string) | NullableText(t: Option<string>) | Number(n: real)

  /** An assignment of a `string | number` value to one column; a string
      written to a nullable column makes it non-null. */
  datatype ItemEdit =
    | SetId(s: string)
    | SetProjectId(s: string)
    | SetItem(s: string)
    | SetCategoria(s: string)
    | SetDescricao(s: string)
    | SetFornecedor(s: string)
    | SetPrecoUnit(n: real)
    | SetQuantidade(n: real)
    | SetFrete(n: real)
    | SetImpostos(n: real)
    | SetAplicacao(s: string)
    | SetCustoPorPeca(n: real)
    | SetObs(s: string)

  function FieldOf(e: ItemEdit): ItemField
  {
    match e
    case SetId(_) => FieldId
    case SetProjectId(_) => FieldProjectId
    case SetItem(_) => FieldItem
    case SetCategoria(_) => FieldCategoria
    case SetDescricao(_) => FieldDescricao
    case SetFornecedor(_) => FieldFornecedor
    case SetPrecoUnit(_) => FieldPrecoUnit
    case SetQuantidade(_) => FieldQuantidade
    case SetFrete(_) => FieldFrete
    case SetImpostos(_) => FieldImpostos
    case SetAplicacao(_) => FieldAplicacao
    case SetCustoPorPeca(_) => FieldCustoPorPeca
    case SetObs(_) => FieldObs
  }

  function ValueOf(e: ItemEdit): ItemValue
  {
    match e
    case SetId(s) => Text(s)
    case SetProjectId(s) => Text(s)
    case SetItem(s) => Text(s)
    case SetCategoria(s) => Text(s)
    case SetDescricao(s) => NullableText(Some(s))
    case SetFornecedor(s) => NullableText(Some(s))
    case SetPrecoUnit(n) => Number(n)
    case SetQuantidade(n) => Number(n)
    case SetFrete(n) => Number(n)
    case SetImpostos(n) => Number(n)
    case SetAplicacao(s) => NullableText(Some(s))
    case SetCustoPorPeca(n) => Number(n)
    case SetObs(s) => NullableText(Some(s))
  }

  function Read(x: DbBudgetItem, f: ItemField): ItemValue
  {
    match f
    case FieldId => Text(x.id)
    case FieldProjectId => Text(x.project_id)
    case FieldItem => Text(x.item)
    case FieldCategoria => Text(x.categoria)
    case FieldDescricao => NullableText(x.descricao)
    case FieldFornecedor => NullableText(x.fornecedor)
    case FieldPrecoUnit => Number(x.preco_unit)
    case FieldQuantidade => Number(x.quantidade)
    case FieldFrete => Number(x.frete)
    case FieldImpostos => Number(x.impostos)
    case FieldAplicacao => NullableText(x.aplicacao)
    case FieldCustoPorPeca => Number(x.custo_por_peca)
    case FieldObs => NullableText(x.obs)
  }

  function ApplyEdit(x: DbBudgetItem, e: ItemEdit): DbBudgetItem
  {
    match e
    case SetId(s) => x.(id := s)
    case SetProjectId(s) => x.(project_id := s)
    case SetItem(s) => x.(item := s)
    case SetCategoria(s) => x.(categoria := s)
    case SetDescricao(s) => x.(descricao := Some(s))
    case SetFornecedor(s) => x.(fornecedor := Some(s))
    case SetPrecoUnit(n) => x.(preco_unit := n)
    case SetQuantidade(n) => x.(quantidade := n)
    case SetFrete(n) => x.(frete := n)
    case SetImpostos(n) => x.(impostos := n)
    case SetAplicacao(s) => x.(aplicacao := Some(s))
    case SetCustoPorPeca(n) => x.(custo_por_peca := n)
    case SetObs(s) => x.(obs := Some(s))
  }

  /** An edit writes its value into the column it names and no other. */
  lemma ApplyEditChangesOnlyNamedField(x: DbBudgetItem, e: ItemEdit)
    ensures Read(ApplyEdit(x, e), FieldOf(e)) == ValueOf(e)
    ensures forall f :: f != FieldOf(e) ==> Read(ApplyEdit(x, e), f) == Read(x, f)
  {
  }

  // ---------------------------------------------------------------------
  // Partial project updates: `{ ...p, ...config }`

  /** A `Partial<DbBudgetProject>`: the columns to overwrite. */
  datatype ProjectPatch = ProjectPatch(
    id: Option<string>,
    user_id: Option<string>,
    name: Option<string>,
    description: Option<Option<string>>,
    impostos_default: Option<real>,
    margem_lucro: Option<real>,
    frete_medio: Option<real>,
    custo_operacional: Option<real>,
    mao_obra_interna: Option<real>,
    producao_mensal: Option<real>,
    created_at: Option<string>,
    updated_at: Option<string>
  )

  function Pick<T>(given: Option<T>, current: T): T
  {
    match given
    case Some(v) => v
    case None => current
  }

  function Merge(p: DbBudgetProject, c: ProjectPatch): DbBudgetProject
  {
    DbBudgetProject(
      Pick(c.id, p.id), Pick(c.user_id, p.user_id), Pick(c.name, p.name),
      Pick(c.description, p.description), Pick(c.impostos_default, p.impostos_default),
      Pick(c.margem_lucro, p.margem_lucro), Pick(c.frete_medio, p.frete_medio),
      Pick(c.custo_operacional, p.custo_operacional), Pick(c.mao_obra_interna, p.mao_obra_interna),
      Pick(c.producao_mensal, p.producao_mensal), Pick(c.created_at, p.created_at),
      Pick(c.updated_at, p.updated_at))
  }

  /** Merging the same patch twice is merging it once, and the patch that
      names no column changes nothing. */
  lemma MergeIdempotent(p: DbBudgetProject, c: ProjectPatch)
    ensures Merge(Merge(p, c), c) == Merge(p, c)
    ensures Merge(p, ProjectPatch(None, None, None, None, None, None, None, None, None, None, None, None)) == p
  {
  }

  // ---------------------------------------------------------------------
  // The hook's state

  class BudgetDatabase {
    /** The signed-in user's id, if any. */
    var user: Option<string>
    var projects: seq<DbBudgetProject>
    var currentProject: Option<DbBudgetProject>
    var materials: seq<DbBudgetItem>
    var machines: seq<DbBudgetItem>
    var production: seq<DbBudgetItem>
    var loading: bool

    constructor (user0: Option<string>)
      ensures user == user0 && projects == [] && currentProject == None
      ensures materials == [] && machines == [] && production == [] && loading
    {
      user, projects, currentProject := user0, [], None;
      materials, machines, production, loading := [], [], [], true;
    }

    function Items(table: ItemTable): seq<DbBudgetItem>
      reads this
    {
      match table
      case Materials => materials
      case Machines => machines
      case Production => production
    }

    /** The current project, if any, is one of the listed projects. */
    ghost predicate CurrentListed()
      reads this
    {
      currentProject.Some? ==> currentProject.value in projects
    }

    /** The selector's `setCurrentProject`. */
    method SetCurrentProject(p: Option<DbBudgetProject>)
      modifies this
      ensures currentProject == p
      ensures user == old(user) && projects == old(projects) && loading == old(loading)
      ensures materials == old(materials) && machines == old(machines) && production == old(production)
    {
      currentProject := p;
    }

    /** `createProject(name, description)`. With no user nothing is sent and
        nothing changes; on success the new row is put first and becomes
        current; on failure nothing changes. Returns the created row. */
    method CreateProject(name: string, description: Option<string>, reply: Reply<DbBudgetProject>)
      returns (created: Option<DbBudgetProject>, sent: Option<ProjectInsert>)
      modifies this
      ensures sent == if old(user).None? then None else Some(ProjectInsert(old(user).value, name, description))
      ensures old(user).Some? && reply.Ok? ==>
        && created == Some(reply.value)
        && projects == [reply.value] + old(projects)
        && currentProject == Some(reply.value)
      ensures old(user).None? || reply.Err? ==>
        created == None && projects == old(projects) && currentProject == old(currentProject)
      ensures old(CurrentListed()) ==> CurrentListed()
      ensures user == old(user) && loading == old(loading)
      ensures materials == old(materials) && machines == old(machines) && production == old(production)
    {
      created, sent := None, None;
      if user.None? {
        return;
      }
      sent := Some(ProjectInsert(user.value, name, description));
      if reply.Err? {
        return;
      }
      projects := [reply.value] + projects;
      currentProject := Some(reply.value);
      created := Some(reply.value);
    }

    /** `loadProjects`: replace the list with the stored projects and select
        the first, or create the main project when there are none. */
    method LoadProjects(reply: Reply<seq<DbBudgetProject>>, createReply: Reply<DbBudgetProject>)
      returns (sent: Option<ProjectInsert>)
      modifies this
      ensures old(user).None? || reply.Err? ==>
        sent == None && projects == old(projects) && currentProject == old(currentProject)
      ensures old(user).Some? && reply.Ok? && reply.value != [] ==>
        sent == None && projects == reply.value && currentProject == Some(reply.value[0])
      ensures old(user).Some? && reply.Ok? && reply.value == [] ==>
        && sent == Some(ProjectInsert(old(user).value, MainProjectName, None))
        && (createReply.Ok? ==> projects == [createReply.value] && currentProject == Some(createReply.value))
        && (createReply.Err? ==> projects == [] && currentProject == old(currentProject))
      ensures old(user).Some? && reply.Ok? && (reply.value != [] || createReply.Ok?) ==>
        currentProject.Some? && CurrentListed()
      ensures user == old(user) && loading == old(loading)
      ensures materials == old(materials) && machines == old(machines) && production == old(production)
    {
      sent := None;
      if user.None? || reply.Err? {
        return;
      }
      var data := reply.value;
      projects := data;
      if |data| > 0 {
        currentProject := Some(data[0]);
      } else {
        var _, s := CreateProject(MainProjectName, None, createReply);
        sent := s;
      }
    }

    /** `updateProjectConfig(config)`: with a current project, after a
        successful update merge the patch into the current project and into
        the listed project with the same id. */
    method UpdateProjectConfig(patch: ProjectPatch, reply: Reply<()>) returns (sent: bool)
      modifies this
      ensures sent == old(currentProject).Some?
      ensures old(currentProject).Some? && reply.Ok? ==>
        && currentProject == Some(Merge(old(currentProject).value, patch))
        && projects == UpdateKey(old(projects), ProjectId, old(currentProject).value.id, patch, Merge)
      ensures old(currentProject).None? || reply.Err? ==>
        currentProject == old(currentProject) && projects == old(projects)
      ensures old(CurrentListed()) ==> CurrentListed()
      ensures user == old(user) && loading == old(loading)
      ensures materials == old(materials) && machines == old(machines) && production == old(production)
    {
      sent := currentProject.Some?;
      if currentProject.None? || reply.Err? {
        return;
      }
      var current := currentProject.value;
      if current in projects {
        UpdateKeyMember(projects, ProjectId, current.id, patch, Merge, current);
      }
      currentProject := Some(Merge(current, patch));
      projects := UpdateKey(projects, ProjectId, current.id, patch, Merge);
    }

    /** `loadProjectItems`: with a current project, replace the three lists
        with the rows stored for it; a failed query leaves its list empty. */
    method LoadProjectItems(materialsReply: Reply<seq<DbBudgetItem>>, machinesReply: Reply<seq<DbBudgetItem>>,
                            productionReply: Reply<seq<DbBudgetItem>>)
      modifies this
      ensures old(currentProject).None? ==>
        materials == old(materials) && machines == old(machines) && production == old(production) && loading == old(loading)
      ensures old(currentProject).Some? ==>
        && materials == (if materialsReply.Ok? then materialsReply.value else [])
        && machines == (if machinesReply.Ok? then machinesReply.value else [])
        && production == (if productionReply.Ok? then productionReply.value else [])
        && !loading
      ensures user == old(user) && projects == old(projects) && currentProject == old(currentProject)
    {
      if currentProject.None? {
        return;
      }
      loading := true;
      materials := if materialsReply.Ok? then materialsReply.value else [];
      machines := if machinesReply.Ok? then machinesReply.value else [];
      production := if productionReply.Ok? then productionReply.value else [];
      loading := false;
    }

    /** `addItem(table)`: with a current project, insert a blank row with the
        table's default tax rate and, on success, append the returned row to
        that table's list only. */
    method AddItem(table: ItemTable, reply: Reply<DbBudgetItem>) returns (sent: Option<ItemInsert>)
      modifies this
      ensures sent == if old(currentProject).None? then None else Some(NewItemInsert(table, old(currentProject).value.id))
      ensures old(currentProject).Some? && reply.Ok? ==> Items(table) == old(Items(table)) + [reply.value]
      ensures old(currentProject).None? || reply.Err? ==> Items(table) == old(Items(table))
      ensures forall t :: t != table ==> Items(t) == old(Items(t))
      ensures user == old(user) && projects == old(projects) && currentProject == old(currentProject)
      ensures loading == old(loading)
    {
      sent := None;
      if currentProject.None? {
        return;
      }
      sent := Some(NewItemInsert(table, currentProject.value.id));
      if reply.Err? {
        return;
      }
      match table
      case Materials => materials := materials + [reply.value];
      case Machines => machines := machines + [reply.value];
      case Production => production := production + [reply.value];
    }

    /** `updateItem(table, id, field, value)`: after a successful update,
        write the field of every listed row of that table with this id. */
    method UpdateItem(table: ItemTable, id: string, edit: ItemEdit, reply: Reply<()>)
      modifies this
      ensures reply.Ok? ==> Items(table) == UpdateKey(old(Items(table)), ItemId, id, edit, ApplyEdit)
      ensures reply.Err? ==> Items(table) == old(Items(table))
      ensures forall t :: t != table ==> Items(t) == old(Items(t))
      ensures user == old(user) && projects == old(projects) && currentProject == old(currentProject)
      ensures loading == old(loading)
    {
      if reply.Err? {
        return;
      }
      match table
      case Materials => materials := UpdateKey(materials, ItemId, id, edit, ApplyEdit);
      case Machines => machines := UpdateKey(machines, ItemId, id, edit, ApplyEdit);
      case Production => production := UpdateKey(production, ItemId, id, edit, ApplyEdit);
    }

    /** `removeItem(table, id)`: after a successful delete, drop every listed
        row of that table with this id. */
    method RemoveItem(table: ItemTable, id: string, reply: Reply<()>)
      modifies this
      ensures reply.Ok? ==> Items(table) == RemoveKey(old(Items(table)), ItemId, id)
      ensures reply.Err? ==> Items(table) == old(Items(table))
      ensures forall t :: t != table ==> Items(t) == old(Items(t))
      ensures user == old(user) && projects == old(projects) && currentProject == old(currentProject)
      ensures loading == old(loading)
    {
      if reply.Err? {
        return;
      }
      match table
      case Materials => materials := RemoveKey(materials, ItemId, id);
      case Machines => machines := RemoveKey(machines, ItemId, id);
      case Production => production := RemoveKey(production, ItemId, id);
    }

    /** `deleteProject(projectId)`: after a successful delete, drop the
        project from the list. If it was current, the first remaining project
        becomes current, or a replacement project is created when none is
        left. If that creation fails, the deleted project stays current. */
    method DeleteProject(projectId: string, reply: Reply<()>, createReply: Reply<DbBudgetProject>)
      returns (sent: Option<ProjectInsert>)
      modifies this
      ensures reply.Err? ==> sent == None && projects == old(projects) && currentProject == old(currentProject)
      ensures reply.Ok? ==>
        var remaining := RemoveKey(old(projects), ProjectId, projectId);
        var wasCurrent := old(currentProject).Some? && old(currentProject).value.id == projectId;
        && (!wasCurrent ==> sent == None && projects == remaining && currentProject == old(currentProject))
        && (wasCurrent && remaining != [] ==>
              sent == None && projects == remaining && currentProject == Some(remaining[0]))
        && (wasCurrent && remaining == [] ==>
              && sent == (if old(user).None? then None else Some(ProjectInsert(old(user).value, ReplacementProjectName, None)))
              && (old(user).Some? && createReply.Ok? ==>
                    projects == [createReply.value] && currentProject == Some(createReply.value))
              && (old(user).None? || createReply.Err? ==>
                    projects == [] && currentProject == old(currentProject)))
      ensures reply.Ok? && old(CurrentListed()) ==>
        CurrentListed() || (old(currentProject).Some? && old(currentProject).value.id == projectId
                            && projects == [] && currentProject == old(currentProject))
      ensures user == old(user) && loading == old(loading)
      ensures materials == old(materials) && machines == old(machines) && production == old(production)
    {
      sent := None;
      if reply.Err? {
        return;
      }
      var remaining := RemoveKey(projects, ProjectId, projectId);
      if currentProject.Some? && currentProject.value !in remaining {
        RemoveKeyMembers(projects, ProjectId, projectId, currentProject.value);
      }
      projects := remaining;
      if currentProject.Some? && currentProject.value.id == projectId {
        if |remaining| > 0 {
          currentProject := Some(remaining[0]);
        } else {
          var _, s := CreateProject(ReplacementProjectName, None, createReply);
          sent := s;
        }
      }
    }
  }

  /** After a successful delete no listed project has the deleted id, unless
      it is the replacement the backend just created. */
  lemma DeletedProjectIsGone(projects: seq<DbBudgetProject>, projectId: string)
    ensures forall p :: p in RemoveKey(projects, ProjectId, projectId) ==> p.id != projectId
    ensures IsSubsequence(RemoveKey(projects, ProjectId, projectId), projects)
  {
    forall p | p in RemoveKey(projects, ProjectId, projectId) ensures p.id != projectId {
      RemoveKeyMembers(projects, ProjectId, projectId, p);
    }
    RemoveKeySubsequence(projects, ProjectId, projectId);
  }

  /** Merging the patch into the listed projects touches only the entry
      with the current project's id. */
  lemma UpdateConfigTouchesOnlyCurrent(projects: seq<DbBudgetProject>, currentId: string, patch: ProjectPatch, i: nat)
    requires i < |projects|
    ensures |UpdateKey(projects, ProjectId, currentId, patch, Merge)| == |projects|
    ensures UpdateKey(projects, ProjectId, currentId, patch, Merge)[i]
            == if projects[i].id == currentId then Merge(projects[i], patch) else projects[i]
  {
    UpdateKeyAt(projects, ProjectId, currentId, patch, Merge, i);
  }

  /** What a successful `updateItem` does to a list: the length is kept; a
      row with the id gets the value in the named column and keeps every
      other column; every other row is untouched. */
  lemma UpdateItemSpec(xs: seq<DbBudgetItem>, id: string, e: ItemEdit, i: nat)
    requires i < |xs|
    ensures |UpdateKey(xs, ItemId, id, e, ApplyEdit)| == |xs|
    ensures xs[i].id != id ==> UpdateKey(xs, ItemId, id, e, ApplyEdit)[i] == xs[i]
    ensures xs[i].id == id ==>
      && Read(UpdateKey(xs, ItemId, id, e, ApplyEdit)[i], FieldOf(e)) == ValueOf(e)
      && forall f :: f != FieldOf(e) ==> Read(UpdateKey(xs, ItemId, id, e, ApplyEdit)[i], f) == Read(xs[i], f)
  {
    UpdateKeyAt(xs, ItemId, id, e, ApplyEdit, i);
    ApplyEditChangesOnlyNamedField(xs[i], e);
  }

  /** What a successful `removeItem` does to a list: no row with the id is
      left, every other row is kept, in order. */
  lemma RemoveItemSpec(xs: seq<DbBudgetItem>, id: string)
    ensures forall x :: x in RemoveKey(xs, ItemId, id) <==> x in xs && x.id != id
    ensures IsSubsequence(RemoveKey(xs, ItemId, id), xs)
  {
    forall x ensures x in RemoveKey(xs, ItemId, id) <==> x in xs && x.id != id {
      RemoveKeyMembers(xs, ItemId, id, x);
    }
    RemoveKeySubsequence(xs, ItemId, id);
  }
}
