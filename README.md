# Orçamento Odò — a verified model of the budget core

This project models the costing core of Odò's budget planner for a clothing
shop. A budget has three item lists:

- materials (*materiais*);
- machines and equipment (*máquinas*);
- production services (*produção*).

Every line item costs `precoUnit × quantidade`, plus that subtotal's tax
percentage, plus freight. Each list's total is the left-to-right sum of those
final costs. From the totals and a configuration record the planner derives:

- a fixed cost per piece: equipment amortised over 24 months, plus operating
  cost and internal labour, all shared over the monthly production;
- a variable cost per piece;
- a per-piece total;
- three suggested prices at two, three and four times that total.

The model covers five parts of the source, one Dafny module each:

- **UseBudget** (`use_budget.dfy`): the local hook. It holds the per-item
  formulas, the totals, the per-piece breakdown, and the in-memory store
  `BudgetStore`, whose add, remove and update operations replace one of its
  lists.
- **UseBudgetDatabase** (`use_budget_database.dfy`): the remote-backed hook.
  The class `BudgetDatabase` holds the project list, the current project and
  that project's three row lists. Each operation takes the backend's reply
  as a parameter, changes the state only after a successful reply, and
  returns the request it would send.
- **BudgetOverviewDb** (`budget_overview_db.dfy`): the database overview.
  It uses the same formulas, with `|| default` fallbacks for configuration
  values that are zero or missing. Its material term is the mean of the
  materials' per-piece hints.
- **MaterialsBySupplier** (`materials_by_supplier.dfy`): the supplier view.
  Materials are grouped under their trimmed supplier name, or under
  "Sem Fornecedor". Each group is stably sorted by unit price. The groups
  are ordered by a locale comparison that forces "Sem Fornecedor" last. Each
  card shows its total, and the view shows a grand total.
- **ExportCsv** (`export_csv.dfy`): the CSV export. The document has a
  title, four sections (materials, machines, production, overall budget), one
  row per item in input order, and nine `Label,R$ value` summary lines.

Two further modules support them. `common.dfy` holds the list operations
shared by both stores and the views: filtering by key, updating by key, and
the sum as a left fold. `budget_types.dfy` holds the local records.

Money is modelled with exact reals. Three things from the runtime become
parameters:

- the string rendering of numbers, `${x}` and `x.toFixed(2)`, becomes the
  function parameters `num` and `fixed2`;
- the locale comparison becomes an abstract strict total order `less`;
- `Date.now()` becomes an `id` argument.

## Model

| member | source | states |
|---|---|---|
| UseBudget.CustoItem | src/hooks/useBudget.ts:5-7 | An item's final cost is subtotal + subtotal × rate/100 + freight; with no negative input it is at least subtotal + freight |
| UseBudget.CalcularTotais | src/hooks/useBudget.ts:15-22 | The total of an empty list is 0 |
| UseBudget.CalcularTotaisSnoc | src/hooks/useBudget.ts:15-22 | Appending an item adds exactly its final cost to the list's total |
| UseBudget.CalcularTotaisConcatAndReorder | src/hooks/useBudget.ts:15-22 | The total of two lists laid end to end is the sum of their totals and does not depend on their order |
| UseBudget.CalcularTotaisNonNegative | src/hooks/useBudget.ts:15-22 | With no negative price, quantity, rate or freight, a total is never negative |
| UseBudget.CustoFixoPorPeca | src/hooks/useBudget.ts:30-35 | Fixed cost per piece × monthly production = machines total / 24 + operating cost + internal labour |
| UseBudget.CustoVariavelPorPeca | src/hooks/useBudget.ts:37-40 | Variable cost per piece × monthly production = production total |
| UseBudget.CalcularPrecos | src/hooks/useBudget.ts:46-50 | Each price's margin over the per-piece total is one, two and three times that total; for a positive total the tiers strictly increase |
| UseBudget.CalcularResumo | src/hooks/useBudget.ts:24-50 | The totals are the three lists' reduces. Fixed and variable per-piece costs satisfy their per-piece equations with those totals. The per-piece total is fixed + variable + 67.85. The prices are 2×, 3× and 4× that total |
| UseBudget.ResumoIgnoresMaterials | src/hooks/useBudget.ts:42-44 | Per-piece total = fixed + variable + 67.85; the material list changes no per-piece value and no price |
| UseBudget.NovoItemKeepsTotal | src/hooks/useBudget.ts:52-66 | A new blank item costs 0, so adding it leaves the list's total unchanged |
| UseBudget.BudgetStore.constructor | src/hooks/useBudget.ts:10-13 | The store starts with the given three lists and configuration |
| UseBudget.BudgetStore.SetConfig | src/hooks/useBudget.ts:13 | Replaces the configuration and leaves the three lists unchanged |
| UseBudget.BudgetStore.AdicionarItem | src/hooks/useBudget.ts:52-71 | The chosen list gains exactly one blank item at its end, with the configured default tax rate; the other lists and the configuration are unchanged |
| UseBudget.BudgetStore.RemoverItem | src/hooks/useBudget.ts:73-77 | The chosen list becomes its filter by id; the other lists and the configuration are unchanged |
| UseBudget.BudgetStore.AtualizarItem | src/hooks/useBudget.ts:79-91 | The chosen list becomes its map that rewrites one field where the id matches; the other lists and the configuration are unchanged |
| UseBudget.RemoverItemSpec | src/hooks/useBudget.ts:74-76 | After removal, an item is present iff it was present with another id; survivors keep their order; exactly the matching items are gone |
| UseBudget.AtualizarItemSpec | src/hooks/useBudget.ts:85-86 | The length is kept. A matching item gets the value in the named field and keeps every other field. A non-matching item is untouched |
| BudgetTypes.AplicarChangesOnlyNamedField | src/hooks/useBudget.ts:86 | `{ ...item, [campo]: valor }` writes the named field and leaves every other field as it was |
| Common.RemoveKey | src/hooks/useBudget.ts:74 | The filter's result is shorter than its input by exactly the number of elements with the key |
| Common.RemoveKeyMembers | src/hooks/useBudget.ts:74 | An element survives the filter iff it was present and its key differs |
| Common.RemoveKeySubsequence | src/hooks/useBudget.ts:74 | The filter keeps the survivors in their original order |
| Common.RemoveKeyAbsent | src/hooks/useBudget.ts:74 | Filtering out a key no element has changes nothing |
| Common.UpdateKey | src/hooks/useBudget.ts:86 | The keyed map keeps the length |
| Common.UpdateKeyAt | src/hooks/useBudget.ts:86 | At each position, the keyed map rewrites a matching element and keeps any other |
| Common.UpdateKeyMember | src/hooks/useBudget.ts:86 | A matching element appears, rewritten, in the result |
| Common.SumOfAppend | src/hooks/useBudget.ts:16-21 | The reduce over a concatenation is the sum of the two reduces |
| Common.SumOfPermutation | src/hooks/useBudget.ts:16-21 | The reduce gives the same sum for any permutation of the list |
| Common.SumOfAtLeast | src/hooks/useBudget.ts:16-21 | A termwise lower bound lo gives a sum of at least n × lo |
| Common.SumOfAtMost | src/hooks/useBudget.ts:16-21 | A termwise upper bound hi gives a sum of at most n × hi |
| UseBudgetDatabase.ApplyEditChangesOnlyNamedField | src/hooks/useBudgetDatabase.ts:191-192 | A row edit writes its value into the named column and no other |
| UseBudgetDatabase.MergeIdempotent | src/hooks/useBudgetDatabase.ts:112-113 | Merging a partial project twice equals merging it once; the empty partial changes nothing |
| UseBudgetDatabase.BudgetDatabase.constructor | src/hooks/useBudgetDatabase.ts:38-44 | Starts with no projects, no current project, empty row lists and loading set |
| UseBudgetDatabase.BudgetDatabase.SetCurrentProject | src/hooks/useBudgetDatabase.ts:40 | Sets the current project and changes nothing else |
| UseBudgetDatabase.BudgetDatabase.CreateProject | src/hooks/useBudgetDatabase.ts:72-95 | Without a user, nothing is sent and nothing changes. On success, the new row goes first and becomes current. On failure, nothing changes. The current project stays listed |
| UseBudgetDatabase.BudgetDatabase.LoadProjects | src/hooks/useBudgetDatabase.ts:47-69 | Without a user or on failure, nothing changes. A non-empty reply becomes the list and its first row becomes current. An empty reply sends an insert of "Orçamento Principal", whose outcome decides the list and the current project |
| UseBudgetDatabase.BudgetDatabase.UpdateProjectConfig | src/hooks/useBudgetDatabase.ts:98-114 | Sent iff there is a current project. On success, the patch is merged into the current project and into the listed entry with its id. Otherwise nothing changes |
| UseBudgetDatabase.BudgetDatabase.LoadProjectItems | src/hooks/useBudgetDatabase.ts:117-136 | With a current project, each list becomes its query's rows, or empty if that query failed, and loading ends false. Without one, nothing changes |
| UseBudgetDatabase.BudgetDatabase.AddItem | src/hooks/useBudgetDatabase.ts:139-172 | Sends the blank row with the table's default tax (12, 15 or 8). On success, only that table's list gains the returned row at its end |
| UseBudgetDatabase.BudgetDatabase.UpdateItem | src/hooks/useBudgetDatabase.ts:175-197 | On success, that table's list becomes its keyed map with the edit; on failure it is unchanged; the other lists are always unchanged |
| UseBudgetDatabase.BudgetDatabase.RemoveItem | src/hooks/useBudgetDatabase.ts:200-217 | On success, that table's list becomes its filter by id; the other lists are unchanged |
| UseBudgetDatabase.BudgetDatabase.DeleteProject | src/hooks/useBudgetDatabase.ts:220-244 | On success, the project is filtered out. If it was current, the first remaining project becomes current, or "Novo Orçamento" is created when none is left. If that creation fails, the deleted project stays current |
| UseBudgetDatabase.DeletedProjectIsGone | src/hooks/useBudgetDatabase.ts:232-233 | No remaining project has the deleted id, and the remaining projects keep their order |
| UseBudgetDatabase.UpdateConfigTouchesOnlyCurrent | src/hooks/useBudgetDatabase.ts:113 | The project list's map rewrites only the entry with the current id |
| UseBudgetDatabase.UpdateItemSpec | src/hooks/useBudgetDatabase.ts:191-192 | The length is kept. A row with the id gets the value in the named column and keeps the others. Other rows are untouched |
| UseBudgetDatabase.RemoveItemSpec | src/hooks/useBudgetDatabase.ts:212 | A row survives iff it was present with another id; survivors keep their order |
| BudgetOverviewDb.CalcularTotais | src/components/budget/BudgetOverviewDb.tsx:15-22 | The total of no rows is 0 |
| BudgetOverviewDb.CalcularTotaisSnoc | src/components/budget/BudgetOverviewDb.tsx:15-22 | Appending a row adds exactly its final cost |
| BudgetOverviewDb.ParametrosEfetivos | src/components/budget/BudgetOverviewDb.tsx:38-40 | A missing project gives 100, 2500 and 3500. A zero column gives its own default, and any other value is used as stored. None of the three is ever zero |
| BudgetOverviewDb.CustoMaterialMedio | src/components/budget/BudgetOverviewDb.tsx:44-46 | With no materials it is 67.85; otherwise mean × count = the sum of the per-piece hints |
| BudgetOverviewDb.CustoMaterialMedioBounds | src/components/budget/BudgetOverviewDb.tsx:44-46 | The mean lies between any lower and upper bound of the hints |
| BudgetOverviewDb.CalcularAnalise | src/components/budget/BudgetOverviewDb.tsx:32-53 | The totals are the reduces of the three row lists, and the material term is the mean of the materials' hints. Total = fixed + variable + material term. Fixed and variable satisfy the per-piece equations with the effective parameters. Prices are 2×, 3× and 4× the total |
| BudgetOverviewDb.Lucros | src/components/budget/BudgetOverviewDb.tsx:124-145 | The displayed profit under each price is one, two and three times the per-piece total |
| BudgetOverviewDb.AgreesWithLocalFormulas | src/components/budget/BudgetOverviewDb.tsx:42-47 | Where no fallback applies, fixed and variable per-piece costs equal the local hook's; with no materials, the material term is the local constant 67.85 |
| MaterialsBySupplier.Trim | src/components/budget/MaterialsBySupplier.tsx:23 | The result is the input minus its maximal leading and trailing whitespace: the slice after the leading run, with only whitespace after it, empty iff all-whitespace, otherwise bounded by non-whitespace |
| MaterialsBySupplier.TrimIdempotent | src/components/budget/MaterialsBySupplier.tsx:23 | Trimming twice equals trimming once |
| MaterialsBySupplier.SupplierKey | src/components/budget/MaterialsBySupplier.tsx:23 | The key is non-empty and trimmed. It is "Sem Fornecedor" iff the supplier is null, blank or literally that name; otherwise it is the trimmed name |
| MaterialsBySupplier.GroupOfMembers | src/components/budget/MaterialsBySupplier.tsx:22-29 | A group holds exactly the elements with its key |
| MaterialsBySupplier.KeysInOrderSpec | src/components/budget/MaterialsBySupplier.tsx:22-29 | The group keys are distinct, include every element's key, and include only keys some element has |
| MaterialsBySupplier.EveryMaterialInExactlyOneGroup | src/components/budget/MaterialsBySupplier.tsx:22-29 | Each material's key is listed, and the material is in a group iff that group's key is its own |
| MaterialsBySupplier.Push | src/components/budget/MaterialsBySupplier.tsx:24-28 | The reduce callback keeps the grouping invariant: after pushing one more material, the keys are the first-seen order and each list is that key's materials in input order |
| MaterialsBySupplier.GroupBySupplier | src/components/budget/MaterialsBySupplier.tsx:22-29 | The reduce throws iff some material's name is inherited from `Object.prototype` ("constructor", "toString", "__proto__", …). Otherwise it yields keys in first-seen order, and the map has exactly those keys, each holding that key's materials in input order |
| MaterialsBySupplier.InsertBy | src/components/budget/MaterialsBySupplier.tsx:33 | Insertion adds exactly one copy of the element |
| MaterialsBySupplier.InsertBySorted | src/components/budget/MaterialsBySupplier.tsx:33 | Inserting into a price-sorted list keeps it sorted |
| MaterialsBySupplier.InsertByStable | src/components/budget/MaterialsBySupplier.tsx:33 | Insertion keeps the order of equal-price elements and puts the new one after them |
| MaterialsBySupplier.SortBy | src/components/budget/MaterialsBySupplier.tsx:33 | The sort by unit price is a permutation of its input and is ascending |
| MaterialsBySupplier.SortByStable | src/components/budget/MaterialsBySupplier.tsx:33 | Materials of equal price keep their input order (stable sort) |
| MaterialsBySupplier.SortGroups | src/components/budget/MaterialsBySupplier.tsx:32-34 | The same suppliers remain, and each list is replaced by its stable sort by price |
| MaterialsBySupplier.BeforeIsStrictOrder | src/components/budget/MaterialsBySupplier.tsx:37-41 | The supplier comparator with "Sem Fornecedor" forced last is irreflexive, asymmetric, transitive and total on distinct names |
| MaterialsBySupplier.InsertKey | src/components/budget/MaterialsBySupplier.tsx:37-41 | Insertion adds exactly one copy of the key |
| MaterialsBySupplier.InsertKeyOrdered | src/components/budget/MaterialsBySupplier.tsx:37-41 | Inserting a new key into an ordered list keeps it ordered |
| MaterialsBySupplier.SortSuppliers | src/components/budget/MaterialsBySupplier.tsx:37-41 | The sorted suppliers are a permutation of the keys and are ordered by the comparator, with "Sem Fornecedor" last when present |
| MaterialsBySupplier.SentinelLast | src/components/budget/MaterialsBySupplier.tsx:38-39 | In any ordered supplier list, "Sem Fornecedor" is last when present |
| MaterialsBySupplier.FirstIsLeast | src/components/budget/MaterialsBySupplier.tsx:37-41 | The first supplier precedes every other listed supplier |
| MaterialsBySupplier.SupplierOrderIsUnique | src/components/budget/MaterialsBySupplier.tsx:37-41 | Two ordered permutations of the same suppliers are equal, so the order does not depend on first-seen key order |
| MaterialsBySupplier.OrderedKeysDistinct | src/components/budget/MaterialsBySupplier.tsx:37-41 | An ordered supplier list has no duplicates |
| MaterialsBySupplier.ListedKeyHasGroup | src/components/budget/MaterialsBySupplier.tsx:24-27 | Every listed supplier has a non-empty group |
| MaterialsBySupplier.UnlistedKeyHasNoGroup | src/components/budget/MaterialsBySupplier.tsx:24-27 | An unlisted key has an empty group |
| MaterialsBySupplier.BuildCards | src/components/budget/MaterialsBySupplier.tsx:63-69 | There is one card per sorted supplier, in that order, holding the supplier's list and its reduce total |
| MaterialsBySupplier.FlattenSizes | src/components/budget/MaterialsBySupplier.tsx:80 | The cards' item counts add up to the number of materials shown |
| MaterialsBySupplier.FlattenTotals | src/components/budget/MaterialsBySupplier.tsx:159-165 | The card totals add up to the total of all shown materials |
| MaterialsBySupplier.CardsCollectTheirKeys | src/components/budget/MaterialsBySupplier.tsx:63-69 | Cards with distinct suppliers hold exactly the materials whose key is among those suppliers |
| MaterialsBySupplier.CardsHoldAllMaterials | src/components/budget/MaterialsBySupplier.tsx:43-69 | No cards iff no materials. Every card is non-empty. The cards hold the materials as a permutation |
| MaterialsBySupplier.CardsAreTheSortedGroups | src/components/budget/MaterialsBySupplier.tsx:32-34 | Each card's list is its supplier's group sorted by price, and its total is that list's reduce |
| MaterialsBySupplier.ViewIsComplete | src/components/budget/MaterialsBySupplier.tsx:43-69 | No cards iff no materials. Cards are non-empty and permute the materials. Counts add up, and card totals add up to the grand total |
| MaterialsBySupplier.MaterialsBySupplierView | src/components/budget/MaterialsBySupplier.tsx:22-69 | The component throws, and shows no cards, iff some material's name is inherited from `Object.prototype`. Otherwise cards are ordered by the comparator, with "Sem Fornecedor" last, one per distinct key. Each holds its group sorted by price and that group's total. Together the cards hold every material once, and their totals sum to the grand total |
| ExportCsv.Colunas | src/utils/exportCSV.ts:29 | Material and production headers have 14 labels; the machine header has 13 |
| ExportCsv.HeaderFields | src/utils/exportCSV.ts:38 | Each header row splits on commas into its labels; the machine labels are the others minus "Custo/Peça" |
| ExportCsv.CabecalhoShape | src/utils/exportCSV.ts:29 | A header row contains a comma and no newline |
| ExportCsv.RowFields | src/utils/exportCSV.ts:34 | For comma-free text and rendering, an item row splits into its fields: 14 with "Custo/Peça", 13 without, as many as its header |
| ExportCsv.RowColumns | src/utils/exportCSV.ts:34 | Each field sits under its label: item, supplier, subtotal, tax amount, final cost, per-piece hint and notes |
| ExportCsv.AppendRows | src/utils/exportCSV.ts:30-35 | The forEach appends one newline-ended row per item, in input order |
| ExportCsv.AppendSummary | src/utils/exportCSV.ts:55-64 | The nine summary appends add exactly the nine summary lines |
| ExportCsv.SummaryFields | src/utils/exportCSV.ts:56-64 | Summary line i splits into its label and "R$ " + the fixed-point rendering of the i-th input value |
| ExportCsv.ExportToCsv | src/utils/exportCSV.ts:23-64 | The text built is the document's lines, each ended by a newline |
| ExportCsv.DocumentLayout | src/utils/exportCSV.ts:26-64 | The document is: title and blank line; then each section's blank separator, header and column row; its item rows; finally the nine summary lines. It has 21 + m + q + p lines |
| ExportCsv.SectionHeadersAt | src/utils/exportCSV.ts:28-55 | The four section headers sit at lines 2, 5+m, 8+m+q and 11+m+q+p, in that order |
| ExportCsv.SectionHeadersOnceIn | src/utils/exportCSV.ts:28-55 | Whatever the item text, each section header appears exactly once among the lines |
| ExportCsv.SectionHeadersOnce | src/utils/exportCSV.ts:28-55 | In the exported document each section header appears exactly once, at its position |
| ExportCsv.DocumentoSemNewline | src/utils/exportCSV.ts:26-64 | With newline-free item text and rendering, no line contains a newline |
| ExportCsv.ReadBack | src/utils/exportCSV.ts:26-64 | With newline-free text, splitting the CSV on newlines gives back the document lines plus a final empty string, and the CSV has 21 + m + q + p newlines |
| ExportCsv.LinhasComVirgula | src/utils/exportCSV.ts:34 | Every item row contains a comma |
| ExportCsv.LinhasSem | src/utils/exportCSV.ts:34 | Item rows avoid any character absent from the item text and rendering, except ',' and '%' |
| ExportCsv.ResumoComVirgula | src/utils/exportCSV.ts:56-64 | Every summary line contains a comma |
| ExportCsv.ResumoSemNewline | src/utils/exportCSV.ts:56-64 | With newline-free rendering, no summary line contains a newline |
| ExportCsv.SplitJoin | src/utils/exportCSV.ts:34 | Splitting a join of separator-free fields on the separator gives the fields back |
| ExportCsv.JoinSplit | src/utils/exportCSV.ts:34 | Joining a split on the same separator gives the text back |
| ExportCsv.SplitCount | src/utils/exportCSV.ts:26-64 | A split has one more piece than the text has separators |
| ExportCsv.JoinLinesAppend | src/utils/exportCSV.ts:26-64 | Appending lines to the text appends their newline-ended forms |

## Left out

- Supabase I/O: each backend call is a reply parameter, and every operation returns the request it would send. Query ordering (`order('updated_at')`), authentication (`useAuth`), console logging and toasts are not modelled.
- The two `useEffect` triggers (`src/hooks/useBudgetDatabase.ts:247-258`) are not modelled. Neither is the interleaving of concurrent async calls: each operation is modelled as running to completion against the state it starts from.
- `loading`: `LoadProjectItems` sets it to true and then false within one call, so no intermediate render is visible in the model.
- IEEE-754 arithmetic: money is exact real arithmetic. Number-to-text rendering (`${x}`, `toFixed(2)`, `Intl.NumberFormat`) is an uninterpreted parameter.
- `Number(...)` conversions of database columns are the identity: columns are typed as numbers.
- `localeCompare(b, 'pt-BR')` is an abstract strict total order `less`. The pt-BR collation itself is not modelled. The real comparison returns 0 for some distinct names, such as a precomposed "é" and "e" followed by a combining accent, so it is only a total preorder. `SupplierOrderIsUnique`, and the view's independence of key order, hold only under the strict-order abstraction. For such ties the rendered order follows `Object.keys` order.
- MaterialsBySupplier.GroupBySupplier: `Object.keys` lists integer-like keys (a supplier named "123") first, in numeric order, before insertion order. The model states insertion order only. The view's result does not depend on this, because `SupplierOrderIsUnique` shows the sorted order is unique.
- The file download at `src/utils/exportCSV.ts:66-70` (Blob, object URL, link click) is not modelled.
- CSV escaping: the source writes text fields unquoted.
- ExportCsv.RowFields: the 13/14 field count holds only for comma-free text and rendering. A comma in an item's text yields extra fields, as the source writes it.
- ExportCsv.ReadBack: the newline count 21 + m + q + p holds only for newline-free text and rendering.
- UseBudget.CustoFixoPorPeca: requires a non-zero monthly production. The source divides without a guard and would produce Infinity or NaN.
- UseBudget.CustoVariavelPorPeca: requires a non-zero monthly production, for the same reason.
- `margemLucro` and `fretemedio` are carried in the configuration but no formula reads them, as in the source.
- Rendering (JSX markup, CSS classes, the row striping, `'-'` placeholders and the item/itens plural) is not modelled. `src/data/initialData.ts` is not part of this model; the initial lists are constructor arguments.
