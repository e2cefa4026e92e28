/** The CSV export: the text document `exportToCSV` builds from the three
    item lists and the derived values. It is grown line by line: a title, a
    section per list (section header, column-header row, one row per item),
    and a nine-line summary. Fields are joined with commas and are never
    quoted. Number rendering (`${x}` and `x.toFixed(2)`) is passed in as two
    functions. */
module ExportCsv {
  import opened BudgetTypes
  import U = UseBudget

  /** What the caller hands to the export: the lists and the values the
      budget hook derived from them. */
  datatype ExportData = ExportData(
    materiais: seq<BudgetItem>,
    maquinas: seq<BudgetItem>,
    producao: seq<BudgetItem>,
    totais: U.Totais,
    custoFixoPorPeca: real,
    custoVariavelPorPeca: real,
    custoTotalPorPeca: real,
    precos: U.Precos
  )

  // ---------------------------------------------------------------------
  // Joining and splitting on a separator character

  /** `fs.join(sep)` */
  function Join(fs: seq<string>, sep: char): string
  {
    if |fs| == 0 then "" else if |fs| == 1 then fs[0] else fs[0] + [sep] + Join(fs[1..], sep)
  }

  /** The position of the first `sep`, or `|s|` when there is none. */
  function IndexOf(s: string, sep: char): (i: nat)
    ensures i <= |s|
    ensures forall j :: 0 <= j < i ==> s[j] != sep
    ensures i < |s| ==> s[i] == sep
  {
    if s == [] || s[0] == sep then 0 else 1 + IndexOf(s[1..], sep)
  }

  /** `s.split(sep)`: the pieces between the separators, in order. */
  function Split(s: string, sep: char): (r: seq<string>)
    ensures r != []
    decreases |s|
  {
    var i := IndexOf(s, sep);
    if i == |s| then [s] else [s[..i]] + Split(s[i + 1..], sep)
  }

  lemma IndexOfAfter(a: string, b: string, sep: char)
    requires sep !in a
    ensures IndexOf(a + [sep] + b, sep) == |a|
  {
    var s := a + [sep] + b;
    var i := IndexOf(s, sep);
    assert s[|a|] == sep;
    assert forall j :: 0 <= j < |a| ==> s[j] == a[j];
  }

  /** Splitting undoes joining, as long as no piece holds the separator. */
  lemma {:induction false} SplitJoin(fs: seq<string>, sep: char)
    requires fs != []
    requires forall i :: 0 <= i < |fs| ==> sep !in fs[i]
    ensures Split(Join(fs, sep), sep) == fs
  {
    if |fs| > 1 {
      SplitCons(fs[0], Join(fs[1..], sep), sep);
      SplitJoin(fs[1..], sep);
      assert fs == [fs[0]] + fs[1..];
    }
  }

  /** Splitting a text that starts with a separator-free piece and a
      separator. */
  lemma SplitCons(a: string, rest: string, sep: char)
    requires sep !in a
    ensures Split(a + [sep] + rest, sep) == [a] + Split(rest, sep)
  {
    var s := a + [sep] + rest;
    IndexOfAfter(a, rest, sep);
    assert s[..|a|] == a;
    assert s[|a| + 1..] == rest;
  }

  /** Joining undoes splitting, for every text. */
  lemma {:induction false} JoinSplit(s: string, sep: char)
    ensures Join(Split(s, sep), sep) == s
    decreases |s|
  {
    var i := IndexOf(s, sep);
    if i < |s| {
      var tail := s[i + 1..];
      JoinSplit(tail, sep);
      var r := Split(s, sep);
      assert r == [s[..i]] + Split(tail, sep);
      assert r[1..] == Split(tail, sep);
      assert s == s[..i] + [sep] + tail;
    }
  }

  /** There is one more piece than there are separators. */
  lemma {:induction false} SplitCount(s: string, sep: char)
    ensures |Split(s, sep)| == multiset(s)[sep] + 1
    decreases |s|
  {
    var i := IndexOf(s, sep);
    if i == |s| {
      assert sep !in s;
    } else {
      SplitCount(s[i + 1..], sep);
      assert s == s[..i] + [sep] + s[i + 1..];
      assert sep !in s[..i];
    }
  }

  /** A character other than the separator that no piece holds is not in
      the joined text. */
  lemma {:induction false} JoinAvoids(fs: seq<string>, sep: char, c: char)
    requires c != sep
    requires forall i :: 0 <= i < |fs| ==> c !in fs[i]
    ensures c !in Join(fs, sep)
  {
    if |fs| > 1 {
      JoinAvoids(fs[1..], sep, c);
    }
  }

  /** Two or more pieces are joined by at least one separator. */
  lemma JoinHasSeparator(fs: seq<string>, sep: char)
    requires |fs| >= 2
    ensures sep in Join(fs, sep)
  {
    assert Join(fs, sep)[|fs[0]|] == sep;
  }

  // ---------------------------------------------------------------------
  // Lines

  /** Each line followed by a newline, the way `csv += line + '\n'` grows
      the text. */
  function JoinLines(ls: seq<string>): string
  {
    if ls == [] then "" else ls[0] + "\n" + JoinLines(ls[1..])
  }

  lemma {:induction false} JoinLinesAppend(a: seq<string>, b: seq<string>)
    ensures JoinLines(a + b) == JoinLines(a) + JoinLines(b)
  {
    if a != [] {
      JoinLinesAppend(a[1..], b);
      assert (a + b)[0] == a[0];
      assert (a + b)[1..] == a[1..] + b;
      calc {
        JoinLines(a + b);
        a[0] + "\n" + JoinLines(a[1..] + b);
        a[0] + "\n" + (JoinLines(a[1..]) + JoinLines(b));
        (a[0] + "\n" + JoinLines(a[1..])) + JoinLines(b);
      }
    } else {
      assert a + b == b;
    }
  }

  lemma JoinLinesOne(l: string)
    ensures JoinLines([l]) == l + "\n"
  {
    assert [l][1..] == [];
  }

  /** A newline-terminated text is the lines joined by newlines, with an
      empty piece after the last newline. */
  lemma {:induction false} JoinLinesIsJoin(ls: seq<string>)
    ensures JoinLines(ls) == Join(ls + [""], '\n')
  {
    if ls != [] {
      JoinLinesIsJoin(ls[1..]);
      assert (ls + [""])[1..] == ls[1..] + [""];
    }
  }

  // ---------------------------------------------------------------------
  // The document's fixed text

  const Titulo: string := "PLANILHA DE ORÇAMENTO ODÒ - LOJA DE ROUPAS"
  const SecaoMateriais: string := "=== MATERIAIS BASE ==="
  const SecaoMaquinas: string := "=== MÁQUINAS E EQUIPAMENTOS ==="
  const SecaoProducao: string := "=== PRODUÇÃO ==="
  const SecaoGeral: string := "=== ORÇAMENTO GERAL ==="

  /** The column labels; the machine section has no "Custo/Peça" column. */
  function Colunas(comCustoPorPeca: bool): (cs: seq<string>)
    ensures |cs| == if comCustoPorPeca then 14 else 13
  {
    ["Item", "Categoria", "Descrição", "Fornecedor", "Preço Unit", "Qtd", "Subtotal", "Frete",
     "Impostos %", "Impostos R$", "Custo Final", "Aplicação"]
    + (if comCustoPorPeca then ["Custo/Peça"] else [])
    + ["Obs"]
  }

  /** The column-header row of a section: its labels joined by commas. */
  function Cabecalho(comCustoPorPeca: bool): string
  {
    Join(Colunas(comCustoPorPeca), ',')
  }

  /** The nine summary labels, in the order they are written. */
  const Rotulos: seq<string> := [
    "Total Materiais", "Total Equipamentos", "Total Produção",
    "Custo Fixo por Peça", "Custo Variável por Peça", "Custo Total por Peça",
    "Preço Atacado (x2)", "Preço Varejo Mínimo (x3)", "Preço Varejo Ideal (x4)"
  ]

  /** The value each summary line shows, taken as given from the input. */
  function Valores(d: ExportData): seq<real>
  {
    [d.totais.materiais, d.totais.maquinas, d.totais.producao,
     d.custoFixoPorPeca, d.custoVariavelPorPeca, d.custoTotalPorPeca,
     d.precos.atacado, d.precos.varejoMinimo, d.precos.varejoIdeal]
  }

  /** `Label,R$ value` */
  function LinhaResumo(rotulo: string, valor: real, fixed2: real -> string): string
  {
    rotulo + ",R$ " + fixed2(valor)
  }

  function Resumo(d: ExportData, fixed2: real -> string): seq<string>
  {
    seq(9, i requires 0 <= i < 9 => LinhaResumo(Rotulos[i], Valores(d)[i], fixed2))
  }

  // ---------------------------------------------------------------------
  // Item rows

  /** The fields of one item's row, in column order: the text fields as
      stored, numbers rendered, and the subtotal, tax amount and final cost
      computed with the shared formulas and rendered with two decimals. */
  function Campos(m: BudgetItem, comCustoPorPeca: bool, num: real -> string, fixed2: real -> string): seq<string>
  {
    var subtotal := U.CalcularSubtotal(m.precoUnit, m.quantidade);
    var impostosValor := U.CalcularImpostos(subtotal, m.impostos);
    var custoFinal := U.CalcularCustoFinal(subtotal, impostosValor, m.frete);
    [m.item, m.categoria, m.descricao, m.fornecedor, num(m.precoUnit), num(m.quantidade),
     fixed2(subtotal), num(m.frete), num(m.impostos) + "%", fixed2(impostosValor), fixed2(custoFinal),
     m.aplicacao]
    + (if comCustoPorPeca then [num(m.custoPorPeca)] else [])
    + [m.obs]
  }

  /** The row the template literal writes for one item. */
  function Linha(m: BudgetItem, comCustoPorPeca: bool, num: real -> string, fixed2: real -> string): string
  {
    Join(Campos(m, comCustoPorPeca, num, fixed2), ',')
  }

  function Linhas(xs: seq<BudgetItem>, comCustoPorPeca: bool, num: real -> string, fixed2: real -> string): seq<string>
  {
    seq(|xs|, i requires 0 <= i < |xs| => Linha(xs[i], comCustoPorPeca, num, fixed2))
  }

  /** The document, line by line, around the given column-header rows (with
      and without the "Custo/Peça" column). */
  function Documento(d: ExportData, comCusto: string, semCusto: string, num: real -> string, fixed2: real -> string)
    : seq<string>
  {
    [Titulo, "", SecaoMateriais, comCusto] + Linhas(d.materiais, true, num, fixed2)
    + ["", SecaoMaquinas, semCusto] + Linhas(d.maquinas, false, num, fixed2)
    + ["", SecaoProducao, comCusto] + Linhas(d.producao, true, num, fixed2)
    + ["", SecaoGeral] + Resumo(d, fixed2)
  }

  /** The document `exportToCSV` writes, line by line. */
  function DocumentLines(d: ExportData, num: real -> string, fixed2: real -> string): seq<string>
  {
    Documento(d, Cabecalho(true), Cabecalho(false), num, fixed2)
  }

  // ---------------------------------------------------------------------
  // Building the text

  /** One `forEach` of the export: a row and a newline per item. */
  method AppendRows(csv0: string, xs: seq<BudgetItem>, comCustoPorPeca: bool, num: real -> string, fixed2: real -> string)
    returns (csv: string)
    ensures csv == csv0 + JoinLines(Linhas(xs, comCustoPorPeca, num, fixed2))
  {
    csv := csv0;
    var i := 0;
    while i < |xs|
      invariant 0 <= i <= |xs|
      invariant csv == csv0 + JoinLines(Linhas(xs[..i], comCustoPorPeca, num, fixed2))
    {
      var linha := Linha(xs[i], comCustoPorPeca, num, fixed2);
      LinhasSnoc(xs, i, comCustoPorPeca, num, fixed2);
      LineAppended(csv0, csv, Linhas(xs[..i], comCustoPorPeca, num, fixed2), linha);
      csv := csv + linha + "\n";
      i := i + 1;
    }
    assert xs[..i] == xs;
  }

  lemma LinhasSnoc(xs: seq<BudgetItem>, i: nat, comCustoPorPeca: bool, num: real -> string, fixed2: real -> string)
    requires i < |xs|
    ensures Linhas(xs[..i + 1], comCustoPorPeca, num, fixed2)
            == Linhas(xs[..i], comCustoPorPeca, num, fixed2) + [Linha(xs[i], comCustoPorPeca, num, fixed2)]
  {
  }

  /** `exportToCSV` up to the download: the text is the document's lines,
      each followed by a newline. */
  method ExportToCsv(data: ExportData, num: real -> string, fixed2: real -> string) returns (csv: string)
    ensures csv == JoinLines(DocumentLines(data, num, fixed2))
  {
    var materiais, maquinas, producao := data.materiais, data.maquinas, data.producao;

    Opening(Cabecalho(true));
    csv := Titulo + "\n" + "\n";
    csv := csv + SecaoMateriais + "\n";
    csv := csv + Cabecalho(true) + "\n";
    ghost var lines: seq<string> := [Titulo, "", SecaoMateriais, Cabecalho(true)];
    csv := AppendRows(csv, materiais, true, num, fixed2);
    JoinLinesAppend(lines, Linhas(materiais, true, num, fixed2));
    lines := lines + Linhas(materiais, true, num, fixed2);

    SectionStarted(csv, lines, SecaoMaquinas, Cabecalho(false));
    csv := csv + "\n" + SecaoMaquinas + "\n";
    csv := csv + Cabecalho(false) + "\n";
    lines := lines + ["", SecaoMaquinas, Cabecalho(false)];
    csv := AppendRows(csv, maquinas, false, num, fixed2);
    JoinLinesAppend(lines, Linhas(maquinas, false, num, fixed2));
    lines := lines + Linhas(maquinas, false, num, fixed2);

    SectionStarted(csv, lines, SecaoProducao, Cabecalho(true));
    csv := csv + "\n" + SecaoProducao + "\n";
    csv := csv + Cabecalho(true) + "\n";
    lines := lines + ["", SecaoProducao, Cabecalho(true)];
    csv := AppendRows(csv, producao, true, num, fixed2);
    JoinLinesAppend(lines, Linhas(producao, true, num, fixed2));
    lines := lines + Linhas(producao, true, num, fixed2);

    SummaryStarted(csv, lines);
    csv := csv + "\n" + SecaoGeral + "\n";
    lines := lines + ["", SecaoGeral];
    csv := AppendSummary(csv, data, fixed2);
    JoinLinesAppend(lines, Resumo(data, fixed2));
    lines := lines + Resumo(data, fixed2);
  }

  /** The nine fixed appends of the summary, one `Label,R$ value` line
      each. */
  method AppendSummary(csv0: string, data: ExportData, fixed2: real -> string) returns (csv: string)
    ensures csv == csv0 + JoinLines(Resumo(data, fixed2))
  {
    csv := csv0;
    ghost var written: seq<string> := [];
    LineAppended(csv0, csv, written, LinhaResumo("Total Materiais", data.totais.materiais, fixed2));
    csv := csv + LinhaResumo("Total Materiais", data.totais.materiais, fixed2) + "\n";
    written := written + [LinhaResumo("Total Materiais", data.totais.materiais, fixed2)];
    LineAppended(csv0, csv, written, LinhaResumo("Total Equipamentos", data.totais.maquinas, fixed2));
    csv := csv + LinhaResumo("Total Equipamentos", data.totais.maquinas, fixed2) + "\n";
    written := written + [LinhaResumo("Total Equipamentos", data.totais.maquinas, fixed2)];
    LineAppended(csv0, csv, written, LinhaResumo("Total Produção", data.totais.producao, fixed2));
    csv := csv + LinhaResumo("Total Produção", data.totais.producao, fixed2) + "\n";
    written := written + [LinhaResumo("Total Produção", data.totais.producao, fixed2)];
    LineAppended(csv0, csv, written, LinhaResumo("Custo Fixo por Peça", data.custoFixoPorPeca, fixed2));
    csv := csv + LinhaResumo("Custo Fixo por Peça", data.custoFixoPorPeca, fixed2) + "\n";
    written := written + [LinhaResumo("Custo Fixo por Peça", data.custoFixoPorPeca, fixed2)];
    LineAppended(csv0, csv, written, LinhaResumo("Custo Variável por Peça", data.custoVariavelPorPeca, fixed2));
    csv := csv + LinhaResumo("Custo Variável por Peça", data.custoVariavelPorPeca, fixed2) + "\n";
    written := written + [LinhaResumo("Custo Variável por Peça", data.custoVariavelPorPeca, fixed2)];
    LineAppended(csv0, csv, written, LinhaResumo("Custo Total por Peça", data.custoTotalPorPeca, fixed2));
    csv := csv + LinhaResumo("Custo Total por Peça", data.custoTotalPorPeca, fixed2) + "\n";
    written := written + [LinhaResumo("Custo Total por Peça", data.custoTotalPorPeca, fixed2)];
    LineAppended(csv0, csv, written, LinhaResumo("Preço Atacado (x2)", data.precos.atacado, fixed2));
    csv := csv + LinhaResumo("Preço Atacado (x2)", data.precos.atacado, fixed2) + "\n";
    written := written + [LinhaResumo("Preço Atacado (x2)", data.precos.atacado, fixed2)];
    LineAppended(csv0, csv, written, LinhaResumo("Preço Varejo Mínimo (x3)", data.precos.varejoMinimo, fixed2));
    csv := csv + LinhaResumo("Preço Varejo Mínimo (x3)", data.precos.varejoMinimo, fixed2) + "\n";
    written := written + [LinhaResumo("Preço Varejo Mínimo (x3)", data.precos.varejoMinimo, fixed2)];
    LineAppended(csv0, csv, written, LinhaResumo("Preço Varejo Ideal (x4)", data.precos.varejoIdeal, fixed2));
    csv := csv + LinhaResumo("Preço Varejo Ideal (x4)", data.precos.varejoIdeal, fixed2) + "\n";
    written := written + [LinhaResumo("Preço Varejo Ideal (x4)", data.precos.varejoIdeal, fixed2)];
    assert written == Resumo(data, fixed2);
  }

  lemma JoinLinesSnoc(ls: seq<string>, l: string)
    ensures JoinLines(ls + [l]) == JoinLines(ls) + l + "\n"
  {
    JoinLinesAppend(ls, [l]);
    JoinLinesOne(l);
  }

  lemma JoinLinesTwo(a: string, b: string)
    ensures JoinLines([a, b]) == a + "\n" + b + "\n"
  {
    assert [a, b][1..] == [b];
    JoinLinesOne(b);
  }

  /** Appending a line and a newline to a text that holds `lines` after a
      prefix `csv0`. */
  lemma LineAppended(csv0: string, csv: string, lines: seq<string>, l: string)
    requires csv == csv0 + JoinLines(lines)
    ensures csv + l + "\n" == csv0 + JoinLines(lines + [l])
  {
    JoinLinesSnoc(lines, l);
  }

  /** The title, an empty line, the first section header and its column
      headers. */
  lemma Opening(columns: string)
    ensures Titulo + "\n" + "\n" + SecaoMateriais + "\n" + columns + "\n"
            == JoinLines([Titulo, "", SecaoMateriais, columns])
  {
    var ls := [Titulo, "", SecaoMateriais, columns];
    assert ls[1..] == ["", SecaoMateriais, columns];
    assert ls[1..][1..] == [SecaoMateriais, columns];
    JoinLinesTwo(SecaoMateriais, columns);
  }

  /** `'\n' + header + '\n'` then the column-header row: an empty line, the
      section header and the column headers. */
  lemma SectionStarted(csv: string, lines: seq<string>, header: string, columns: string)
    requires csv == JoinLines(lines)
    ensures csv + "\n" + header + "\n" + columns + "\n" == JoinLines(lines + ["", header, columns])
  {
    var more := ["", header, columns];
    JoinLinesAppend(lines, more);
    assert more[1..] == [header, columns];
    JoinLinesTwo(header, columns);
  }

  lemma SummaryStarted(csv: string, lines: seq<string>)
    requires csv == JoinLines(lines)
    ensures csv + "\n" + SecaoGeral + "\n" == JoinLines(lines + ["", SecaoGeral])
  {
    JoinLinesAppend(lines, ["", SecaoGeral]);
    JoinLinesTwo("", SecaoGeral);
  }


  // ---------------------------------------------------------------------
  // What the document looks like

  /** None of the item's text fields holds the character `c`. */
  predicate TextoSem(m: BudgetItem, c: char)
  {
    c !in m.item && c !in m.categoria && c !in m.descricao && c !in m.fornecedor
    && c !in m.aplicacao && c !in m.obs
  }

  predicate ItensSem(xs: seq<BudgetItem>, c: char)
  {
    forall i :: 0 <= i < |xs| ==> TextoSem(xs[i], c)
  }

  /** No rendering of any number holds the character `c`. */
  ghost predicate RenderSem(render: real -> string, c: char)
  {
    forall x :: c !in render(x)
  }

  lemma CamposSem(m: BudgetItem, comCustoPorPeca: bool, num: real -> string, fixed2: real -> string, c: char)
    requires c != '%' && TextoSem(m, c) && RenderSem(num, c) && RenderSem(fixed2, c)
    ensures forall i :: 0 <= i < |Campos(m, comCustoPorPeca, num, fixed2)| ==> c !in Campos(m, comCustoPorPeca, num, fixed2)[i]
  {
    assert c !in num(m.impostos);
  }

  /** A row has one field per column: 14 for materials and production, 13
      for machines. Split at the commas it gives back its fields, as long as
      no text field and no rendered number holds a comma. */
  lemma RowFields(m: BudgetItem, comCustoPorPeca: bool, num: real -> string, fixed2: real -> string)
    requires TextoSem(m, ',') && RenderSem(num, ',') && RenderSem(fixed2, ',')
    ensures var fs := Split(Linha(m, comCustoPorPeca, num, fixed2), ',');
      && fs == Campos(m, comCustoPorPeca, num, fixed2)
      && |fs| == |Colunas(comCustoPorPeca)| == (if comCustoPorPeca then 14 else 13)
  {
    CamposSem(m, comCustoPorPeca, num, fixed2, ',');
    SplitJoin(Campos(m, comCustoPorPeca, num, fixed2), ',');
  }

  /** Under its column label, a row holds the item's text fields as they
      are, its subtotal, tax amount and final cost rendered with two
      decimals and, where the column exists, its per-piece cost. */
  lemma RowColumns(m: BudgetItem, comCustoPorPeca: bool, num: real -> string, fixed2: real -> string)
    ensures var fs, cs := Campos(m, comCustoPorPeca, num, fixed2), Colunas(comCustoPorPeca);
      && |fs| == |cs|
      && cs[0] == "Item" && fs[0] == m.item
      && cs[3] == "Fornecedor" && fs[3] == m.fornecedor
      && cs[6] == "Subtotal" && fs[6] == fixed2(m.precoUnit * m.quantidade)
      && cs[9] == "Impostos R$" && fs[9] == fixed2(m.precoUnit * m.quantidade * (m.impostos / 100.0))
      && cs[10] == "Custo Final" && fs[10] == fixed2(U.CustoDoItem(m))
      && (comCustoPorPeca ==> cs[12] == "Custo/Peça" && fs[12] == num(m.custoPorPeca))
      && cs[|cs| - 1] == "Obs" && fs[|fs| - 1] == m.obs
  {
    var subtotal := U.CalcularSubtotal(m.precoUnit, m.quantidade);
    assert subtotal == m.precoUnit * m.quantidade;
    assert U.CalcularImpostos(subtotal, m.impostos) == m.precoUnit * m.quantidade * (m.impostos / 100.0);
  }

  /** The column labels hold no comma, so the header row splits back into
      them; the machine header is the other header without "Custo/Peça". */
  lemma HeaderFields(comCustoPorPeca: bool)
    ensures Split(Cabecalho(comCustoPorPeca), ',') == Colunas(comCustoPorPeca)
    ensures Colunas(false) == Colunas(true)[..12] + Colunas(true)[13..]
  {
    ColunasSem(comCustoPorPeca, ',');
    SplitJoin(Colunas(comCustoPorPeca), ',');
  }

  lemma ColunasSem(comCustoPorPeca: bool, c: char)
    requires c == ',' || c == '\n'
    ensures forall i :: 0 <= i < |Colunas(comCustoPorPeca)| ==> c !in Colunas(comCustoPorPeca)[i]
  {
  }

  /** Each summary line is a label and an amount `R$ value`, where the value
      is the one handed in, not recomputed from the lists. */
  lemma SummaryFields(d: ExportData, fixed2: real -> string, i: nat)
    requires RenderSem(fixed2, ',')
    requires i < 9
    ensures Split(Resumo(d, fixed2)[i], ',') == [Rotulos[i], "R$ " + fixed2(Valores(d)[i])]
  {
    var l := Resumo(d, fixed2)[i];
    RotulosSem(',');
    assert ',' !in "R$ " + fixed2(Valores(d)[i]) by {
      assert ',' !in fixed2(Valores(d)[i]);
    }
    assert l == Join([Rotulos[i], "R$ " + fixed2(Valores(d)[i])], ',');
    SplitJoin([Rotulos[i], "R$ " + fixed2(Valores(d)[i])], ',');
  }

  lemma LinhasSem(xs: seq<BudgetItem>, comCustoPorPeca: bool, num: real -> string, fixed2: real -> string, c: char)
    requires c != ',' && c != '%'
    requires ItensSem(xs, c) && RenderSem(num, c) && RenderSem(fixed2, c)
    ensures forall i :: 0 <= i < |xs| ==> c !in Linhas(xs, comCustoPorPeca, num, fixed2)[i]
  {
    forall i | 0 <= i < |xs| ensures c !in Linhas(xs, comCustoPorPeca, num, fixed2)[i] {
      CamposSem(xs[i], comCustoPorPeca, num, fixed2, c);
      JoinAvoids(Campos(xs[i], comCustoPorPeca, num, fixed2), ',', c);
    }
  }

  /** A column-header row holds a comma and no newline. */
  lemma CabecalhoShape(comCustoPorPeca: bool)
    ensures ',' in Cabecalho(comCustoPorPeca)
    ensures '\n' !in Cabecalho(comCustoPorPeca)
  {
    JoinHasSeparator(Colunas(comCustoPorPeca), ',');
    ColunasSem(comCustoPorPeca, '\n');
    JoinAvoids(Colunas(comCustoPorPeca), ',', '\n');
  }

  /** Every item row holds a comma. */
  lemma LinhasComVirgula(xs: seq<BudgetItem>, comCustoPorPeca: bool, num: real -> string, fixed2: real -> string)
    ensures forall i :: 0 <= i < |xs| ==> ',' in Linhas(xs, comCustoPorPeca, num, fixed2)[i]
  {
    forall i | 0 <= i < |xs| ensures ',' in Linhas(xs, comCustoPorPeca, num, fixed2)[i] {
      JoinHasSeparator(Campos(xs[i], comCustoPorPeca, num, fixed2), ',');
    }
  }

  /** Every summary line holds a comma. */
  lemma ResumoComVirgula(d: ExportData, fixed2: real -> string)
    ensures forall i :: 0 <= i < 9 ==> ',' in Resumo(d, fixed2)[i]
  {
    forall i | 0 <= i < 9 ensures ',' in Resumo(d, fixed2)[i] {
      assert Resumo(d, fixed2)[i][|Rotulos[i]|] == ',';
    }
  }

  /** No summary line holds a newline when the rendered amounts hold none. */
  lemma ResumoSemNewline(d: ExportData, fixed2: real -> string)
    requires RenderSem(fixed2, '\n')
    ensures forall i :: 0 <= i < 9 ==> '\n' !in Resumo(d, fixed2)[i]
  {
    RotulosSem('\n');
    forall i | 0 <= i < 9 ensures '\n' !in Resumo(d, fixed2)[i] {
      assert '\n' !in fixed2(Valores(d)[i]);
    }
  }

  lemma RotulosSem(c: char)
    requires c == ',' || c == '\n'
    ensures forall i :: 0 <= i < 9 ==> c !in Rotulos[i]
  {
  }

  /** Positions of the parts of a document made of four fixed blocks and
      four runs of lines. */
  lemma Blocks(p1: seq<string>, lm: seq<string>, p2: seq<string>, lq: seq<string>, p3: seq<string>, lp: seq<string>,
               p4: seq<string>, r: seq<string>)
    requires |p1| == 4 && |p2| == 3 && |p3| == 3 && |p4| == 2
    ensures var ls := p1 + lm + p2 + lq + p3 + lp + p4 + r;
      var nm, nq, np := |lm|, |lq|, |lp|;
      && |ls| == 12 + nm + nq + np + |r|
      && ls[..4] == p1
      && ls[4..4 + nm] == lm && ls[4 + nm..7 + nm] == p2
      && ls[7 + nm..7 + nm + nq] == lq && ls[7 + nm + nq..10 + nm + nq] == p3
      && ls[10 + nm + nq..10 + nm + nq + np] == lp && ls[10 + nm + nq + np..12 + nm + nq + np] == p4
      && ls[12 + nm + nq + np..] == r
  {
    var a := p1 + lm;
    var b := a + p2 + lq;
    var c := b + p3 + lp;
    assert (c + p4 + r)[..|c|] == c;
    assert c[..|b|] == b;
    assert b[..|a|] == a;
  }

  /** Where each part of the document sits: the title and an empty line;
      then, for each list, its section header, its one column-header row
      and one row per item in input order, and an empty line; then the
      summary header and the nine summary lines. */
  lemma DocumentLayout(d: ExportData, comCusto: string, semCusto: string, num: real -> string, fixed2: real -> string)
    ensures var ls := Documento(d, comCusto, semCusto, num, fixed2);
      var nm, nq, np := |d.materiais|, |d.maquinas|, |d.producao|;
      && |ls| == 21 + nm + nq + np
      && ls[..4] == [Titulo, "", SecaoMateriais, comCusto]
      && ls[4..4 + nm] == Linhas(d.materiais, true, num, fixed2)
      && ls[4 + nm..7 + nm] == ["", SecaoMaquinas, semCusto]
      && ls[7 + nm..7 + nm + nq] == Linhas(d.maquinas, false, num, fixed2)
      && ls[7 + nm + nq..10 + nm + nq] == ["", SecaoProducao, comCusto]
      && ls[10 + nm + nq..10 + nm + nq + np] == Linhas(d.producao, true, num, fixed2)
      && ls[10 + nm + nq + np..12 + nm + nq + np] == ["", SecaoGeral]
      && ls[12 + nm + nq + np..] == Resumo(d, fixed2)
  {
    Blocks([Titulo, "", SecaoMateriais, comCusto], Linhas(d.materiais, true, num, fixed2),
           ["", SecaoMaquinas, semCusto], Linhas(d.maquinas, false, num, fixed2),
           ["", SecaoProducao, comCusto], Linhas(d.producao, true, num, fixed2),
           ["", SecaoGeral], Resumo(d, fixed2));
  }

  /** A line that holds no comma is none of the lines that all hold one. */
  lemma NotAmongCommaLines(ls: seq<string>, h: string)
    requires forall i :: 0 <= i < |ls| ==> ',' in ls[i]
    requires ',' !in h
    ensures multiset(ls)[h] == 0
  {
    assert forall i :: 0 <= i < |ls| ==> ls[i] != h;
  }

  /** A comma-free line occurs in a document of fixed blocks and runs of
      comma-holding lines only where the fixed blocks have it. */
  lemma CountInBlocks(p1: seq<string>, lm: seq<string>, p2: seq<string>, lq: seq<string>, p3: seq<string>,
                      lp: seq<string>, p4: seq<string>, r: seq<string>, h: string)
    requires forall i :: 0 <= i < |lm| ==> ',' in lm[i]
    requires forall i :: 0 <= i < |lq| ==> ',' in lq[i]
    requires forall i :: 0 <= i < |lp| ==> ',' in lp[i]
    requires forall i :: 0 <= i < |r| ==> ',' in r[i]
    requires ',' !in h
    ensures multiset(p1 + lm + p2 + lq + p3 + lp + p4 + r)[h]
            == multiset(p1)[h] + multiset(p2)[h] + multiset(p3)[h] + multiset(p4)[h]
  {
    NotAmongCommaLines(lm, h);
    NotAmongCommaLines(lq, h);
    NotAmongCommaLines(lp, h);
    NotAmongCommaLines(r, h);
  }

  lemma SecoesSemVirgula()
    ensures ',' !in SecaoMateriais && ',' !in SecaoMaquinas && ',' !in SecaoProducao && ',' !in SecaoGeral
  {
  }

  lemma TituloSemNewline()
    ensures '\n' !in Titulo
  {
  }

  lemma SecoesSemNewline()
    ensures '\n' !in SecaoMateriais && '\n' !in SecaoMaquinas && '\n' !in SecaoProducao && '\n' !in SecaoGeral
  {
  }

  /** Among the fixed blocks of a document, each section header occurs
      once. */
  lemma SecoesNosBlocos(comCusto: string, semCusto: string)
    requires ',' in comCusto && ',' in semCusto
    ensures var p1, p2, p3, p4 := [Titulo, "", SecaoMateriais, comCusto], ["", SecaoMaquinas, semCusto],
                                  ["", SecaoProducao, comCusto], ["", SecaoGeral];
      && multiset(p1)[SecaoMateriais] + multiset(p2)[SecaoMateriais] + multiset(p3)[SecaoMateriais]
         + multiset(p4)[SecaoMateriais] == 1
      && multiset(p1)[SecaoMaquinas] + multiset(p2)[SecaoMaquinas] + multiset(p3)[SecaoMaquinas]
         + multiset(p4)[SecaoMaquinas] == 1
      && multiset(p1)[SecaoProducao] + multiset(p2)[SecaoProducao] + multiset(p3)[SecaoProducao]
         + multiset(p4)[SecaoProducao] == 1
      && multiset(p1)[SecaoGeral] + multiset(p2)[SecaoGeral] + multiset(p3)[SecaoGeral] + multiset(p4)[SecaoGeral] == 1
  {
    SecoesSemVirgula();
  }

  /** The four section headers of a document whose column-header rows hold
      a comma each appear exactly once. */
  lemma SectionHeadersOnceIn(d: ExportData, comCusto: string, semCusto: string, num: real -> string, fixed2: real -> string)
    requires ',' in comCusto && ',' in semCusto
    ensures var ls := Documento(d, comCusto, semCusto, num, fixed2);
      && multiset(ls)[SecaoMateriais] == 1 && multiset(ls)[SecaoMaquinas] == 1
      && multiset(ls)[SecaoProducao] == 1 && multiset(ls)[SecaoGeral] == 1
  {
    var lm, lq, lp, r := Linhas(d.materiais, true, num, fixed2), Linhas(d.maquinas, false, num, fixed2),
                         Linhas(d.producao, true, num, fixed2), Resumo(d, fixed2);
    var p1, p2, p3, p4 := [Titulo, "", SecaoMateriais, comCusto], ["", SecaoMaquinas, semCusto],
                          ["", SecaoProducao, comCusto], ["", SecaoGeral];
    assert Documento(d, comCusto, semCusto, num, fixed2) == p1 + lm + p2 + lq + p3 + lp + p4 + r;
    LinhasComVirgula(d.materiais, true, num, fixed2);
    LinhasComVirgula(d.maquinas, false, num, fixed2);
    LinhasComVirgula(d.producao, true, num, fixed2);
    ResumoComVirgula(d, fixed2);
    SecoesSemVirgula();
    SecoesNosBlocos(comCusto, semCusto);
    CountInBlocks(p1, lm, p2, lq, p3, lp, p4, r, SecaoMateriais);
    CountInBlocks(p1, lm, p2, lq, p3, lp, p4, r, SecaoMaquinas);
    CountInBlocks(p1, lm, p2, lq, p3, lp, p4, r, SecaoProducao);
    CountInBlocks(p1, lm, p2, lq, p3, lp, p4, r, SecaoGeral);
  }

  /** The section headers come in the order materials, machines,
      production, overall budget. */
  lemma SectionHeadersAt(d: ExportData, comCusto: string, semCusto: string, num: real -> string, fixed2: real -> string)
    ensures var ls := Documento(d, comCusto, semCusto, num, fixed2);
      var nm, nq, np := |d.materiais|, |d.maquinas|, |d.producao|;
      && |ls| == 21 + nm + nq + np
      && ls[2] == SecaoMateriais && ls[5 + nm] == SecaoMaquinas
      && ls[8 + nm + nq] == SecaoProducao && ls[11 + nm + nq + np] == SecaoGeral
  {
    var nm, nq, np := |d.materiais|, |d.maquinas|, |d.producao|;
    var ls := Documento(d, comCusto, semCusto, num, fixed2);
    DocumentLayout(d, comCusto, semCusto, num, fixed2);
    assert ls[2] == ls[..4][2];
    assert ls[5 + nm] == ls[4 + nm..7 + nm][1];
    assert ls[8 + nm + nq] == ls[7 + nm + nq..10 + nm + nq][1];
    assert ls[11 + nm + nq + np] == ls[10 + nm + nq + np..12 + nm + nq + np][1];
  }

  /** The section headers of the exported document appear once each, in
      order. */
  lemma SectionHeadersOnce(d: ExportData, num: real -> string, fixed2: real -> string)
    ensures var ls := DocumentLines(d, num, fixed2);
      var nm, nq, np := |d.materiais|, |d.maquinas|, |d.producao|;
      && ls[2] == SecaoMateriais && ls[5 + nm] == SecaoMaquinas
      && ls[8 + nm + nq] == SecaoProducao && ls[11 + nm + nq + np] == SecaoGeral
      && multiset(ls)[SecaoMateriais] == 1 && multiset(ls)[SecaoMaquinas] == 1
      && multiset(ls)[SecaoProducao] == 1 && multiset(ls)[SecaoGeral] == 1
  {
    CabecalhoShape(true);
    CabecalhoShape(false);
    SectionHeadersOnceIn(d, Cabecalho(true), Cabecalho(false), num, fixed2);
    SectionHeadersAt(d, Cabecalho(true), Cabecalho(false), num, fixed2);
  }

  /** No line of a document holds a newline when neither the column-header
      rows, the items' text nor the rendered numbers do. */
  lemma DocumentoSemNewline(d: ExportData, comCusto: string, semCusto: string, num: real -> string, fixed2: real -> string)
    requires '\n' !in comCusto && '\n' !in semCusto
    requires ItensSem(d.materiais, '\n') && ItensSem(d.maquinas, '\n') && ItensSem(d.producao, '\n')
    requires RenderSem(num, '\n') && RenderSem(fixed2, '\n')
    ensures var ls := Documento(d, comCusto, semCusto, num, fixed2);
      forall i :: 0 <= i < |ls| ==> '\n' !in ls[i]
  {
    var lm, lq, lp, r := Linhas(d.materiais, true, num, fixed2), Linhas(d.maquinas, false, num, fixed2),
                         Linhas(d.producao, true, num, fixed2), Resumo(d, fixed2);
    var p1, p2, p3, p4 := [Titulo, "", SecaoMateriais, comCusto], ["", SecaoMaquinas, semCusto],
                          ["", SecaoProducao, comCusto], ["", SecaoGeral];
    var ls := Documento(d, comCusto, semCusto, num, fixed2);
    assert ls == p1 + lm + p2 + lq + p3 + lp + p4 + r;
    LinhasSem(d.materiais, true, num, fixed2, '\n');
    LinhasSem(d.maquinas, false, num, fixed2, '\n');
    LinhasSem(d.producao, true, num, fixed2, '\n');
    ResumoSemNewline(d, fixed2);
    TituloSemNewline();
    SecoesSemNewline();
    BlocksAvoid(p1, lm, p2, lq, p3, lp, p4, r, '\n');
  }

  /** A character none of the parts' lines holds is in no line of the
      whole. */
  lemma BlocksAvoid(p1: seq<string>, lm: seq<string>, p2: seq<string>, lq: seq<string>, p3: seq<string>,
                    lp: seq<string>, p4: seq<string>, r: seq<string>, c: char)
    requires forall x :: x in p1 ==> c !in x
    requires forall i :: 0 <= i < |lm| ==> c !in lm[i]
    requires forall x :: x in p2 ==> c !in x
    requires forall i :: 0 <= i < |lq| ==> c !in lq[i]
    requires forall x :: x in p3 ==> c !in x
    requires forall i :: 0 <= i < |lp| ==> c !in lp[i]
    requires forall x :: x in p4 ==> c !in x
    requires forall i :: 0 <= i < |r| ==> c !in r[i]
    ensures forall x :: x in p1 + lm + p2 + lq + p3 + lp + p4 + r ==> c !in x
  {
    forall x | x in p1 + lm + p2 + lq + p3 + lp + p4 + r ensures c !in x {
      assert x in p1 || x in lm || x in p2 || x in lq || x in p3 || x in lp || x in p4 || x in r;
    }
  }

  /** Reading the text back: splitting it on newlines gives the document's
      lines and one empty piece after the final newline, so the text holds
      21 newlines plus one per item, when no item text and no rendered
      number holds a newline. */
  lemma ReadBack(d: ExportData, num: real -> string, fixed2: real -> string)
    requires ItensSem(d.materiais, '\n') && ItensSem(d.maquinas, '\n') && ItensSem(d.producao, '\n')
    requires RenderSem(num, '\n') && RenderSem(fixed2, '\n')
    ensures Split(JoinLines(DocumentLines(d, num, fixed2)), '\n') == DocumentLines(d, num, fixed2) + [""]
    ensures multiset(JoinLines(DocumentLines(d, num, fixed2)))['\n']
            == 21 + |d.materiais| + |d.maquinas| + |d.producao|
  {
    var ls := DocumentLines(d, num, fixed2);
    CabecalhoShape(true);
    CabecalhoShape(false);
    DocumentoSemNewline(d, Cabecalho(true), Cabecalho(false), num, fixed2);
    DocumentLayout(d, Cabecalho(true), Cabecalho(false), num, fixed2);
    JoinLinesIsJoin(ls);
    SplitJoin(ls + [""], '\n');
    SplitCount(JoinLines(ls), '\n');
  }
}
