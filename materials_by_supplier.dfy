/** The materials-by-supplier view: materials are grouped under their
    trimmed supplier name (or under "Sem Fornecedor"), each group is sorted by
    unit price with ties in input order, the groups are ordered by a locale
    comparison with "Sem Fornecedor" forced last, and each group shows its
    total next to a grand total of all materials. */
module MaterialsBySupplier {
  import opened Common
  import opened UseBudgetDatabase
  import Overview = BudgetOverviewDb

  const SemFornecedor: string := "Sem Fornecedor"

  // ---------------------------------------------------------------------
  // `String.prototype.trim`

  /** The characters `trim` removes: ECMAScript's WhiteSpace and
      LineTerminator code points. */
  predicate IsJsWhitespace(c: char)
  {
    || c == '\t' || c == '\n' || c == '\U{000B}' || c == '\U{000C}' || c == '\r'
    || c == ' ' || c == '\U{00A0}' || c == '\U{1680}'
    || ('\U{2000}' <= c <= '\U{200A}')
    || c == '\U{2028}' || c == '\U{2029}' || c == '\U{202F}' || c == '\U{205F}'
    || c == '\U{3000}' || c == '\U{FEFF}'
  }

  /** The length of the whitespace run at the start. */
  function LeadingWhitespace(s: string): (n: nat)
    ensures n <= |s|
    ensures forall i :: 0 <= i < n ==> IsJsWhitespace(s[i])
    ensures n < |s| ==> !IsJsWhitespace(s[n])
  {
    if s == [] || !IsJsWhitespace(s[0]) then 0 else 1 + LeadingWhitespace(s[1..])
  }

  /** The length of the whitespace run at the end. */
  function TrailingWhitespace(s: string): (n: nat)
    ensures n <= |s|
    ensures forall i :: |s| - n <= i < |s| ==> IsJsWhitespace(s[i])
    ensures n < |s| ==> !IsJsWhitespace(s[|s| - 1 - n])
  {
    if s == [] || !IsJsWhitespace(s[|s| - 1]) then 0 else 1 + TrailingWhitespace(s[..|s| - 1])
  }

  /** `s.trim()`: the contiguous middle of `s` with whitespace at neither
      end; empty exactly when `s` is all whitespace. */
  function Trim(s: string): (r: string)
    ensures LeadingWhitespace(s) + |r| <= |s| && r == s[LeadingWhitespace(s)..LeadingWhitespace(s) + |r|]
    ensures r == [] <==> forall i :: 0 <= i < |s| ==> IsJsWhitespace(s[i])
    ensures r != [] ==> !IsJsWhitespace(r[0]) && !IsJsWhitespace(r[|r| - 1])
    ensures forall i :: LeadingWhitespace(s) + |r| <= i < |s| ==> IsJsWhitespace(s[i])
  {
    var lead := LeadingWhitespace(s);
    var t := s[lead..];
    var r := t[..|t| - TrailingWhitespace(t)];
    assert forall i :: lead + |r| <= i < |s| ==> IsJsWhitespace(s[i]) by {
      forall i | lead + |r| <= i < |s| ensures IsJsWhitespace(s[i]) {
        assert s[i] == t[i - lead];
      }
    }
    assert r == [] ==> LeadingWhitespace(s) == |s| by {
      if LeadingWhitespace(s) < |s| {
        assert t[0] == s[LeadingWhitespace(s)];
      }
    }
    r
  }

  /** Trimming twice is trimming once. */
  lemma TrimIdempotent(s: string)
    ensures Trim(Trim(s)) == Trim(s)
  {
    var r := Trim(s);
    if r != [] {
      assert LeadingWhitespace(r) == 0;
      assert TrailingWhitespace(r) == 0;
    }
  }

  // ---------------------------------------------------------------------
  // Group keys

  /** `fornecedor?.trim() || 'Sem Fornecedor'`. The key is never empty and
      never begins or ends with whitespace; it is the sentinel exactly when
      the supplier is null, blank, or literally named "Sem Fornecedor". */
  function SupplierKey(fornecedor: Option<string>): (k: string)
    ensures k != [] && !IsJsWhitespace(k[0]) && !IsJsWhitespace(k[|k| - 1])
    ensures k == SemFornecedor <==>
      fornecedor.None? || Trim(fornecedor.value) == [] || Trim(fornecedor.value) == SemFornecedor
    ensures k != SemFornecedor ==> fornecedor.Some? && k == Trim(fornecedor.value)
  {
    match fornecedor
    case None => SemFornecedor
    case Some(f) => if Trim(f) == [] then SemFornecedor else Trim(f)
  }


  function KeyOf(m: DbBudgetItem): string { SupplierKey(m.fornecedor) }

  function PrecoDe(m: DbBudgetItem): real { m.preco_unit }

  // ---------------------------------------------------------------------
  // Grouping by a key

  /** The elements filed under key `k`, in input order. */
  function GroupOf<T, K(==)>(xs: seq<T>, key: T -> K, k: K): seq<T>
  {
    if xs == [] then []
    else GroupOf(xs[..|xs| - 1], key, k) + (if key(xs[|xs| - 1]) == k then [xs[|xs| - 1]] else [])
  }

  /** A group holds exactly the elements that have its key. */
  lemma {:induction false} GroupOfMembers<T, K>(xs: seq<T>, key: T -> K, k: K)
    ensures forall x :: x in GroupOf(xs, key, k) <==> x in xs && key(x) == k
  {
    if xs != [] {
      GroupOfMembers(xs[..|xs| - 1], key, k);
      assert xs == xs[..|xs| - 1] + [xs[|xs| - 1]];
    }
  }

  /** The distinct keys in order of first appearance, which is the order in
      which the grouping creates them. */
  function KeysInOrder<T, K(==)>(xs: seq<T>, key: T -> K): seq<K>
  {
    if xs == [] then []
    else
      var ks := KeysInOrder(xs[..|xs| - 1], key);
      if key(xs[|xs| - 1]) in ks then ks else ks + [key(xs[|xs| - 1])]
  }

  /** No key is listed twice, and a key is listed exactly when some element
      has it. */
  lemma {:induction false} KeysInOrderSpec<T, K>(xs: seq<T>, key: T -> K)
    ensures var ks := KeysInOrder(xs, key);
      && (forall i, j :: 0 <= i < j < |ks| ==> ks[i] != ks[j])
      && (forall i :: 0 <= i < |xs| ==> key(xs[i]) in ks)
      && (forall k :: k in ks ==> exists i :: 0 <= i < |xs| && key(xs[i]) == k)
  {
    if xs != [] {
      var front, x := xs[..|xs| - 1], xs[|xs| - 1];
      KeysInOrderSpec(front, key);
      assert xs == front + [x];
      assert forall i :: 0 <= i < |front| ==> xs[i] == front[i];
      var ks := KeysInOrder(xs, key);
      assert ks == if key(x) in KeysInOrder(front, key) then KeysInOrder(front, key)
                   else KeysInOrder(front, key) + [key(x)];
      assert key(xs[|xs| - 1]) in ks;
    }
  }

  /** Each element is filed under exactly one key, its own, and that key is
      one of the groups. */
  lemma EveryMaterialInExactlyOneGroup(ms: seq<DbBudgetItem>, m: DbBudgetItem, k: string)
    requires m in ms
    ensures KeyOf(m) in KeysInOrder(ms, KeyOf)
    ensures m in GroupOf(ms, KeyOf, k) <==> k == KeyOf(m)
  {
    var i :| 0 <= i < |ms| && ms[i] == m;
    KeysInOrderSpec(ms, KeyOf);
    assert KeyOf(ms[i]) in KeysInOrder(ms, KeyOf);
    GroupOfMembers(ms, KeyOf, k);
  }

  // ---------------------------------------------------------------------
  // Sorting a group by unit price (a stable sort)

  ghost predicate SortedBy<T>(s: seq<T>, price: T -> real)
  {
    forall i, j :: 0 <= i < j < |s| ==> price(s[i]) <= price(s[j])
  }

  /** Puts `x` after every element whose price is not above its own. */
  function InsertBy<T(!new)>(sorted: seq<T>, x: T, price: T -> real): (r: seq<T>)
    ensures multiset(r) == multiset(sorted) + multiset{x}
  {
    if sorted == [] then [x]
    else
      var last := sorted[|sorted| - 1];
      var prefix := sorted[..|sorted| - 1];
      assert sorted == prefix + [last];
      if price(last) <= price(x) then sorted + [x]
      else InsertBy(prefix, x, price) + [last]
  }

  /** Inserting into a sorted list keeps it sorted. */
  lemma {:induction false} InsertBySorted<T(!new)>(sorted: seq<T>, x: T, price: T -> real)
    requires SortedBy(sorted, price)
    ensures SortedBy(InsertBy(sorted, x, price), price)
  {
    if sorted != [] {
      var last := sorted[|sorted| - 1];
      var prefix := sorted[..|sorted| - 1];
      assert sorted == prefix + [last];
      if price(last) > price(x) {
        var front := InsertBy(prefix, x, price);
        assert forall i :: 0 <= i < |prefix| ==> prefix[i] == sorted[i];
        InsertBySorted(prefix, x, price);
        PriceBound(front, prefix, x, price, price(last));
        SortedSnoc(front, last, price);
      }
    }
  }

  /** A rearrangement of `prefix` and `x` stays under a bound both respect. */
  lemma PriceBound<T>(front: seq<T>, prefix: seq<T>, x: T, price: T -> real, bound: real)
    requires multiset(front) == multiset(prefix) + multiset{x}
    requires forall i :: 0 <= i < |prefix| ==> price(prefix[i]) <= bound
    requires price(x) <= bound
    ensures forall i :: 0 <= i < |front| ==> price(front[i]) <= bound
  {
    forall i | 0 <= i < |front| ensures price(front[i]) <= bound {
      assert front[i] in multiset(front);
      assert front[i] == x || front[i] in multiset(prefix);
    }
  }

  lemma SortedSnoc<T>(s: seq<T>, last: T, price: T -> real)
    requires SortedBy(s, price)
    requires forall i :: 0 <= i < |s| ==> price(s[i]) <= price(last)
    ensures SortedBy(s + [last], price)
  {
  }

  /** `group.sort((a, b) => a.preco_unit - b.preco_unit)`: a permutation of
      the group, cheapest first. */
  function SortBy<T(!new)>(s: seq<T>, price: T -> real): (r: seq<T>)
    ensures multiset(r) == multiset(s)
    ensures SortedBy(r, price)
  {
    if s == [] then []
    else
      assert s == s[..|s| - 1] + [s[|s| - 1]];
      InsertBySorted(SortBy(s[..|s| - 1], price), s[|s| - 1], price);
      InsertBy(SortBy(s[..|s| - 1], price), s[|s| - 1], price)
  }

  /** The elements whose price is `p`, in order. */
  function WithPrice<T>(s: seq<T>, price: T -> real, p: real): seq<T>
  {
    if s == [] then []
    else WithPrice(s[..|s| - 1], price, p) + (if price(s[|s| - 1]) == p then [s[|s| - 1]] else [])
  }

  lemma {:induction false} WithPriceAppend<T>(a: seq<T>, b: seq<T>, price: T -> real, p: real)
    ensures WithPrice(a + b, price, p) == WithPrice(a, price, p) + WithPrice(b, price, p)
  {
    if b == [] {
      assert a + b == a;
    } else {
      WithPriceAppend(a, b[..|b| - 1], price, p);
      assert (a + b)[..|a + b| - 1] == a + b[..|b| - 1];
    }
  }

  lemma {:induction false} InsertByStable<T(!new)>(sorted: seq<T>, x: T, price: T -> real, p: real)
    ensures WithPrice(InsertBy(sorted, x, price), price, p)
            == WithPrice(sorted, price, p) + (if price(x) == p then [x] else [])
  {
    if sorted == [] {
      assert [x][..0] == [];
    } else {
      var last := sorted[|sorted| - 1];
      var prefix := sorted[..|sorted| - 1];
      assert sorted == prefix + [last];
      assert [last][..0] == [] && [x][..0] == [];
      if price(last) <= price(x) {
        WithPriceAppend(sorted, [x], price, p);
      } else {
        InsertByStable(prefix, x, price, p);
        var front := InsertBy(prefix, x, price);
        WithPriceAppend(front, [last], price, p);
        WithPriceAppend(prefix, [last], price, p);
      }
    }
  }

  /** Ties keep their input order: for each price, the elements with that
      price appear in the sorted group in the same order as before. */
  lemma {:induction false} SortByStable<T(!new)>(s: seq<T>, price: T -> real, p: real)
    ensures WithPrice(SortBy(s, price), price, p) == WithPrice(s, price, p)
  {
    if s != [] {
      SortByStable(s[..|s| - 1], price, p);
      InsertByStable(SortBy(s[..|s| - 1], price), s[|s| - 1], price, p);
    }
  }

  // ---------------------------------------------------------------------
  // Ordering the suppliers

  /** The locale comparison `a.localeCompare(b, 'pt-BR') < 0`, taken as a
      strict total order on distinct names. */
  ghost predicate StrictTotalOrder(less: (string, string) -> bool)
  {
    && (forall a :: !less(a, a))
    && (forall a, b :: a != b ==> (less(a, b) <==> !less(b, a)))
    && (forall a, b, c :: less(a, b) && less(b, c) ==> less(a, c))
  }

  /** The comparator returns a negative number: the sentinel is never first,
      anything else precedes the sentinel, and other names compare by locale. */
  predicate Before(a: string, b: string, less: (string, string) -> bool)
  {
    a != SemFornecedor && (b == SemFornecedor || less(a, b))
  }

  ghost predicate OrderedKeys(ks: seq<string>, less: (string, string) -> bool)
  {
    forall i, j :: 0 <= i < j < |ks| ==> Before(ks[i], ks[j], less)
  }

  /** The comparator is itself a strict order: never both ways, and
      transitive. */
  lemma BeforeIsStrictOrder(a: string, b: string, c: string, less: (string, string) -> bool)
    requires StrictTotalOrder(less)
    ensures !Before(a, a, less)
    ensures Before(a, b, less) ==> !Before(b, a, less)
    ensures Before(a, b, less) && Before(b, c, less) ==> Before(a, c, less)
    ensures a != b ==> Before(a, b, less) || Before(b, a, less)
  {
  }

  /** Puts `k` after every name the comparator places before it. */
  function InsertKey(sorted: seq<string>, k: string, less: (string, string) -> bool): (r: seq<string>)
    ensures multiset(r) == multiset(sorted) + multiset{k}
  {
    if sorted == [] then [k]
    else
      var last := sorted[|sorted| - 1];
      var prefix := sorted[..|sorted| - 1];
      assert sorted == prefix + [last];
      if Before(last, k, less) then sorted + [k]
      else InsertKey(prefix, k, less) + [last]
  }

  /** Inserting a new name into an ordered list keeps it ordered. */
  lemma {:induction false} InsertKeyOrdered(sorted: seq<string>, k: string, less: (string, string) -> bool)
    requires StrictTotalOrder(less)
    requires k !in sorted
    requires OrderedKeys(sorted, less)
    ensures OrderedKeys(InsertKey(sorted, k, less), less)
  {
    if sorted != [] {
      var last := sorted[|sorted| - 1];
      var prefix := sorted[..|sorted| - 1];
      assert sorted == prefix + [last];
      if Before(last, k, less) {
        forall i | 0 <= i < |prefix| ensures Before(sorted[i], k, less) {
          BeforeIsStrictOrder(sorted[i], last, k, less);
        }
        OrderedSnoc(sorted, k, less);
      } else {
        BeforeIsStrictOrder(k, last, k, less);
        assert forall i :: 0 <= i < |prefix| ==> prefix[i] == sorted[i];
        InsertKeyOrdered(prefix, k, less);
        var front := InsertKey(prefix, k, less);
        forall i | 0 <= i < |front| ensures Before(front[i], last, less) {
          assert front[i] in multiset(front);
          assert front[i] == k || front[i] in multiset(prefix);
        }
        OrderedSnoc(front, last, less);
      }
    }
  }

  lemma OrderedSnoc(ks: seq<string>, k: string, less: (string, string) -> bool)
    requires OrderedKeys(ks, less)
    requires forall i :: 0 <= i < |ks| ==> Before(ks[i], k, less)
    ensures OrderedKeys(ks + [k], less)
  {
  }

  /** `Object.keys(groups).sort(comparator)`: the names strictly ordered by
      the comparator, with the sentinel, when present, last. */
  function SortSuppliers(keys: seq<string>, less: (string, string) -> bool): (r: seq<string>)
    requires StrictTotalOrder(less)
    requires forall i, j :: 0 <= i < j < |keys| ==> keys[i] != keys[j]
    ensures multiset(r) == multiset(keys)
    ensures OrderedKeys(r, less)
    ensures SemFornecedor in r ==> r[|r| - 1] == SemFornecedor
  {
    if keys == [] then []
    else
      var front := keys[..|keys| - 1];
      var k := keys[|keys| - 1];
      assert keys == front + [k];
      forall i | 0 <= i < |front| ensures front[i] != k {
        assert keys[i] != keys[|keys| - 1];
      }
      var sortedFront := SortSuppliers(front, less);
      assert k !in multiset(sortedFront);
      var r := InsertKey(sortedFront, k, less);
      InsertKeyOrdered(sortedFront, k, less);
      SentinelLast(r, less);
      r
  }

  lemma SentinelLast(r: seq<string>, less: (string, string) -> bool)
    requires OrderedKeys(r, less)
    ensures SemFornecedor in r ==> r[|r| - 1] == SemFornecedor
  {
    forall i | 0 <= i < |r| - 1 ensures r[i] != SemFornecedor {
      assert Before(r[i], r[|r| - 1], less);
    }
  }

  lemma FirstIsLeast(ks: seq<string>, x: string, less: (string, string) -> bool)
    requires OrderedKeys(ks, less)
    requires x in ks
    ensures x == ks[0] || Before(ks[0], x, less)
  {
    var i :| 0 <= i < |ks| && ks[i] == x;
    if i > 0 {
      assert Before(ks[0], ks[i], less);
    }
  }

  /** Two supplier lists ordered by the comparator and holding the same
      names are the same list: the display order does not depend on the
      order in which the names were collected. */
  lemma {:induction false} SupplierOrderIsUnique(a: seq<string>, b: seq<string>, less: (string, string) -> bool)
    requires StrictTotalOrder(less)
    requires OrderedKeys(a, less) && OrderedKeys(b, less)
    requires multiset(a) == multiset(b)
    ensures a == b
  {
    if a != [] {
      assert |b| == |a| by {
        assert |multiset(a)| == |a| && |multiset(b)| == |b|;
      }
      assert a[0] == b[0] by {
        assert a[0] in multiset(b);
        assert b[0] in multiset(a);
        FirstIsLeast(b, a[0], less);
        FirstIsLeast(a, b[0], less);
        BeforeIsStrictOrder(a[0], b[0], b[0], less);
      }
      assert a == [a[0]] + a[1..];
      assert b == [b[0]] + b[1..];
      assert multiset(a[1..]) == multiset(a) - multiset{a[0]};
      assert multiset(b[1..]) == multiset(b) - multiset{b[0]};
      OrderedTail(a, less);
      OrderedTail(b, less);
      SupplierOrderIsUnique(a[1..], b[1..], less);
    }
  }

  lemma OrderedTail(ks: seq<string>, less: (string, string) -> bool)
    requires ks != [] && OrderedKeys(ks, less)
    ensures OrderedKeys(ks[1..], less)
  {
    forall i, j | 0 <= i < j < |ks| - 1 ensures Before(ks[1..][i], ks[1..][j], less) {
      assert ks[1..][i] == ks[i + 1] && ks[1..][j] == ks[j + 1];
    }
  }

  // ---------------------------------------------------------------------
  // The grouping, as the component builds it

  lemma GroupOfSnoc<T(!new), K>(xs: seq<T>, x: T, key: T -> K, k: K)
    ensures GroupOf(xs + [x], key, k) == GroupOf(xs, key, k) + (if key(x) == k then [x] else [])
  {
    assert (xs + [x])[..|xs|] == xs;
  }

  lemma KeysInOrderSnoc<T(!new), K>(xs: seq<T>, x: T, key: T -> K)
    ensures KeysInOrder(xs + [x], key)
            == if key(x) in KeysInOrder(xs, key) then KeysInOrder(xs, key) else KeysInOrder(xs, key) + [key(x)]
  {
    assert (xs + [x])[..|xs|] == xs;
  }

  /** A key no element has has an empty group. */
  lemma {:induction false} UnlistedKeyHasNoGroup<T(!new), K>(xs: seq<T>, key: T -> K, k: K)
    requires k !in KeysInOrder(xs, key)
    ensures GroupOf(xs, key, k) == []
  {
    if xs != [] {
      var front := xs[..|xs| - 1];
      assert k !in KeysInOrder(front, key);
      UnlistedKeyHasNoGroup(front, key, k);
    }
  }

  /** `groups` maps each key of `seen`, listed in `keys` in creation order,
      to that key's elements in input order. */
  ghost predicate Grouped<T(!new)>(seen: seq<T>, key: T -> string, keys: seq<string>, groups: map<string, seq<T>>)
  {
    && keys == KeysInOrder(seen, key)
    && (forall k :: k in groups <==> k in keys)
    && (forall k :: k in groups ==> groups[k] == GroupOf(seen, key, k))
  }

  /** One step of the `reduce`: create the list of `x`'s key if it is new,
      then push `x` onto it. */
  lemma PushKeepsGrouped<T(!new)>(seen: seq<T>, x: T, key: T -> string, keys: seq<string>, groups: map<string, seq<T>>,
                                  keys': seq<string>, groups': map<string, seq<T>>)
    requires Grouped(seen, key, keys, groups)
    requires keys' == if key(x) in groups then keys else keys + [key(x)]
    requires var created := if key(x) in groups then groups else groups[key(x) := []];
             groups' == created[key(x) := created[key(x)] + [x]]
    ensures Grouped(seen + [x], key, keys', groups')
  {
    KeysInOrderSnoc(seen, x, key);
    forall k ensures GroupOf(seen + [x], key, k) == GroupOf(seen, key, k) + (if key(x) == k then [x] else []) {
      GroupOfSnoc(seen, x, key, k);
    }
    if key(x) !in groups {
      UnlistedKeyHasNoGroup(seen, key, key(x));
    }
  }

  /** The names an empty object literal already answers through
      `Object.prototype`. For such a name `acc[supplier]` is an inherited,
      truthy value that has no `push`, so the `reduce` throws a TypeError. */
  const InheritedNames: set<string> := {
    "constructor", "hasOwnProperty", "isPrototypeOf", "propertyIsEnumerable",
    "toLocaleString", "toString", "valueOf", "__proto__",
    "__defineGetter__", "__defineSetter__", "__lookupGetter__", "__lookupSetter__"
  }

  predicate Inherited(k: string)
  {
    k in InheritedNames
  }

  /** Some material is filed under an inherited name, so grouping throws. */
  predicate GroupingThrows(materials: seq<DbBudgetItem>)
  {
    exists i :: 0 <= i < |materials| && Inherited(KeyOf(materials[i]))
  }

  lemma ThrowsAt(materials: seq<DbBudgetItem>, i: nat)
    requires i < |materials| && Inherited(KeyOf(materials[i]))
    ensures GroupingThrows(materials)
  {
  }

  /** One more material whose name is not inherited does not make the
      grouping throw. */
  lemma GroupingThrowsSnoc(materials: seq<DbBudgetItem>, i: nat)
    requires i < |materials|
    requires !GroupingThrows(materials[..i]) && !Inherited(KeyOf(materials[i]))
    ensures !GroupingThrows(materials[..i + 1])
  {
    var front := materials[..i + 1];
    forall j | 0 <= j < |front| ensures !Inherited(KeyOf(front[j])) {
      if j < i {
        assert front[j] == materials[..i][j];
      }
    }
  }

  /** The `reduce` callback for a name that is not inherited: create the
      name's list on first sight, then push the material onto it. */
  method Push(ghost seen: seq<DbBudgetItem>, material: DbBudgetItem, keys: seq<string>, groups: map<string, seq<DbBudgetItem>>)
    returns (keys': seq<string>, groups': map<string, seq<DbBudgetItem>>)
    requires Grouped(seen, KeyOf, keys, groups)
    ensures Grouped(seen + [material], KeyOf, keys', groups')
  {
    var supplier := KeyOf(material);
    keys', groups' := keys, groups;
    if supplier !in groups' {
      groups' := groups'[supplier := []];
      keys' := keys' + [supplier];
    }
    groups' := groups'[supplier := groups'[supplier] + [material]];
    PushKeepsGrouped(seen, material, KeyOf, keys, groups, keys', groups');
  }

  /** Builds `groupedBySupplier` with the `reduce`: each name's list is
      created on first sight and every material is pushed onto its name's
      list, so each list is that name's materials in input order. `keys` is
      the order in which the names were created. The first material filed
      under an inherited name makes the `reduce` throw (`thrown`). */
  method GroupBySupplier(materials: seq<DbBudgetItem>)
    returns (thrown: bool, keys: seq<string>, groups: map<string, seq<DbBudgetItem>>)
    ensures thrown <==> GroupingThrows(materials)
    ensures !thrown ==> keys == KeysInOrder(materials, KeyOf)
    ensures !thrown ==> forall k :: k in groups <==> k in keys
    ensures !thrown ==> forall k :: k in groups ==> groups[k] == GroupOf(materials, KeyOf, k)
  {
    thrown, keys, groups := false, [], map[];
    var i := 0;
    while i < |materials|
      invariant 0 <= i <= |materials|
      invariant Grouped(materials[..i], KeyOf, keys, groups)
      invariant !GroupingThrows(materials[..i])
    {
      var material := materials[i];
      var supplier := KeyOf(material);
      if Inherited(supplier) {
        ThrowsAt(materials, i);
        thrown := true;
        return;
      }
      GroupingThrowsSnoc(materials, i);
      keys, groups := Push(materials[..i], material, keys, groups);
      assert materials[..i + 1] == materials[..i] + [material];
      i := i + 1;
    }
    assert materials[..i] == materials;
  }

  /** The `forEach` that sorts every list in place by unit price. */
  method SortGroups(keys: seq<string>, groups: map<string, seq<DbBudgetItem>>) returns (sorted: map<string, seq<DbBudgetItem>>)
    requires forall i, j :: 0 <= i < j < |keys| ==> keys[i] != keys[j]
    requires forall k :: k in groups <==> k in keys
    ensures forall k :: k in sorted <==> k in groups
    ensures forall k :: k in sorted ==> sorted[k] == SortBy(groups[k], PrecoDe)
  {
    sorted := groups;
    var j := 0;
    while j < |keys|
      invariant 0 <= j <= |keys|
      invariant forall k :: k in sorted <==> k in groups
      invariant forall k :: k in sorted ==> sorted[k] == if k in keys[..j] then SortBy(groups[k], PrecoDe) else groups[k]
    {
      var supplier := keys[j];
      forall n | 0 <= n < j ensures keys[n] != supplier {
        assert keys[n] != keys[j];
      }
      assert keys[..j + 1] == keys[..j] + [supplier];
      sorted := sorted[supplier := SortBy(sorted[supplier], PrecoDe)];
      j := j + 1;
    }
    assert keys[..j] == keys;
  }

  // ---------------------------------------------------------------------
  // The view

  /** One rendered supplier card: name, materials in display order, total. */
  datatype SupplierGroup = SupplierGroup(supplier: string, materials: seq<DbBudgetItem>, total: real)

  function Flatten(gs: seq<SupplierGroup>): seq<DbBudgetItem>
  {
    if gs == [] then [] else Flatten(gs[..|gs| - 1]) + gs[|gs| - 1].materials
  }

  function SumSizes(gs: seq<SupplierGroup>): nat
  {
    if gs == [] then 0 else SumSizes(gs[..|gs| - 1]) + |gs[|gs| - 1].materials|
  }

  function SumTotals(gs: seq<SupplierGroup>): real
  {
    if gs == [] then 0.0 else SumTotals(gs[..|gs| - 1]) + gs[|gs| - 1].total
  }

  /** The supplier names of the cards, in display order. */
  function Suppliers(cards: seq<SupplierGroup>): (r: seq<string>)
    ensures |r| == |cards| && forall i :: 0 <= i < |cards| ==> r[i] == cards[i].supplier
  {
    seq(|cards|, i requires 0 <= i < |cards| => cards[i].supplier)
  }

  /** The elements whose key is one of `keys`, in input order. */
  function WithKeyIn<T, K(==)>(xs: seq<T>, key: T -> K, keys: seq<K>): seq<T>
  {
    if xs == [] then []
    else WithKeyIn(xs[..|xs| - 1], key, keys) + (if key(xs[|xs| - 1]) in keys then [xs[|xs| - 1]] else [])
  }

  lemma {:induction false} WithKeyInEmpty<T, K>(xs: seq<T>, key: T -> K)
    ensures WithKeyIn(xs, key, []) == []
  {
    if xs != [] {
      WithKeyInEmpty(xs[..|xs| - 1], key);
    }
  }

  lemma {:induction false} WithKeyInAddKey<T(!new), K>(xs: seq<T>, key: T -> K, keys: seq<K>, k: K)
    requires k !in keys
    ensures multiset(WithKeyIn(xs, key, keys + [k])) == multiset(WithKeyIn(xs, key, keys)) + multiset(GroupOf(xs, key, k))
  {
    if xs != [] {
      WithKeyInAddKey(xs[..|xs| - 1], key, keys, k);
    }
  }

  lemma {:induction false} WithKeyInAll<T, K>(xs: seq<T>, key: T -> K, keys: seq<K>)
    requires forall i :: 0 <= i < |xs| ==> key(xs[i]) in keys
    ensures WithKeyIn(xs, key, keys) == xs
  {
    if xs != [] {
      WithKeyInAll(xs[..|xs| - 1], key, keys);
      assert xs == xs[..|xs| - 1] + [xs[|xs| - 1]];
    }
  }

  /** Cards for distinct names, each holding its name's group in some order,
      hold together exactly the materials whose name is one of those. */
  lemma {:induction false} CardsCollectTheirKeys(ms: seq<DbBudgetItem>, key: DbBudgetItem -> string, gs: seq<SupplierGroup>)
    requires forall i, j :: 0 <= i < j < |gs| ==> gs[i].supplier != gs[j].supplier
    requires forall i :: 0 <= i < |gs| ==> multiset(gs[i].materials) == multiset(GroupOf(ms, key, gs[i].supplier))
    ensures multiset(Flatten(gs)) == multiset(WithKeyIn(ms, key, Suppliers(gs)))
  {
    if gs == [] {
      WithKeyInEmpty(ms, key);
    } else {
      var front := gs[..|gs| - 1];
      assert forall i :: 0 <= i < |front| ==> front[i] == gs[i];
      CardsCollectTheirKeys(ms, key, front);
      LastSupplierIsNew(gs);
      CollectOneMore(ms, key, gs);
    }
  }

  /** The step of the induction: one more card, for a name not seen yet. */
  lemma CollectOneMore(ms: seq<DbBudgetItem>, key: DbBudgetItem -> string, gs: seq<SupplierGroup>)
    requires gs != []
    requires var front := gs[..|gs| - 1];
      multiset(Flatten(front)) == multiset(WithKeyIn(ms, key, Suppliers(front)))
    requires multiset(gs[|gs| - 1].materials) == multiset(GroupOf(ms, key, gs[|gs| - 1].supplier))
    requires gs[|gs| - 1].supplier !in Suppliers(gs[..|gs| - 1])
    ensures multiset(Flatten(gs)) == multiset(WithKeyIn(ms, key, Suppliers(gs)))
  {
    var front, last := gs[..|gs| - 1], gs[|gs| - 1];
    assert gs == front + [last];
    SuppliersSnoc(front, last);
    WithKeyInAddKey(ms, key, Suppliers(front), last.supplier);
  }

  lemma SuppliersSnoc(front: seq<SupplierGroup>, last: SupplierGroup)
    ensures Suppliers(front + [last]) == Suppliers(front) + [last.supplier]
  {
  }

  lemma LastSupplierIsNew(gs: seq<SupplierGroup>)
    requires gs != []
    requires forall i, j :: 0 <= i < j < |gs| ==> gs[i].supplier != gs[j].supplier
    ensures Suppliers(gs) == Suppliers(gs[..|gs| - 1]) + [gs[|gs| - 1].supplier]
    ensures gs[|gs| - 1].supplier !in Suppliers(gs[..|gs| - 1])
  {
    var n := |gs| - 1;
    assert Suppliers(gs) == Suppliers(gs[..n]) + [gs[n].supplier];
    forall i | 0 <= i < n ensures Suppliers(gs[..n])[i] != gs[n].supplier {
      assert gs[i].supplier != gs[n].supplier;
    }
  }

  lemma {:induction false} FlattenSizes(gs: seq<SupplierGroup>)
    ensures |Flatten(gs)| == SumSizes(gs)
  {
    if gs != [] {
      FlattenSizes(gs[..|gs| - 1]);
    }
  }

  lemma {:induction false} FlattenTotals(gs: seq<SupplierGroup>)
    requires forall i :: 0 <= i < |gs| ==> gs[i].total == Overview.CalcularTotais(gs[i].materials)
    ensures Overview.CalcularTotais(Flatten(gs)) == SumTotals(gs)
  {
    if gs != [] {
      FlattenTotals(gs[..|gs| - 1]);
      SumOfAppend(Flatten(gs[..|gs| - 1]), gs[|gs| - 1].materials, Overview.CustoDaLinha);
    }
  }

  /** `sortedSuppliers.map(...)`: one card per name, in the given order, with
      that name's list and the list's total. */
  method BuildCards(sorted: seq<string>, groups: map<string, seq<DbBudgetItem>>) returns (cards: seq<SupplierGroup>)
    requires forall j :: 0 <= j < |sorted| ==> sorted[j] in groups
    ensures Suppliers(cards) == sorted
    ensures forall j :: 0 <= j < |sorted| ==>
      cards[j] == SupplierGroup(sorted[j], groups[sorted[j]], Overview.CalcularTotais(groups[sorted[j]]))
  {
    cards := [];
    var i := 0;
    while i < |sorted|
      invariant 0 <= i <= |sorted|
      invariant Suppliers(cards) == sorted[..i]
      invariant forall j :: 0 <= j < i ==>
        cards[j] == SupplierGroup(sorted[j], groups[sorted[j]], Overview.CalcularTotais(groups[sorted[j]]))
    {
      var supplier := sorted[i];
      var supplierMaterials := groups[supplier];
      var totalSupplier := Overview.CalcularTotais(supplierMaterials);
      cards := cards + [SupplierGroup(supplier, supplierMaterials, totalSupplier)];
      i := i + 1;
      assert Suppliers(cards) == sorted[..i];
    }
    assert sorted[..i] == sorted;
  }

  /** What the component renders: one card per supplier in comparator order,
      with "Sem Fornecedor" last, each holding its supplier's materials
      cheapest first and their total, and the grand total of all materials.
      No card is empty and no material is lost or repeated: the cards hold a
      permutation of the input, their sizes add up to its length and their
      totals add up to the grand total. An empty input shows no cards. When
      grouping throws, the component renders nothing (`thrown`). */
  method MaterialsBySupplierView(materials: seq<DbBudgetItem>, less: (string, string) -> bool)
    returns (thrown: bool, cards: seq<SupplierGroup>, grandTotal: real)
    requires StrictTotalOrder(less)
    ensures thrown <==> GroupingThrows(materials)
    ensures thrown ==> cards == []
    ensures !thrown ==> (materials == [] <==> cards == [])
    ensures !thrown ==> OrderedKeys(Suppliers(cards), less)
    ensures !thrown ==> multiset(Suppliers(cards)) == multiset(KeysInOrder(materials, KeyOf))
    ensures !thrown && SemFornecedor in Suppliers(cards) ==> cards[|cards| - 1].supplier == SemFornecedor
    ensures !thrown ==> forall i :: 0 <= i < |cards| ==>
      && cards[i].materials == SortBy(GroupOf(materials, KeyOf, cards[i].supplier), PrecoDe)
      && cards[i].materials != []
      && cards[i].total == Overview.CalcularTotais(cards[i].materials)
    ensures !thrown ==> multiset(Flatten(cards)) == multiset(materials)
    ensures !thrown ==> SumSizes(cards) == |materials|
    ensures !thrown ==> grandTotal == Overview.CalcularTotais(materials)
    ensures !thrown ==> SumTotals(cards) == grandTotal
  {
    var keys, unsorted;
    thrown, keys, unsorted := GroupBySupplier(materials);
    if thrown {
      cards, grandTotal := [], 0.0;
      return;
    }
    KeysInOrderSpec(materials, KeyOf);
    var groups := SortGroups(keys, unsorted);
    var sorted := SortSuppliers(keys, less);
    forall j | 0 <= j < |sorted| ensures sorted[j] in groups {
      assert sorted[j] in multiset(keys);
    }
    cards := BuildCards(sorted, groups);
    grandTotal := Overview.CalcularTotais(materials);
    CardsAreTheSortedGroups(materials, unsorted, groups, sorted, cards);
    ViewIsComplete(materials, less, sorted, cards);
  }

  /** The cards' coverage, sizes and totals, from the shape of each card. */
  lemma ViewIsComplete(materials: seq<DbBudgetItem>, less: (string, string) -> bool, sorted: seq<string>, cards: seq<SupplierGroup>)
    requires StrictTotalOrder(less)
    requires multiset(sorted) == multiset(KeysInOrder(materials, KeyOf)) && OrderedKeys(sorted, less)
    requires Suppliers(cards) == sorted
    requires forall j :: 0 <= j < |cards| ==>
      && multiset(cards[j].materials) == multiset(GroupOf(materials, KeyOf, cards[j].supplier))
      && cards[j].total == Overview.CalcularTotais(cards[j].materials)
    ensures materials == [] <==> cards == []
    ensures forall j :: 0 <= j < |cards| ==> cards[j].materials != []
    ensures multiset(Flatten(cards)) == multiset(materials)
    ensures SumSizes(cards) == |materials|
    ensures SumTotals(cards) == Overview.CalcularTotais(materials)
  {
    OrderedKeysDistinct(sorted, less);
    CardsHoldAllMaterials(materials, KeyOf, cards);
    FlattenSizes(cards);
    FlattenTotals(cards);
    SumOfPermutation(Flatten(cards), materials, Overview.CustoDaLinha);
  }

  lemma CardsAreTheSortedGroups(materials: seq<DbBudgetItem>, unsorted: map<string, seq<DbBudgetItem>>,
                                groups: map<string, seq<DbBudgetItem>>, sorted: seq<string>, cards: seq<SupplierGroup>)
    requires forall k :: k in unsorted ==> unsorted[k] == GroupOf(materials, KeyOf, k)
    requires forall k :: k in groups <==> k in unsorted
    requires forall k :: k in groups ==> groups[k] == SortBy(unsorted[k], PrecoDe)
    requires forall j :: 0 <= j < |sorted| ==> sorted[j] in groups
    requires Suppliers(cards) == sorted
    requires forall j :: 0 <= j < |sorted| ==>
        cards[j] == SupplierGroup(sorted[j], groups[sorted[j]], Overview.CalcularTotais(groups[sorted[j]]))
    ensures forall j :: 0 <= j < |cards| ==>
      && cards[j].materials == SortBy(GroupOf(materials, KeyOf, cards[j].supplier), PrecoDe)
      && multiset(cards[j].materials) == multiset(GroupOf(materials, KeyOf, cards[j].supplier))
      && cards[j].total == Overview.CalcularTotais(cards[j].materials)
  {
  }

  /** Names in comparator order are distinct. */
  lemma OrderedKeysDistinct(ks: seq<string>, less: (string, string) -> bool)
    requires StrictTotalOrder(less)
    requires OrderedKeys(ks, less)
    ensures forall i, j :: 0 <= i < j < |ks| ==> ks[i] != ks[j]
  {
    forall i, j | 0 <= i < j < |ks| ensures ks[i] != ks[j] {
      assert Before(ks[i], ks[j], less);
      BeforeIsStrictOrder(ks[i], ks[j], ks[j], less);
    }
  }

  /** The group of a listed key is not empty. */
  lemma ListedKeyHasGroup<T, K>(xs: seq<T>, key: T -> K, k: K)
    requires k in KeysInOrder(xs, key)
    ensures GroupOf(xs, key, k) != []
  {
    KeysInOrderSpec(xs, key);
    var n :| 0 <= n < |xs| && key(xs[n]) == k;
    GroupOfMembers(xs, key, k);
    assert xs[n] in GroupOf(xs, key, k);
  }

  /** Cards made, one per listed key, from the keys' groups (in any order)
      are never empty and together hold every element exactly once. */
  lemma CardsHoldAllMaterials(materials: seq<DbBudgetItem>, key: DbBudgetItem -> string, cards: seq<SupplierGroup>)
    requires forall i, j :: 0 <= i < j < |cards| ==> cards[i].supplier != cards[j].supplier
    requires multiset(Suppliers(cards)) == multiset(KeysInOrder(materials, key))
    requires forall j :: 0 <= j < |cards| ==>
        multiset(cards[j].materials) == multiset(GroupOf(materials, key, cards[j].supplier))
    ensures materials == [] <==> cards == []
    ensures forall j :: 0 <= j < |cards| ==> cards[j].materials != []
    ensures multiset(Flatten(cards)) == multiset(materials)
    ensures |Flatten(cards)| == |materials|
  {
    var names := Suppliers(cards);
    forall j | 0 <= j < |cards| ensures cards[j].materials != [] {
      assert names[j] in multiset(names);
      ListedKeyHasGroup(materials, key, cards[j].supplier);
      assert multiset(cards[j].materials) != multiset{};
    }
    KeysInOrderSpec(materials, key);
    forall i | 0 <= i < |materials| ensures key(materials[i]) in names {
      assert key(materials[i]) in multiset(names);
    }
    CardsCollectTheirKeys(materials, key, cards);
    WithKeyInAll(materials, key, names);
    assert |multiset(Flatten(cards))| == |multiset(materials)|;
    if materials != [] {
      assert key(materials[0]) in names;
    }
  }
}
