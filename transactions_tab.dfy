/**
 * The Transactions tab (src/components/TransactionsTab.tsx): every category's
 * log, from income, expenses and each custom section, collected into one
 * list tagged with its category and source, sorted newest first, grouped by
 * day and totalled. `needsSetup` and the custom sections come from the month
 * store, which is not part of this model; they are inputs here.
 */
module TransactionsTab {
  import opened Wrappers
  import opened Text
  import opened Money
  import opened DateSort
  import opened Grouping
  import opened BudgetData

  /** Where a collected transaction came from. */
  datatype TxType = IncomeTx | ExpenseTx | CustomTx

  /** `TransactionWithCategory`: a transaction with its category's name and source. */
  datatype Tagged = Tagged(tx: Transaction, categoryName: string, kind: TxType)

  function TaggedDate(t: Tagged): string { t.tx.date }

  function TaggedAmount(t: Tagged): Money { t.tx.amount }

  /** `cat.transactions?`: a category without a log contributes nothing. */
  function Log(c: BudgetCategory): seq<Transaction> {
    if c.transactions.Some? then c.transactions.value else []
  }

  function LogLength(c: BudgetCategory): int { |Log(c)| }

  /** One category's transactions, in log order, each tagged. */
  function TagCategory(c: BudgetCategory, kind: TxType): (r: seq<Tagged>)
    ensures |r| == |Log(c)|
    ensures forall i :: 0 <= i < |r| ==> r[i] == Tagged(Log(c)[i], c.name, kind)
  {
    seq(|Log(c)|, i requires 0 <= i < |Log(c)| => Tagged(Log(c)[i], c.name, kind))
  }

  /** A list of categories' transactions, category by category. */
  function TagList(cs: seq<BudgetCategory>, kind: TxType): seq<Tagged>
    decreases |cs|
  {
    if cs == [] then [] else TagList(cs[..|cs| - 1], kind) + TagCategory(cs[|cs| - 1], kind)
  }

  /** Every custom section's transactions, section by section. */
  function TagSections(sections: seq<CustomSection>): seq<Tagged>
    decreases |sections|
  {
    if sections == [] then []
    else TagSections(sections[..|sections| - 1]) + TagList(sections[|sections| - 1].items, CustomTx)
  }

  /**
   * `allTransactions` before sorting: income, then expenses, then the custom
   * sections; one entry per logged transaction of any of them.
   */
  function Collected(income: seq<BudgetCategory>, expenses: seq<BudgetCategory>, sections: seq<CustomSection>)
    : (r: seq<Tagged>)
    ensures |r| == Sum(income, LogLength) + Sum(expenses, LogLength) + Sum(sections, SectionCount)
  {
    TagListCount(income, IncomeTx);
    TagListCount(expenses, ExpenseTx);
    TagSectionsCount(sections);
    TagList(income, IncomeTx) + TagList(expenses, ExpenseTx) + TagSections(sections)
  }

  /** The number of logged transactions in a custom section. */
  function SectionCount(s: CustomSection): int { Sum(s.items, LogLength) }

  lemma {:induction false} TagListCount(cs: seq<BudgetCategory>, kind: TxType)
    ensures |TagList(cs, kind)| == Sum(cs, LogLength)
    ensures forall i :: 0 <= i < |TagList(cs, kind)| ==> TagList(cs, kind)[i].kind == kind
    decreases |cs|
  {
    if cs != [] {
      var p, c := cs[..|cs| - 1], cs[|cs| - 1];
      TagListCount(p, kind);
      assert TagList(cs, kind) == TagList(p, kind) + TagCategory(c, kind);
      assert Sum(cs, LogLength) == Sum(p, LogLength) + LogLength(c);
    }
  }

  lemma {:induction false} TagSectionsCount(sections: seq<CustomSection>)
    ensures |TagSections(sections)| == Sum(sections, SectionCount)
    ensures forall i :: 0 <= i < |TagSections(sections)| ==> TagSections(sections)[i].kind == CustomTx
    decreases |sections|
  {
    if sections != [] {
      var p, c := sections[..|sections| - 1], sections[|sections| - 1];
      TagSectionsCount(p);
      TagListCount(c.items, CustomTx);
      assert TagSections(sections) == TagSections(p) + TagList(c.items, CustomTx);
      assert Sum(sections, SectionCount) == Sum(p, SectionCount) + SectionCount(c);
    }
  }

  /**
   * The collected count is the number of logged transactions over all three
   * sources, and the source tags follow the collection order: first the
   * income entries, then the expense entries, then the custom ones.
   */
  lemma CollectedShape(income: seq<BudgetCategory>, expenses: seq<BudgetCategory>, sections: seq<CustomSection>)
    ensures var all := Collected(income, expenses, sections);
      var ni, ne, nc := |TagList(income, IncomeTx)|, |TagList(expenses, ExpenseTx)|, |TagSections(sections)|;
      ni == Sum(income, LogLength) && ne == Sum(expenses, LogLength) && nc == Sum(sections, SectionCount)
      && |all| == ni + ne + nc
      && (forall i :: 0 <= i < ni ==> all[i].kind == IncomeTx)
      && (forall i :: ni <= i < ni + ne ==> all[i].kind == ExpenseTx)
      && (forall i :: ni + ne <= i < |all| ==> all[i].kind == CustomTx)
  {
    TagListCount(income, IncomeTx);
    TagListCount(expenses, ExpenseTx);
    TagSectionsCount(sections);
    var a, b, c := TagList(income, IncomeTx), TagList(expenses, ExpenseTx), TagSections(sections);
    Concat3Index(a, b, c);
  }

  /** Positions in a list made of three runs. */
  lemma Concat3Index<T>(a: seq<T>, b: seq<T>, c: seq<T>)
    ensures |a + b + c| == |a| + |b| + |c|
    ensures forall i :: 0 <= i < |a| ==> (a + b + c)[i] == a[i]
    ensures forall i :: |a| <= i < |a| + |b| ==> (a + b + c)[i] == b[i - |a|]
    ensures forall i :: |a| + |b| <= i < |a| + |b| + |c| ==> (a + b + c)[i] == c[i - |a| - |b|]
  {
  }

  /** `cat.transactions?.forEach(tx => allTransactions.push(...))`. */
  method PushCategory(acc: seq<Tagged>, c: BudgetCategory, kind: TxType) returns (r: seq<Tagged>)
    ensures r == acc + TagCategory(c, kind)
  {
    r := acc;
    if c.transactions.Some? {
      var txs := c.transactions.value;
      var j := 0;
      while j < |txs|
        invariant 0 <= j <= |txs|
        invariant r == acc + TagCategory(c, kind)[..j]
      {
        r := r + [Tagged(txs[j], c.name, kind)];
        assert TagCategory(c, kind)[..j + 1] == TagCategory(c, kind)[..j] + [Tagged(txs[j], c.name, kind)];
        j := j + 1;
      }
      assert TagCategory(c, kind)[..j] == TagCategory(c, kind);
    } else {
      assert TagCategory(c, kind) == [];
    }
  }

  /** `cats.forEach(cat => ...)`: every category of a list, in order. */
  method PushCategories(acc: seq<Tagged>, cs: seq<BudgetCategory>, kind: TxType) returns (r: seq<Tagged>)
    ensures r == acc + TagList(cs, kind)
  {
    r := acc;
    var i := 0;
    while i < |cs|
      invariant 0 <= i <= |cs|
      invariant r == acc + TagList(cs[..i], kind)
    {
      ghost var before := TagList(cs[..i], kind);
      TagListSnoc(cs, i, kind);
      r := PushCategory(r, cs[i], kind);
      Concat3(acc, before, TagCategory(cs[i], kind));
      i := i + 1;
    }
    assert cs[..i] == cs;
  }

  /** The three `forEach` passes that fill `allTransactions`. */
  method CollectTransactions(income: seq<BudgetCategory>, expenses: seq<BudgetCategory>, sections: seq<CustomSection>)
    returns (all: seq<Tagged>)
    ensures all == Collected(income, expenses, sections)
  {
    all := PushCategories([], income, IncomeTx);
    assert all == TagList(income, IncomeTx);
    all := PushCategories(all, expenses, ExpenseTx);
    all := PushSections(all, sections);
  }

  /** `customSections.forEach(section => section.items.forEach(...))`. */
  method PushSections(acc: seq<Tagged>, sections: seq<CustomSection>) returns (r: seq<Tagged>)
    ensures r == acc + TagSections(sections)
  {
    r := acc;
    var k := 0;
    while k < |sections|
      invariant 0 <= k <= |sections|
      invariant r == acc + TagSections(sections[..k])
    {
      ghost var before := TagSections(sections[..k]);
      ghost var added := TagList(sections[k].items, CustomTx);
      TagSectionsSnoc(sections, k);
      r := PushCategories(r, sections[k].items, CustomTx);
      Concat3(acc, before, added);
      k := k + 1;
    }
    assert sections[..k] == sections;
  }

  /** One more category adds its entries at the end. */
  lemma TagListSnoc(cs: seq<BudgetCategory>, i: nat, kind: TxType)
    requires i < |cs|
    ensures TagList(cs[..i + 1], kind) == TagList(cs[..i], kind) + TagCategory(cs[i], kind)
  {
    assert cs[..i + 1][..i] == cs[..i];
  }

  /** One more section adds its categories' entries at the end. */
  lemma TagSectionsSnoc(sections: seq<CustomSection>, k: nat)
    requires k < |sections|
    ensures TagSections(sections[..k + 1]) == TagSections(sections[..k]) + TagList(sections[k].items, CustomTx)
  {
    assert sections[..k + 1][..k] == sections[..k];
  }

  lemma Concat3<T>(a: seq<T>, b: seq<T>, c: seq<T>)
    ensures (a + b) + c == a + (b + c)
  {
  }

  /** `grouped` holds, for each key of `sorted` in order of first appearance, the entries with that date. */
  ghost predicate GroupedFrom(grouped: map<string, seq<Tagged>>, keys: seq<string>, sorted: seq<Tagged>) {
    keys == FirstKeys(sorted, TaggedDate)
    && (forall k :: k in grouped <==> k in keys)
    && (forall k :: k in grouped ==> grouped[k] == FilterKey(sorted, TaggedDate, k))
  }

  /** One pass of the grouping loop: create the day's list if needed, then push the entry. */
  lemma GroupStep(p: seq<Tagged>, t: Tagged, grouped: map<string, seq<Tagged>>, keys: seq<string>,
                  g1: map<string, seq<Tagged>>, k1: seq<string>, g2: map<string, seq<Tagged>>, q: seq<Tagged>)
    requires GroupedFrom(grouped, keys, p)
    requires g1 == if TaggedDate(t) in grouped then grouped else grouped[TaggedDate(t) := []]
    requires k1 == if TaggedDate(t) in grouped then keys else keys + [TaggedDate(t)]
    requires g2 == g1[TaggedDate(t) := g1[TaggedDate(t)] + [t]]
    requires q == p + [t]
    ensures GroupedFrom(g2, k1, q)
  {
    var key := TaggedDate(t);
    assert key in grouped <==> key in keys;
    FirstKeysSnoc(p, t);
    StepDomain(grouped, keys, key, t, g1, k1, g2);
    StepContents(p, t, grouped, g1, g2, q);
  }

  /** The loop's dictionary and key list keep the same keys. */
  lemma StepDomain(grouped: map<string, seq<Tagged>>, keys: seq<string>, key: string, x: Tagged,
                   g1: map<string, seq<Tagged>>, k1: seq<string>, g2: map<string, seq<Tagged>>)
    requires forall k :: k in grouped <==> k in keys
    requires g1 == if key in grouped then grouped else grouped[key := []]
    requires k1 == if key in grouped then keys else keys + [key]
    requires g2 == g1[key := g1[key] + [x]]
    ensures forall k :: k in g2 <==> k in k1
  {
  }

  /** Each day's list is the entries so far with that date. */
  lemma StepContents(p: seq<Tagged>, t: Tagged, grouped: map<string, seq<Tagged>>,
                     g1: map<string, seq<Tagged>>, g2: map<string, seq<Tagged>>, q: seq<Tagged>)
    requires forall k :: k in grouped ==> grouped[k] == FilterKey(p, TaggedDate, k)
    requires forall k :: k in grouped <==> k in FirstKeys(p, TaggedDate)
    requires g1 == if TaggedDate(t) in grouped then grouped else grouped[TaggedDate(t) := []]
    requires g2 == g1[TaggedDate(t) := g1[TaggedDate(t)] + [t]]
    requires q == p + [t]
    ensures forall k :: k in g2 ==> g2[k] == FilterKey(q, TaggedDate, k)
  {
    var key := TaggedDate(t);
    if key !in grouped && FilterKey(p, TaggedDate, key) != [] {
      FilterKeyMember(p, TaggedDate, key);
    }
    assert g1[key] == FilterKey(p, TaggedDate, key);
    forall k | k in g2 ensures g2[k] == FilterKey(q, TaggedDate, k) {
      FilterKeySnoc(p, t, k);
    }
  }

  /** A new entry's date is appended to the keys exactly when it is not among them yet. */
  lemma FirstKeysSnoc(p: seq<Tagged>, t: Tagged)
    ensures FirstKeys(p + [t], TaggedDate) ==
      if TaggedDate(t) in FirstKeys(p, TaggedDate) then FirstKeys(p, TaggedDate)
      else FirstKeys(p, TaggedDate) + [TaggedDate(t)]
  {
    assert (p + [t])[..|p|] == p;
  }

  /** Appending an entry extends the group of its own date only. */
  lemma FilterKeySnoc(p: seq<Tagged>, t: Tagged, k: string)
    ensures FilterKey(p + [t], TaggedDate, k) ==
      if TaggedDate(t) == k then FilterKey(p, TaggedDate, k) + [t] else FilterKey(p, TaggedDate, k)
  {
    FilterKeyAppend(p, [t], TaggedDate, k);
    assert [t][1..] == [];
  }

  /** The `grouped[key].push(tx)` loop over the sorted list, with the keys in insertion order. */
  method GroupByDate(sorted: seq<Tagged>) returns (grouped: map<string, seq<Tagged>>, keys: seq<string>)
    ensures GroupedFrom(grouped, keys, sorted)
  {
    grouped := map[];
    keys := [];
    var i := 0;
    while i < |sorted|
      invariant 0 <= i <= |sorted|
      invariant GroupedFrom(grouped, keys, sorted[..i])
    {
      assert sorted[..i + 1] == sorted[..i] + [sorted[i]];
      grouped, keys := AddToGroup(sorted[..i], sorted[..i + 1], grouped, keys, sorted[i]);
      i := i + 1;
    }
    assert sorted[..i] == sorted;
  }

  /** One entry of the loop: `if (!grouped[key]) grouped[key] = []; grouped[key].push(tx)`. */
  method AddToGroup(ghost p: seq<Tagged>, ghost q: seq<Tagged>, grouped: map<string, seq<Tagged>>,
                    keys: seq<string>, t: Tagged)
    returns (g: map<string, seq<Tagged>>, k: seq<string>)
    requires GroupedFrom(grouped, keys, p) && q == p + [t]
    ensures GroupedFrom(g, k, q)
  {
    var key := TaggedDate(t);
    g, k := grouped, keys;
    if key !in g {
      g := g[key := []];
      k := k + [key];
    }
    ghost var g1 := g;
    g := g[key := g[key] + [t]];
    GroupStep(p, t, grouped, keys, g1, k, g, q);
  }

  /** A non-empty group has an element of the list with that key. */
  lemma {:induction false} FilterKeyMember<T>(s: seq<T>, key: T -> string, k: string)
    requires FilterKey(s, key, k) != []
    ensures exists i :: 0 <= i < |s| && key(s[i]) == k
    decreases |s|
  {
    if key(s[0]) != k {
      FilterKeyMember(s[1..], key, k);
      var i :| 0 <= i < |s[1..]| && key(s[1..][i]) == k;
      assert s[i + 1] == s[1..][i];
    }
  }

  /** One day of the listing: its key, its total and its entries. */
  datatype DaySection = DaySection(date: string, dayTotal: Money, entries: seq<Tagged>)

  function DayTotal(d: DaySection): Money { d.dayTotal }

  function DayEntries(d: DaySection): seq<Tagged> { d.entries }

  /** The entries of the days, one day after the other. */
  function AllEntries(days: seq<DaySection>): seq<Tagged>
    decreases |days|
  {
    if days == [] then [] else days[0].entries + AllEntries(days[1..])
  }

  datatype TabView =
    | SetupPrompt
    | NoTransactions
    | Listing(count: nat, total: Money, days: seq<DaySection>)

  /** The day sections for `dateKeys`, each from its group. */
  function Days(dateKeys: seq<string>, grouped: map<string, seq<Tagged>>): (r: seq<DaySection>)
    requires forall k :: k in dateKeys ==> k in grouped
    ensures |r| == |dateKeys|
    ensures forall i :: 0 <= i < |r| ==>
      r[i] == DaySection(dateKeys[i], Sum(grouped[dateKeys[i]], TaggedAmount), grouped[dateKeys[i]])
    decreases |dateKeys|
  {
    if dateKeys == [] then []
    else
      var k := dateKeys[0];
      [DaySection(k, Sum(grouped[k], TaggedAmount), grouped[k])] + Days(dateKeys[1..], grouped)
  }

  /** Day totals add up to the total of the entries shown. */
  lemma {:induction false} DaysSums(dateKeys: seq<string>, grouped: map<string, seq<Tagged>>, s: seq<Tagged>)
    requires forall k :: k in dateKeys ==> k in grouped && grouped[k] == FilterKey(s, TaggedDate, k)
    ensures AllEntries(Days(dateKeys, grouped)) == GroupsOf(dateKeys, s, TaggedDate)
    ensures Sum(Days(dateKeys, grouped), DayTotal) == Sum(GroupsOf(dateKeys, s, TaggedDate), TaggedAmount)
    decreases |dateKeys|
  {
    if dateKeys != [] {
      var d := Days(dateKeys, grouped);
      assert d[1..] == Days(dateKeys[1..], grouped);
      DaysSums(dateKeys[1..], grouped, s);
      SumCons(d[0], d[1..], DayTotal);
      assert d == [d[0]] + d[1..];
      SumAppend(FilterKey(s, TaggedDate, dateKeys[0]), GroupsOf(dateKeys[1..], s, TaggedDate), TaggedAmount);
    }
  }

  function DayDates(days: seq<DaySection>): set<string> {
    set d | d in days :: d.date
  }

  function TxDates(all: seq<Tagged>): set<string> {
    set t | t in all :: t.tx.date
  }

  /**
   * What the listing shows for the collected list `all`: the count, the grand
   * total, days whose totals add up to it and whose entries are `all`
   * regrouped, one day per distinct date, newest day first, each day holding
   * that date's entries in collection order with their total.
   */
  predicate ListingOf(count: nat, total: Money, days: seq<DaySection>, all: seq<Tagged>) {
    count == |all|
    && total == Sum(all, TaggedAmount)
    && Sum(days, DayTotal) == total
    && multiset(AllEntries(days)) == multiset(all)
    && (forall i, j :: 0 <= i < j < |days| ==> Lt(days[j].date, days[i].date))
    && (forall i :: 0 <= i < |days| ==>
          days[i].entries == FilterKey(all, TaggedDate, days[i].date)
          && days[i].dayTotal == Sum(days[i].entries, TaggedAmount))
    && DayDates(days) == TxDates(all)
  }

  /**
   * The whole tab. With `needsSetup`, only the setup prompt. Otherwise the
   * collected transactions are sorted newest first (a stable sort), grouped
   * by date and, when there are any, listed day by day.
   */
  method Render(income: seq<BudgetCategory>, expenses: seq<BudgetCategory>, sections: seq<CustomSection>,
                needsSetup: bool) returns (v: TabView)
    ensures needsSetup ==> v == SetupPrompt
    ensures !needsSetup && |Collected(income, expenses, sections)| == 0 ==> v == NoTransactions
    ensures !needsSetup && |Collected(income, expenses, sections)| > 0 ==>
      v.Listing? && ListingOf(v.count, v.total, v.days, Collected(income, expenses, sections))
  {
    if needsSetup {
      return SetupPrompt;
    }
    var all := CollectTransactions(income, expenses, sections);
    var sorted := SortDesc(all, TaggedDate);
    var grouped, keys := GroupByDate(sorted);
    var dateKeys := SortDesc(keys, Same);
    if |sorted| == 0 {
      return NoTransactions;
    }
    KeysCovered(keys, dateKeys);
    var days := Days(dateKeys, grouped);
    ListingFacts(all, sorted, grouped, keys, dateKeys);
    v := Listing(|sorted|, Sum(sorted, TaggedAmount), days);
  }

  lemma KeysCovered(keys: seq<string>, dateKeys: seq<string>)
    requires dateKeys == SortDesc(keys, Same)
    ensures forall k :: k in dateKeys <==> k in keys
  {
    forall k ensures k in dateKeys <==> k in keys {
      assert k in dateKeys <==> k in multiset(dateKeys);
      assert k in keys <==> k in multiset(keys);
    }
  }

  /** The listing built from the sorted, grouped list is `ListingOf` the collected list. */
  lemma ListingFacts(all: seq<Tagged>, sorted: seq<Tagged>, grouped: map<string, seq<Tagged>>,
                     keys: seq<string>, dateKeys: seq<string>)
    requires sorted == SortDesc(all, TaggedDate)
    requires GroupedFrom(grouped, keys, sorted)
    requires dateKeys == SortDesc(keys, Same)
    requires forall k :: k in dateKeys ==> k in grouped
    ensures ListingOf(|sorted|, Sum(sorted, TaggedAmount), Days(dateKeys, grouped), all)
  {
    KeysCovered(keys, dateKeys);
    SumPermutation(sorted, all, TaggedAmount);
    DaysPartition(all, sorted, grouped, keys, dateKeys);
    DaysOrder(keys, dateKeys, grouped);
    DaysContents(all, sorted, grouped, dateKeys);
    DaysDates(all, sorted, grouped, keys, dateKeys);
  }

  /** The days come newest first, no date twice. */
  lemma DaysOrder(keys: seq<string>, dateKeys: seq<string>, grouped: map<string, seq<Tagged>>)
    requires Distinct(keys)
    requires dateKeys == SortDesc(keys, Same)
    requires forall k :: k in dateKeys ==> k in grouped
    ensures var days := Days(dateKeys, grouped);
      forall i, j :: 0 <= i < j < |days| ==> Lt(days[j].date, days[i].date)
  {
    SortDescSorted(keys, Same);
    StrictlyDescending(keys, dateKeys);
  }

  /** Each day holds its date's entries in collection order, and its total is theirs. */
  lemma DaysContents(all: seq<Tagged>, sorted: seq<Tagged>, grouped: map<string, seq<Tagged>>, dateKeys: seq<string>)
    requires sorted == SortDesc(all, TaggedDate)
    requires forall k :: k in grouped ==> grouped[k] == FilterKey(sorted, TaggedDate, k)
    requires forall k :: k in dateKeys ==> k in grouped
    ensures var days := Days(dateKeys, grouped);
      forall i :: 0 <= i < |days| ==>
        days[i].entries == FilterKey(all, TaggedDate, days[i].date)
        && days[i].dayTotal == Sum(days[i].entries, TaggedAmount)
  {
    var days := Days(dateKeys, grouped);
    forall i | 0 <= i < |days|
      ensures days[i].entries == FilterKey(all, TaggedDate, days[i].date)
    {
      SortDescStable(all, TaggedDate, days[i].date);
    }
  }

  /** The days' entries are the collected list regrouped, and their totals add up to its total. */
  lemma DaysPartition(all: seq<Tagged>, sorted: seq<Tagged>, grouped: map<string, seq<Tagged>>,
                      keys: seq<string>, dateKeys: seq<string>)
    requires sorted == SortDesc(all, TaggedDate)
    requires GroupedFrom(grouped, keys, sorted)
    requires dateKeys == SortDesc(keys, Same)
    requires forall k :: k in dateKeys <==> k in keys
    ensures Sum(Days(dateKeys, grouped), DayTotal) == Sum(all, TaggedAmount)
    ensures multiset(AllEntries(Days(dateKeys, grouped))) == multiset(all)
  {
    DistinctPermutation(keys, dateKeys);
    forall i | 0 <= i < |sorted| ensures TaggedDate(sorted[i]) in dateKeys {
      assert TaggedDate(sorted[i]) in keys;
    }
    GroupsPartition(dateKeys, sorted, TaggedDate);
    DaysSums(dateKeys, grouped, sorted);
    SumPermutation(GroupsOf(dateKeys, sorted, TaggedDate), sorted, TaggedAmount);
    SumPermutation(sorted, all, TaggedAmount);
  }

  /** One day per distinct date of the collected list. */
  lemma DaysDates(all: seq<Tagged>, sorted: seq<Tagged>, grouped: map<string, seq<Tagged>>,
                  keys: seq<string>, dateKeys: seq<string>)
    requires multiset(sorted) == multiset(all)
    requires keys == FirstKeys(sorted, TaggedDate)
    requires forall k :: k in dateKeys <==> k in keys
    requires forall k :: k in dateKeys ==> k in grouped
    ensures DayDates(Days(dateKeys, grouped)) == TxDates(all)
  {
    var days := Days(dateKeys, grouped);
    forall k | k in TxDates(all) ensures k in DayDates(days) {
      TxDateHasDay(all, sorted, keys, dateKeys, grouped, k);
    }
    forall k | k in DayDates(days) ensures k in TxDates(all) {
      DayHasTxDate(all, sorted, keys, dateKeys, grouped, k);
    }
  }

  lemma TxDateHasDay(all: seq<Tagged>, sorted: seq<Tagged>, keys: seq<string>, dateKeys: seq<string>,
                     grouped: map<string, seq<Tagged>>, k: string)
    requires multiset(sorted) == multiset(all)
    requires keys == FirstKeys(sorted, TaggedDate)
    requires forall k :: k in dateKeys <==> k in keys
    requires forall k :: k in dateKeys ==> k in grouped
    requires k in TxDates(all)
    ensures k in DayDates(Days(dateKeys, grouped))
  {
    var days := Days(dateKeys, grouped);
    var t :| t in all && t.tx.date == k;
    assert t in multiset(sorted);
    var j :| 0 <= j < |sorted| && sorted[j] == t;
    assert TaggedDate(sorted[j]) == k;
    assert k in keys;
    assert k in dateKeys;
    var m :| 0 <= m < |dateKeys| && dateKeys[m] == k;
    assert days[m] in days;
  }

  lemma DayHasTxDate(all: seq<Tagged>, sorted: seq<Tagged>, keys: seq<string>, dateKeys: seq<string>,
                     grouped: map<string, seq<Tagged>>, k: string)
    requires multiset(sorted) == multiset(all)
    requires keys == FirstKeys(sorted, TaggedDate)
    requires forall k :: k in dateKeys <==> k in keys
    requires forall k :: k in dateKeys ==> k in grouped
    requires k in DayDates(Days(dateKeys, grouped))
    ensures k in TxDates(all)
  {
    var days := Days(dateKeys, grouped);
    var d :| d in days && d.date == k;
    var i :| 0 <= i < |days| && days[i] == d;
    assert dateKeys[i] in keys;
    var j :| 0 <= j < |sorted| && TaggedDate(sorted[j]) == k;
    assert sorted[j] in multiset(all);
  }

  /** Income entries show a "+" and every other entry a "-". */
  function AmountSign(t: Tagged): (s: string)
    ensures s == "+" <==> t.kind == IncomeTx
    ensures s == "-" <==> t.kind != IncomeTx
  {
    if t.kind == IncomeTx then "+" else "-"
  }
}
