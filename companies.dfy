/** The company directory pages: the card page grouped by sector, the data
    table with an industry selector, and the searchable table. The company
    list itself is an input: a sequence of name and industry records. */
module Companies {
  import opened Text
  import opened Grouping
  import opened Render

  datatype Company = Company(name: string, industry: string)

  function IndustryOf(c: Company): string { c.industry }

  /** `haystack.toLowerCase().includes(needle.toLowerCase())` */
  predicate Mentions(haystack: string, needle: string) {
    Contains(Lower(haystack), Lower(needle))
  }

  /** Every string includes the empty string. */
  lemma MentionsEmpty(haystack: string)
    ensures Mentions(haystack, "")
  {
    ContainsAt(Lower(haystack), "", 0);
  }

  // ----------------------------------------------------- card page (sectors)

  /** The options of the industry selector: "All", then the industries in
      order of first appearance, each once. */
  function IndustryOptions(data: seq<Company>): seq<string> {
    ["All"] + FirstKeys(data, IndustryOf)
  }

  /** The selector offers "All" and exactly the industries of the data, no
      industry twice; the "Industries" figure is the number of distinct
      industries. */
  lemma IndustryOptionsSpec(data: seq<Company>)
    ensures IndustryOptions(data)[0] == "All"
    ensures forall k :: k in IndustryOptions(data)[1..] <==> exists c :: c in data && c.industry == k
    ensures forall i, j :: 1 <= i < j < |IndustryOptions(data)| ==> IndustryOptions(data)[i] != IndustryOptions(data)[j]
    ensures |IndustryOptions(data)| - 1 == |FirstKeys(data, IndustryOf)|
  {
    var ks := FirstKeys(data, IndustryOf);
    assert IndustryOptions(data)[1..] == ks;
    FirstKeysSpec(data, IndustryOf);
    FirstKeysDistinct(data, IndustryOf);
  }

  /** The name matches the search, and the industry the selection. The
      industry is not searched. */
  predicate MatchesCard(c: Company, search: string, selected: string) {
    Mentions(c.name, search) && (selected == "All" || c.industry == selected)
  }

  /** `filteredCompanies` */
  function FilterCards(data: seq<Company>, search: string, selected: string): seq<Company> {
    Filter(data, c => MatchesCard(c, search, selected))
  }

  /** A company is shown exactly when it matches; the shown ones keep their
      order; an empty search with "All" shows every company. */
  lemma FilterCardsSpec(data: seq<Company>, search: string, selected: string)
    ensures forall c :: c in FilterCards(data, search, selected) <==> c in data && MatchesCard(c, search, selected)
    ensures IsSubsequence(FilterCards(data, search, selected), data)
    ensures search == "" && selected == "All" ==> FilterCards(data, search, selected) == data
  {
    FilterSpec(data, c => MatchesCard(c, search, selected));
    FilterSubsequence(data, c => MatchesCard(c, search, selected));
    if search == "" && selected == "All" {
      forall c | c in data
        ensures MatchesCard(c, search, selected)
      {
        MentionsEmpty(c.name);
      }
      FilterAll(data, c => MatchesCard(c, search, selected));
    }
  }

  /** `groupedCompanies`: the shown companies by industry, industries in
      order of first appearance. */
  method GroupBySector(filtered: seq<Company>) returns (groups: seq<Group<string, Company>>)
    ensures |groups| == |FirstKeys(filtered, IndustryOf)|
    ensures forall i :: 0 <= i < |groups| ==>
      groups[i].key == FirstKeys(filtered, IndustryOf)[i] && groups[i].items == Members(filtered, IndustryOf, groups[i].key)
  {
    groups := GroupBy(filtered, IndustryOf);
  }

  /** Every group holds, in order, exactly the shown companies of its
      industry and is not empty; no industry has two groups; the group sizes
      add up to the number of companies shown. */
  lemma SectorsPartition(filtered: seq<Company>)
    ensures forall k :: k in FirstKeys(filtered, IndustryOf) ==>
      Members(filtered, IndustryOf, k) != [] && IsSubsequence(Members(filtered, IndustryOf, k), filtered)
      && forall c :: c in Members(filtered, IndustryOf, k) <==> c in filtered && c.industry == k
    ensures forall i, j :: 0 <= i < j < |FirstKeys(filtered, IndustryOf)| ==>
      FirstKeys(filtered, IndustryOf)[i] != FirstKeys(filtered, IndustryOf)[j]
    ensures SizeSum(filtered, IndustryOf, FirstKeys(filtered, IndustryOf)) == |filtered|
  {
    forall k | k in FirstKeys(filtered, IndustryOf)
      ensures Members(filtered, IndustryOf, k) != [] && IsSubsequence(Members(filtered, IndustryOf, k), filtered)
        && forall c :: c in Members(filtered, IndustryOf, k) <==> c in filtered && c.industry == k
    {
      MembersSpec(filtered, IndustryOf, k);
    }
    FirstKeysDistinct(filtered, IndustryOf);
    GroupSizesSum(filtered, IndustryOf);
  }

  /** The "Largest Sector" figure: `reduce((max, cs) => Math.max(max,
      cs.length), 0)` over the groups. */
  function LargestSector(groups: seq<Group<string, Company>>): nat {
    if groups == [] then 0
    else
      var m := LargestSector(DropLast(groups));
      if m >= |Last(groups).items| then m else |Last(groups).items|
  }

  /** The figure is the size of the largest group, and 0 when there is no
      group. */
  lemma {:induction false} LargestSectorSpec(groups: seq<Group<string, Company>>)
    ensures forall i :: 0 <= i < |groups| ==> |groups[i].items| <= LargestSector(groups)
    ensures groups == [] ==> LargestSector(groups) == 0
    ensures groups != [] ==> exists i :: 0 <= i < |groups| && |groups[i].items| == LargestSector(groups)
  {
    if groups != [] {
      var init := DropLast(groups);
      LargestSectorSpec(init);
      assert forall i :: 0 <= i < |init| ==> groups[i] == init[i];
      if init != [] && LargestSector(init) >= |Last(groups).items| {
        var i :| 0 <= i < |init| && |init[i].items| == LargestSector(init);
        assert |groups[i].items| == LargestSector(groups);
      } else {
        assert |groups[|groups| - 1].items| == LargestSector(groups);
      }
    }
  }

  /** Nothing shown, largest sector 0; otherwise at least 1 and at most the
      number shown. */
  lemma LargestSectorBounds(filtered: seq<Company>, groups: seq<Group<string, Company>>)
    requires |groups| == |FirstKeys(filtered, IndustryOf)|
    requires forall i :: 0 <= i < |groups| ==> groups[i].items == Members(filtered, IndustryOf, FirstKeys(filtered, IndustryOf)[i])
    ensures filtered == [] <==> LargestSector(groups) == 0
    ensures LargestSector(groups) <= |filtered|
  {
    LargestSectorSpec(groups);
    var ks := FirstKeys(filtered, IndustryOf);
    if groups != [] {
      var i :| 0 <= i < |groups| && |groups[i].items| == LargestSector(groups);
      MembersSpec(filtered, IndustryOf, ks[i]);
      SubsequenceLength(groups[i].items, filtered);
    }
    if filtered != [] {
      assert ks != [] by {
        FirstKeysSpec(filtered, IndustryOf);
        assert filtered[0] in filtered;
        assert IndustryOf(filtered[0]) in ks;
      }
      MembersSpec(filtered, IndustryOf, ks[0]);
      assert |groups[0].items| > 0;
    }
  }

  lemma {:induction false} SubsequenceLength<T>(r: seq<T>, s: seq<T>)
    requires IsSubsequence(r, s)
    ensures |r| <= |s|
    decreases |s|
  {
    if r != [] {
      if r[0] == s[0] {
        SubsequenceLength(r[1..], s[1..]);
      } else {
        SubsequenceLength(r, s[1..]);
      }
    }
  }

  /** The badge colour classes of `getIndustryColor`, with its `default`
      entry. */
  const IndustryColors: map<string, string> := map[
    "IT" := "bg-blue-500", "Fin-Tech" := "bg-green-500", "E-Commerce" := "bg-purple-500",
    "Ed-Tech" := "bg-yellow-500", "Health-Tech" := "bg-red-500", "Engineering" := "bg-gray-500",
    "default" := "bg-[#FF6542]"]

  const DefaultColor := "bg-[#FF6542]"

  /** `colors[industry] || colors.default` */
  function IndustryColor(industry: string): string {
    if industry in IndustryColors then IndustryColors[industry] else IndustryColors["default"]
  }

  /** The six listed industries get six different colours, none of them the
      default; every other industry gets the default. */
  lemma IndustryColorSpec(industry: string)
    ensures industry == "IT" ==> IndustryColor(industry) == "bg-blue-500"
    ensures industry == "Fin-Tech" ==> IndustryColor(industry) == "bg-green-500"
    ensures industry == "Health-Tech" ==> IndustryColor(industry) == "bg-red-500"
    ensures IndustryColor(industry) == DefaultColor <==>
      industry !in {"IT", "Fin-Tech", "E-Commerce", "Ed-Tech", "Health-Tech", "Engineering"}
  {
  }

  // ------------------------------------------ data table with industry select

  /** `a < b` on strings: the default order of `Array.prototype.sort`. */
  predicate StrLess(a: string, b: string)
    decreases |a|
  {
    if a == [] then b != []
    else if b == [] then false
    else if a[0] != b[0] then a[0] < b[0]
    else StrLess(a[1..], b[1..])
  }

  lemma {:induction false} StrLessIrreflexive(a: string)
    ensures !StrLess(a, a)
    decreases |a|
  {
    if a != [] {
      StrLessIrreflexive(a[1..]);
    }
  }

  lemma {:induction false} StrLessTransitive(a: string, b: string, c: string)
    requires StrLess(a, b) && StrLess(b, c)
    ensures StrLess(a, c)
    decreases |a|
  {
    if a != [] && a[0] == b[0] && b[0] == c[0] {
      StrLessTransitive(a[1..], b[1..], c[1..]);
    }
  }

  lemma {:induction false} StrLessTotal(a: string, b: string)
    requires a != b
    ensures StrLess(a, b) || StrLess(b, a)
    decreases |a|
  {
    if a != [] && b != [] && a[0] == b[0] {
      assert a[1..] != b[1..] by {
        assert a == [a[0]] + a[1..] && b == [b[0]] + b[1..];
      }
      StrLessTotal(a[1..], b[1..]);
    }
  }

  predicate StrictlySorted(s: seq<string>) {
    forall i, j :: 0 <= i < j < |s| ==> StrLess(s[i], s[j])
  }

  function Insert(x: string, s: seq<string>): (r: seq<string>)
    ensures forall y :: y in r <==> y == x || y in s
  {
    if s == [] then [x]
    else if StrLess(x, s[0]) then [x] + s
    else [s[0]] + Insert(x, s[1..])
  }

  /** `.sort()` */
  function Sort(xs: seq<string>): (r: seq<string>)
    ensures forall y :: y in r <==> y in xs
  {
    if xs == [] then [] else Insert(xs[0], Sort(xs[1..]))
  }

  lemma {:induction false} InsertSorted(x: string, s: seq<string>)
    requires StrictlySorted(s) && x !in s
    ensures StrictlySorted(Insert(x, s))
    decreases |s|
  {
    if s != [] {
      var r := Insert(x, s);
      if StrLess(x, s[0]) {
        forall i, j | 0 <= i < j < |r|
          ensures StrLess(r[i], r[j])
        {
          if i == 0 && j > 1 {
            StrLessTransitive(x, s[0], s[j - 1]);
          }
        }
      } else {
        StrLessTotal(x, s[0]);
        InsertSorted(x, s[1..]);
        var rest := Insert(x, s[1..]);
        forall i, j | 0 <= i < j < |r|
          ensures StrLess(r[i], r[j])
        {
          if i == 0 {
            assert r[j] == rest[j - 1] && rest[j - 1] in rest;
            if r[j] != x {
              var k :| 0 <= k < |s[1..]| && s[1..][k] == r[j];
              assert s[k + 1] == r[j];
            }
          } else {
            assert r[i] == rest[i - 1] && r[j] == rest[j - 1];
          }
        }
      }
    }
  }

  predicate Distinct(xs: seq<string>) {
    forall i, j :: 0 <= i < j < |xs| ==> xs[i] != xs[j]
  }

  lemma {:induction false} SortSorted(xs: seq<string>)
    requires Distinct(xs)
    ensures StrictlySorted(Sort(xs))
  {
    if xs != [] {
      assert Distinct(xs[1..]) by {
        forall i, j | 0 <= i < j < |xs[1..]|
          ensures xs[1..][i] != xs[1..][j]
        {
          assert xs[1..][i] == xs[i + 1] && xs[1..][j] == xs[j + 1];
        }
      }
      SortSorted(xs[1..]);
      assert xs[0] !in xs[1..] by {
        forall k | 0 <= k < |xs[1..]|
          ensures xs[1..][k] != xs[0]
        {
          assert xs[1..][k] == xs[k + 1];
        }
      }
      InsertSorted(xs[0], Sort(xs[1..]));
    }
  }

  /** The industry selector's options. */
  function SortedIndustries(data: seq<Company>): seq<string> {
    Sort(FirstKeys(data, IndustryOf))
  }

  /** Exactly the industries of the data, in strictly increasing order (so
      each once). */
  lemma SortedIndustriesSpec(data: seq<Company>)
    ensures forall k :: k in SortedIndustries(data) <==> exists c :: c in data && c.industry == k
    ensures StrictlySorted(SortedIndustries(data))
    ensures Distinct(SortedIndustries(data))
  {
    FirstKeysSpec(data, IndustryOf);
    FirstKeysDistinct(data, IndustryOf);
    SortSorted(FirstKeys(data, IndustryOf));
    var r := SortedIndustries(data);
    forall i, j | 0 <= i < j < |r|
      ensures r[i] != r[j]
    {
      StrLessIrreflexive(r[i]);
    }
  }

  /** The name or the industry matches the search, and the industry the
      selection ("" for any). */
  predicate MatchesRow(c: Company, search: string, selected: string) {
    (Mentions(c.name, search) || Mentions(c.industry, search)) && (selected == "" || c.industry == selected)
  }

  /** `filteredData` */
  function FilterRows(data: seq<Company>, search: string, selected: string): seq<Company> {
    Filter(data, c => MatchesRow(c, search, selected))
  }

  lemma FilterRowsSpec(data: seq<Company>, search: string, selected: string)
    ensures forall c :: c in FilterRows(data, search, selected) <==> c in data && MatchesRow(c, search, selected)
    ensures IsSubsequence(FilterRows(data, search, selected), data)
    ensures search == "" && selected == "" ==> FilterRows(data, search, selected) == data
  {
    FilterSpec(data, c => MatchesRow(c, search, selected));
    FilterSubsequence(data, c => MatchesRow(c, search, selected));
    if search == "" && selected == "" {
      forall c | c in data
        ensures MatchesRow(c, search, selected)
      {
        MentionsEmpty(c.name);
      }
      FilterAll(data, c => MatchesRow(c, search, selected));
    }
  }

  /** The number of companies of industry `k`. */
  function CountOf(xs: seq<Company>, k: string): nat {
    |Members(xs, IndustryOf, k)|
  }

  /** `stats`: the number shown and, per industry, how many are shown, built
      by incrementing `industryCount[industry]` for each company. */
  method IndustryStats(filteredData: seq<Company>) returns (total: nat, industryCount: map<string, nat>)
    ensures total == |filteredData|
    ensures forall k :: k in industryCount <==> k in FirstKeys(filteredData, IndustryOf)
    ensures forall k :: k in industryCount ==> industryCount[k] == CountOf(filteredData, k)
  {
    total := |filteredData|;
    industryCount := map[];
    for i := 0 to |filteredData|
      invariant forall k :: k in industryCount <==> k in FirstKeys(filteredData[..i], IndustryOf)
      invariant forall k :: k in industryCount ==> industryCount[k] == CountOf(filteredData[..i], k)
    {
      MembersStep(filteredData, IndustryOf, i);
      var company := filteredData[i];
      if company.industry !in industryCount {
        MembersOfAbsentKey(filteredData[..i], IndustryOf, company.industry);
      }
      var previous := if company.industry in industryCount then industryCount[company.industry] else 0;
      industryCount := industryCount[company.industry := previous + 1];
    }
    assert filteredData[..|filteredData|] == filteredData;
  }

  /** Sum of the counts over a list of keys. */
  function SumCounts(m: map<string, nat>, ks: seq<string>): nat {
    if ks == [] then 0 else SumCounts(m, DropLast(ks)) + (if Last(ks) in m then m[Last(ks)] else 0)
  }

  /** Every key once, counts summing to the total. */
  lemma IndustryCountsSum(filteredData: seq<Company>, industryCount: map<string, nat>)
    requires forall k :: k in industryCount <==> k in FirstKeys(filteredData, IndustryOf)
    requires forall k :: k in industryCount ==> industryCount[k] == CountOf(filteredData, k)
    ensures SumCounts(industryCount, FirstKeys(filteredData, IndustryOf)) == |filteredData|
  {
    var ks := FirstKeys(filteredData, IndustryOf);
    SumMatches(filteredData, industryCount, ks);
    GroupSizesSum(filteredData, IndustryOf);
  }

  lemma {:induction false} SumMatches(xs: seq<Company>, m: map<string, nat>, ks: seq<string>)
    requires forall k :: k in ks ==> k in m && m[k] == CountOf(xs, k)
    ensures SumCounts(m, ks) == SizeSum(xs, IndustryOf, ks)
  {
    if ks != [] {
      assert forall k :: k in DropLast(ks) ==> k in ks;
      SumMatches(xs, m, DropLast(ks));
    }
  }

  /** The "IT Companies" and "Fin-Tech Companies" figures:
      `industryCount[key] || 0`. */
  function ShownCount(industryCount: map<string, nat>, key: string): nat {
    if key in industryCount && industryCount[key] != 0 then industryCount[key] else 0
  }

  /** The figure is the number of shown companies of that industry, whether
      or not any is shown. */
  lemma ShownCountSpec(filteredData: seq<Company>, industryCount: map<string, nat>, key: string)
    requires forall k :: k in industryCount <==> k in FirstKeys(filteredData, IndustryOf)
    requires forall k :: k in industryCount ==> industryCount[k] == CountOf(filteredData, k)
    ensures ShownCount(industryCount, key) == CountOf(filteredData, key)
  {
    if key !in industryCount {
      MembersOfAbsentKey(filteredData, IndustryOf, key);
    }
  }

  // ------------------------------------------------------ searchable table

  predicate MatchesSearch(c: Company, search: string) {
    Mentions(c.name, search) || Mentions(c.industry, search)
  }

  /** `filteredData` of the searchable table. */
  function FilterBySearch(data: seq<Company>, search: string): seq<Company> {
    Filter(data, c => MatchesSearch(c, search))
  }

  lemma FilterBySearchSpec(data: seq<Company>, search: string)
    ensures forall c :: c in FilterBySearch(data, search) <==> c in data && MatchesSearch(c, search)
    ensures IsSubsequence(FilterBySearch(data, search), data)
    ensures search == "" ==> FilterBySearch(data, search) == data
  {
    FilterSpec(data, c => MatchesSearch(c, search));
    FilterSubsequence(data, c => MatchesSearch(c, search));
    if search == "" {
      forall c | c in data
        ensures MatchesSearch(c, search)
      {
        MentionsEmpty(c.name);
      }
      FilterAll(data, c => MatchesSearch(c, search));
    }
  }

  /** The searchable table keeps what the data table keeps with no industry
      selected. */
  lemma SearchIsRowsWithoutSelection(data: seq<Company>, search: string)
    ensures FilterBySearch(data, search) == FilterRows(data, search, "")
  {
    FilterSame(data, c => MatchesSearch(c, search), c => MatchesRow(c, search, ""));
  }

  lemma {:induction false} FilterSame<T>(xs: seq<T>, p: T -> bool, q: T -> bool)
    requires forall x :: p(x) == q(x)
    ensures Filter(xs, p) == Filter(xs, q)
  {
    if xs != [] {
      FilterSame(DropLast(xs), p, q);
    }
  }

  datatype Stats = Stats(total: nat, showing: nat, industries: nat, itCompanies: nat)

  /** `stats` of the searchable table. */
  function TableStats(data: seq<Company>, search: string): Stats {
    Stats(|data|, |FilterBySearch(data, search)|, |FirstKeys(data, IndustryOf)|,
      |Filter(data, (c: Company) => c.industry == "IT")|)
  }

  /** Shown never exceeds the total; the total, the industry count and the
      IT count are over the whole data, whatever the search; the industry
      count is the number of distinct industries and the IT count the
      number of IT companies. */
  lemma TableStatsSpec(data: seq<Company>, search: string, other: string)
    ensures TableStats(data, search).showing <= TableStats(data, search).total
    ensures TableStats(data, search).total == |data|
    ensures TableStats(data, search).industries == TableStats(data, other).industries
    ensures TableStats(data, search).itCompanies == TableStats(data, other).itCompanies
    ensures TableStats(data, search).industries <= |data|
    ensures TableStats(data, search).itCompanies == CountOf(data, "IT")
  {
    FilterSubsequence(data, c => MatchesSearch(c, search));
    SubsequenceLength(FilterBySearch(data, search), data);
    GroupSizesSum(data, IndustryOf);
    KeysAtMostSize(data);
    FilterIsMembers(data, "IT");
  }

  lemma {:induction false} FilterIsMembers(xs: seq<Company>, k: string)
    ensures Filter(xs, (c: Company) => c.industry == k) == Members(xs, IndustryOf, k)
  {
    if xs != [] {
      FilterIsMembers(DropLast(xs), k);
    }
  }

  /** No more industries than companies. */
  lemma {:induction false} KeysAtMostSize(xs: seq<Company>)
    ensures |FirstKeys(xs, IndustryOf)| <= |xs|
  {
    if xs != [] {
      KeysAtMostSize(DropLast(xs));
    }
  }
}
