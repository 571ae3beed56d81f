/**
 * The projects section's category filter: `filterProjects` picks the
 * projects to render and marks the active filter button, and
 * `updateProjectCount` writes the "Showing ..." line under the carousel.
 */
module ProjectFilter {
  import opened Wrappers

  /** A project as loaded from the content file; `categories` may be absent. */
  datatype Project = Project(title: string, categories: Option<seq<string>>)

  /** A filter category; its display `name` may be absent or empty. */
  datatype Category = Category(id: string, name: Option<string>)

  const AllFilter: string := "all"

  /** `project.categories && project.categories.includes(categoryId)`. */
  predicate HasCategory(p: Project, categoryId: string)
  {
    p.categories.Some? && categoryId in p.categories.value
  }

  /** `Array.prototype.filter` with `HasCategory`, front to back. */
  function FilterBy(projects: seq<Project>, categoryId: string): (r: seq<Project>)
    ensures |r| <= |projects|
    ensures forall p :: p in r <==> p in projects && HasCategory(p, categoryId)
    ensures forall p :: multiset(r)[p] == if HasCategory(p, categoryId) then multiset(projects)[p] else 0
  {
    if projects == [] then []
    else
      var rest := FilterBy(projects[1..], categoryId);
      assert projects == [projects[0]] + projects[1..];
      if HasCategory(projects[0], categoryId) then [projects[0]] + rest else rest
  }

  /** The list `filterProjects` hands to the renderer: everything for `all`, else the matching projects. */
  function Filter(projects: seq<Project>, categoryId: string): (r: seq<Project>)
    ensures categoryId == AllFilter ==> r == projects
    ensures categoryId != AllFilter ==>
              forall p :: p in r <==> p in projects && HasCategory(p, categoryId)
  {
    if categoryId == AllFilter then projects else FilterBy(projects, categoryId)
  }

  /** a occurs in b in order, possibly with gaps. */
  predicate IsSubsequence(a: seq<Project>, b: seq<Project>)
    decreases |b|
  {
    if a == [] then true
    else if b == [] then false
    else if a[0] == b[0] then IsSubsequence(a[1..], b[1..])
    else IsSubsequence(a, b[1..])
  }

  /** The filter keeps the relative order of the projects it keeps. */
  lemma {:induction false} FilterIsSubsequence(projects: seq<Project>, categoryId: string)
    ensures IsSubsequence(FilterBy(projects, categoryId), projects)
    decreases |projects|
  {
    if projects != [] {
      var rest := FilterBy(projects[1..], categoryId);
      FilterIsSubsequence(projects[1..], categoryId);
      if HasCategory(projects[0], categoryId) {
        assert ([projects[0]] + rest)[1..] == rest;
      } else if rest != [] {
        SubsequenceSkip(rest, projects);
      }
    }
  }

  lemma SubsequenceSkip(a: seq<Project>, b: seq<Project>)
    requires b != [] && a != [] && IsSubsequence(a, b[1..])
    ensures IsSubsequence(a, b)
    decreases |b|, 0
  {
    if a[0] == b[0] {
      SubsequenceTail(a, b[1..]);
    }
  }

  /** Dropping the head of a subsequence keeps it a subsequence. */
  lemma SubsequenceTail(a: seq<Project>, b: seq<Project>)
    requires a != [] && IsSubsequence(a, b)
    ensures IsSubsequence(a[1..], b)
    decreases |b|, 1
  {
    if a[0] == b[0] {
      if a[1..] != [] {
        SubsequenceSkip(a[1..], b);
      }
    } else {
      SubsequenceTail(a, b[1..]);
      if a[1..] != [] {
        SubsequenceSkip(a[1..], b);
      }
    }
  }

  /** Filtering a concatenation filters each part: the filter works project by project, in order. */
  lemma {:induction false} FilterAppend(a: seq<Project>, b: seq<Project>, categoryId: string)
    ensures FilterBy(a + b, categoryId) == FilterBy(a, categoryId) + FilterBy(b, categoryId)
    decreases |a|
  {
    if a == [] {
      assert a + b == b;
    } else {
      assert (a + b)[0] == a[0];
      assert (a + b)[1..] == a[1..] + b;
      FilterAppend(a[1..], b, categoryId);
    }
  }

  /** Filtering twice by the same category is filtering once. */
  lemma {:induction false} FilterIdempotent(projects: seq<Project>, categoryId: string)
    ensures Filter(Filter(projects, categoryId), categoryId) == Filter(projects, categoryId)
  {
    if categoryId != AllFilter {
      FilterByIdempotent(projects, categoryId);
    }
  }

  lemma {:induction false} FilterByIdempotent(projects: seq<Project>, categoryId: string)
    ensures FilterBy(FilterBy(projects, categoryId), categoryId) == FilterBy(projects, categoryId)
    decreases |projects|
  {
    if projects != [] {
      var rest := FilterBy(projects[1..], categoryId);
      FilterByIdempotent(projects[1..], categoryId);
      if HasCategory(projects[0], categoryId) {
        assert ([projects[0]] + rest)[1..] == rest;
      }
    }
  }

  /** `allCategories.find(cat => cat.id === category)`. */
  function FindCategory(categories: seq<Category>, categoryId: string): (r: Option<Category>)
    ensures r.None? <==> forall c :: c in categories ==> c.id != categoryId
    ensures r.Some? ==> r.value in categories && r.value.id == categoryId
  {
    if categories == [] then None
    else if categories[0].id == categoryId then Some(categories[0])
    else
      assert forall c :: c in categories ==> c == categories[0] || c in categories[1..];
      FindCategory(categories[1..], categoryId)
  }

  /** `find` returns the first category with the id, when several share it. */
  lemma {:induction false} FindCategoryFirst(categories: seq<Category>, categoryId: string, k: nat)
    requires k < |categories| && categories[k].id == categoryId
    requires forall j :: 0 <= j < k ==> categories[j].id != categoryId
    ensures FindCategory(categories, categoryId) == Some(categories[k])
    decreases k
  {
    if k > 0 {
      FindCategoryFirst(categories[1..], categoryId, k - 1);
    }
  }

  /** `find(...)?.name || category`: the first match's name, unless it is absent or empty. */
  function CategoryLabel(categories: seq<Category>, categoryId: string): (shown: string)
    ensures shown == categoryId
            || exists c :: c in categories && c.id == categoryId && c.name == Some(shown) && shown != ""
    ensures (forall c :: c in categories ==> c.id != categoryId) ==> shown == categoryId
  {
    var found := FindCategory(categories, categoryId);
    if found.Some? && found.value.name.Some? && found.value.name.value != "" then
      found.value.name.value
    else categoryId
  }

  /**
   * The label is decided by the FIRST category with the id: its name when
   * that is present and non-empty, the raw id otherwise.
   */
  lemma CategoryLabelFirstMatch(categories: seq<Category>, categoryId: string, k: nat)
    requires k < |categories| && categories[k].id == categoryId
    requires forall j :: 0 <= j < k ==> categories[j].id != categoryId
    ensures categories[k].name.Some? && categories[k].name.value != "" ==>
              CategoryLabel(categories, categoryId) == categories[k].name.value
    ensures categories[k].name.None? || categories[k].name.value == "" ==>
              CategoryLabel(categories, categoryId) == categoryId
  {
    FindCategoryFirst(categories, categoryId, k);
  }

  predicate IsDigit(c: char)
  {
    '0' <= c <= '9'
  }

  predicate AllDigits(s: string)
  {
    forall i :: 0 <= i < |s| ==> IsDigit(s[i])
  }

  function DigitChar(d: nat): (c: char)
    requires d < 10
    ensures IsDigit(c)
  {
    ('0' as int + d) as char
  }

  function DigitValue(c: char): (d: nat)
    requires IsDigit(c)
    ensures d < 10 && DigitChar(d) == c
  {
    (c as int) - ('0' as int)
  }

  /** A number as a template literal prints it: decimal digits, no sign, no leading zero. */
  function Decimal(n: nat): (s: string)
    ensures |s| >= 1 && AllDigits(s)
    ensures s[0] == '0' ==> n == 0
    decreases n
  {
    if n < 10 then [DigitChar(n)] else Decimal(n / 10) + [DigitChar(n % 10)]
  }

  /** Reads a run of decimal digits back as a number. */
  function ParseDecimal(s: string): nat
    requires AllDigits(s)
    decreases |s|
  {
    if s == [] then 0 else ParseDecimal(s[..|s| - 1]) * 10 + DigitValue(s[|s| - 1])
  }

  lemma {:induction false} DecimalRoundTrip(n: nat)
    ensures ParseDecimal(Decimal(n)) == n
    decreases n
  {
    if n >= 10 {
      var s := Decimal(n);
      assert s[..|s| - 1] == Decimal(n / 10);
      DecimalRoundTrip(n / 10);
    }
  }

  /** The text of the count element after a filter. */
  function CountMessage(filtered: nat, total: nat, categoryId: string, categories: seq<Category>): string
  {
    if categoryId == AllFilter then
      "Showing all " + (Decimal(total) + " projects")
    else
      "Showing " + (Decimal(filtered) + (" of " + (Decimal(total) + (" projects in "
        + CategoryLabel(categories, categoryId)))))
  }

  /** What a reader of the count line learns from it. */
  datatype CountReading = AllShown(total: nat) | SomeShown(shown: nat, total: nat, category: string)

  /** The length of the run of digits at the front of s. */
  function DigitRun(s: string): (k: nat)
    ensures k <= |s| && AllDigits(s[..k])
    ensures k < |s| ==> !IsDigit(s[k])
  {
    if s == [] || !IsDigit(s[0]) then 0
    else
      var k := 1 + DigitRun(s[1..]);
      assert s[..k] == [s[0]] + s[1..][..k - 1];
      k
  }

  lemma {:induction false} DigitRunOf(d: string, rest: string)
    requires AllDigits(d) && (rest == [] || !IsDigit(rest[0]))
    ensures DigitRun(d + rest) == |d| && (d + rest)[..|d|] == d && (d + rest)[|d|..] == rest
    decreases |d|
  {
    if d == [] {
      assert d + rest == rest;
    } else {
      assert (d + rest)[1..] == d[1..] + rest;
      DigitRunOf(d[1..], rest);
    }
  }

  predicate HasPrefix(s: string, p: string)
  {
    |p| <= |s| && s[..|p|] == p
  }

  /** Reads a count line back: the numbers it shows and, for one category, its name. */
  function ParseCountMessage(msg: string): Option<CountReading>
  {
    if HasPrefix(msg, "Showing all ") then ParseAllTail(msg[12..])
    else if HasPrefix(msg, "Showing ") then ParseShownTail(msg[8..])
    else None
  }

  /** After "Showing all ": the total, then " projects". */
  function ParseAllTail(rest: string): Option<CountReading>
  {
    var k := DigitRun(rest);
    if k > 0 && rest[k..] == " projects" then Some(AllShown(ParseDecimal(rest[..k]))) else None
  }

  /** After "Showing ": the shown count, then " of ". */
  function ParseShownTail(rest: string): Option<CountReading>
  {
    var k := DigitRun(rest);
    if k == 0 || !HasPrefix(rest[k..], " of ") then None
    else ParseTotalTail(ParseDecimal(rest[..k]), rest[k..][4..])
  }

  /** After " of ": the total, then " projects in " and the category name. */
  function ParseTotalTail(shown: nat, rest: string): Option<CountReading>
  {
    var k := DigitRun(rest);
    if k == 0 || !HasPrefix(rest[k..], " projects in ") then None
    else Some(SomeShown(shown, ParseDecimal(rest[..k]), rest[k..][13..]))
  }

  /** The count line always reads back as the counts and the name it was written from. */
  lemma CountMessageRoundTrip(filtered: nat, total: nat, categoryId: string, categories: seq<Category>)
    ensures ParseCountMessage(CountMessage(filtered, total, categoryId, categories))
            == if categoryId == AllFilter then Some(AllShown(total))
               else Some(SomeShown(filtered, total, CategoryLabel(categories, categoryId)))
  {
    var dt := Decimal(total);
    DecimalRoundTrip(total);
    if categoryId == AllFilter {
      AllMessageReadsBack(dt);
    } else {
      DecimalRoundTrip(filtered);
      SomeMessageReadsBack(Decimal(filtered), dt, CategoryLabel(categories, categoryId));
    }
  }

  lemma AllMessageReadsBack(dt: string)
    requires |dt| >= 1 && AllDigits(dt)
    ensures ParseCountMessage("Showing all " + (dt + " projects")) == Some(AllShown(ParseDecimal(dt)))
  {
    ShowingAllPrefix(dt + " projects");
    DigitRunOf(dt, " projects");
  }

  /** A line starting "Showing all " is parsed as the count of everything. */
  lemma ShowingAllPrefix(rest: string)
    ensures ParseCountMessage("Showing all " + rest) == ParseAllTail(rest)
  {
    var msg := "Showing all " + rest;
    assert msg[..12] == "Showing all ";
    assert msg[12..] == rest;
  }

  lemma SomeMessageReadsBack(df: string, dt: string, name: string)
    requires |df| >= 1 && AllDigits(df) && |dt| >= 1 && AllDigits(dt)
    ensures ParseCountMessage("Showing " + (df + (" of " + (dt + (" projects in " + name)))))
            == Some(SomeShown(ParseDecimal(df), ParseDecimal(dt), name))
  {
    var rest := df + (" of " + (dt + (" projects in " + name)));
    ShownTailReadsBack(df, dt, name);
    ShowingPrefix(rest);
  }

  /** A line "Showing " followed by a digit is parsed as a one-category count. */
  lemma ShowingPrefix(rest: string)
    requires |rest| >= 1 && IsDigit(rest[0])
    ensures ParseCountMessage("Showing " + rest) == ParseShownTail(rest)
  {
    var msg := "Showing " + rest;
    assert msg[..8] == "Showing ";
    assert msg[8..] == rest;
    assert msg[8] == rest[0];
    assert "Showing all "[8] == 'a';
    if |msg| >= 12 {
      assert msg[..12][8] == msg[8];
    }
  }

  lemma ShownTailReadsBack(df: string, dt: string, name: string)
    requires |df| >= 1 && AllDigits(df) && |dt| >= 1 && AllDigits(dt)
    ensures ParseShownTail(df + (" of " + (dt + (" projects in " + name))))
            == Some(SomeShown(ParseDecimal(df), ParseDecimal(dt), name))
  {
    var rest2 := dt + (" projects in " + name);
    var rest := df + (" of " + rest2);
    DigitRunOf(df, " of " + rest2);
    assert rest[|df|..][4..] == rest2;
    TotalTailReadsBack(ParseDecimal(df), dt, name);
  }

  lemma TotalTailReadsBack(shown: nat, dt: string, name: string)
    requires |dt| >= 1 && AllDigits(dt)
    ensures ParseTotalTail(shown, dt + (" projects in " + name))
            == Some(SomeShown(shown, ParseDecimal(dt), name))
  {
    var rest := dt + (" projects in " + name);
    DigitRunOf(dt, " projects in " + name);
    assert rest[|dt|..][13..] == name;
  }

  /** The `active` flag of each filter button: set exactly on the buttons for this category. */
  function ActiveFlags(buttonFilters: seq<string>, categoryId: string): (r: seq<bool>)
    ensures |r| == |buttonFilters|
    ensures forall i :: 0 <= i < |r| ==> (r[i] <==> buttonFilters[i] == categoryId)
  {
    seq(|buttonFilters|, i requires 0 <= i < |buttonFilters| => buttonFilters[i] == categoryId)
  }

  /** With one button per category, at most one button is active, and the chosen one is. */
  lemma OneActiveButton(buttonFilters: seq<string>, categoryId: string, i: nat, j: nat)
    requires forall a, b :: 0 <= a < b < |buttonFilters| ==> buttonFilters[a] != buttonFilters[b]
    requires i < j < |buttonFilters|
    ensures !(ActiveFlags(buttonFilters, categoryId)[i] && ActiveFlags(buttonFilters, categoryId)[j])
  {
  }

  /** The `forEach` over the filter buttons: each is active exactly when its filter is the category. */
  method ToggleActive(buttonFilters: seq<string>, categoryId: string) returns (flags: seq<bool>)
    ensures flags == ActiveFlags(buttonFilters, categoryId)
  {
    flags := [];
    var i := 0;
    while i < |buttonFilters|
      invariant 0 <= i <= |buttonFilters|
      invariant |flags| == i
      invariant forall k :: 0 <= k < i ==> (flags[k] <==> buttonFilters[k] == categoryId)
    {
      flags := flags + [buttonFilters[i] == categoryId];
      i := i + 1;
    }
  }

  /**
   * The page state `filterProjects` reads and writes: the loaded projects
   * and categories, the current filter, the filter buttons' active flags,
   * the list last rendered and the count element's text (`None` when the
   * page has no count element).
   */
  class Gallery {
    var allProjects: seq<Project>
    var allCategories: seq<Category>
    var currentFilter: string
    var buttonFilters: seq<string>
    var activeButtons: seq<bool>
    var rendered: seq<Project>
    var countText: Option<string>

    /**
     * The state once the content is loaded: the filter starts at `all` and
     * every project is rendered. The buttons' active classes and the count
     * element's text are whatever the page's markup holds, so they are given.
     */
    constructor(projects: seq<Project>, categories: seq<Category>, buttons: seq<string>,
                active: seq<bool>, count: Option<string>)
      ensures allProjects == projects && allCategories == categories && buttonFilters == buttons
      ensures currentFilter == AllFilter && rendered == projects
      ensures activeButtons == active && countText == count
    {
      allProjects := projects;
      allCategories := categories;
      buttonFilters := buttons;
      currentFilter := AllFilter;
      activeButtons := active;
      rendered := projects;
      countText := count;
    }

    /** `filterProjects(categoryId)` up to the count update. */
    method FilterProjects(categoryId: string)
      modifies this
      ensures currentFilter == categoryId
      ensures activeButtons == ActiveFlags(buttonFilters, categoryId)
      ensures rendered == Filter(allProjects, categoryId)
      ensures countText == if old(countText).Some?
                           then Some(CountMessage(|rendered|, |allProjects|, categoryId, allCategories))
                           else None
      ensures allProjects == old(allProjects) && allCategories == old(allCategories)
      ensures buttonFilters == old(buttonFilters)
    {
      currentFilter := categoryId;
      activeButtons := ToggleActive(buttonFilters, categoryId);
      rendered := Filter(allProjects, categoryId);
      UpdateProjectCount(|rendered|, |allProjects|, categoryId);
    }

    /** `updateProjectCount`: does nothing when the page has no count element. */
    method UpdateProjectCount(filtered: nat, total: nat, categoryId: string)
      modifies this
      ensures countText == if old(countText).Some?
                           then Some(CountMessage(filtered, total, categoryId, allCategories))
                           else None
      ensures allProjects == old(allProjects) && allCategories == old(allCategories)
      ensures buttonFilters == old(buttonFilters) && activeButtons == old(activeButtons)
      ensures rendered == old(rendered) && currentFilter == old(currentFilter)
    {
      if countText.Some? {
        countText := Some(CountMessage(filtered, total, categoryId, allCategories));
      }
    }
  }
}
