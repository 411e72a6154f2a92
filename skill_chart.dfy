/**
 * The arithmetic of the skill visualisation (components/3d/SkillVisualization.tsx):
 * the per-category bar chart, the label of a bar, the number of particles
 * around an orb and the radius of an orb's place on the spiral.
 */
module SkillChart {
  import opened Wrappers
  import opened Sequences

  /** A skill of the chart; the category is optional. */
  datatype Skill = Skill(name: string, level: real, color: string, category: Option<string>)

  // ---------------------------------------------------------------------
  // Distinct values in first-seen order (`[...new Set(xs)]`)
  // ---------------------------------------------------------------------

  /** `skills.map(skill => skill.category)`. */
  function Categories(skills: seq<Skill>): (r: seq<Option<string>>)
    ensures |r| == |skills| && forall i :: 0 <= i < |skills| ==> r[i] == skills[i].category
  {
    seq(|skills|, i requires 0 <= i < |skills| => skills[i].category)
  }

  /** A set filled from `xs` in order and read back in insertion order. */
  function Distinct<T(==,!new)>(xs: seq<T>): (r: seq<T>)
    ensures NoDuplicates(r)
    ensures forall x :: x in r <==> x in xs
    decreases |xs|
  {
    if xs == [] then []
    else
      var d := Distinct(xs[..|xs| - 1]);
      var x := xs[|xs| - 1];
      assert xs == xs[..|xs| - 1] + [x];
      if x in d then d else d + [x]
  }

  /** The index of the first `x` in `xs`, or `|xs|` when there is none. */
  function FirstIndex<T(==)>(xs: seq<T>, x: T): (k: nat)
    ensures k <= |xs|
    ensures k < |xs| <==> x in xs
    ensures k < |xs| ==> xs[k] == x
  {
    if xs == [] then 0 else if xs[0] == x then 0 else 1 + FirstIndex(xs[1..], x)
  }

  lemma {:induction false} FirstIndexSnoc<T>(xs: seq<T>, y: T, x: T)
    ensures FirstIndex(xs + [y], x) == if x in xs then FirstIndex(xs, x) else if x == y then |xs| else |xs| + 1
  {
    if xs != [] {
      assert (xs + [y])[1..] == xs[1..] + [y];
      FirstIndexSnoc(xs[1..], y, x);
    }
  }

  /** The distinct values appear in the order of their first occurrence. */
  lemma {:induction false} DistinctFirstSeenOrder<T(!new)>(xs: seq<T>)
    ensures forall i, j :: 0 <= i < j < |Distinct(xs)| ==>
              FirstIndex(xs, Distinct(xs)[i]) < FirstIndex(xs, Distinct(xs)[j])
    decreases |xs|
  {
    if xs != [] {
      var p := xs[..|xs| - 1];
      var x := xs[|xs| - 1];
      assert xs == p + [x];
      DistinctFirstSeenOrder(p);
      var d := Distinct(p);
      forall c | c in d ensures FirstIndex(xs, c) == FirstIndex(p, c) && FirstIndex(p, c) < |p| {
        FirstIndexSnoc(p, x, c);
      }
      if x !in d {
        FirstIndexSnoc(p, x, x);
        var r := d + [x];
        forall i, j | 0 <= i < j < |r| ensures FirstIndex(xs, r[i]) < FirstIndex(xs, r[j]) {
          assert r[i] == d[i] && d[i] in d;
          if j < |d| {
            assert r[j] == d[j] && d[j] in d;
          } else {
            assert r[j] == x && FirstIndex(xs, x) == |p|;
          }
        }
      }
    }
  }

  // ---------------------------------------------------------------------
  // Sums of occurrence counts
  // ---------------------------------------------------------------------

  /** The total number of occurrences in `xs` of the values listed in `ds`. */
  function Occurrences<T(==)>(ds: seq<T>, xs: seq<T>): nat
    decreases |ds|
  {
    if ds == [] then 0 else Occurrences(ds[..|ds| - 1], xs) + multiset(xs)[ds[|ds| - 1]]
  }

  lemma {:induction false} OccurrencesSnoc<T>(ds: seq<T>, xs: seq<T>, x: T)
    requires NoDuplicates(ds)
    ensures Occurrences(ds, xs + [x]) == Occurrences(ds, xs) + if x in ds then 1 else 0
    decreases |ds|
  {
    if ds != [] {
      var e := ds[..|ds| - 1];
      assert ds == e + [ds[|ds| - 1]];
      assert NoDuplicates(e) by {
        forall i, j | 0 <= i < j < |e| ensures e[i] != e[j] {
          assert e[i] == ds[i] && e[j] == ds[j];
        }
      }
      assert ds[|ds| - 1] !in e by {
        forall i | 0 <= i < |e| ensures e[i] != ds[|ds| - 1] {
          assert e[i] == ds[i];
        }
      }
      OccurrencesSnoc(e, xs, x);
      assert multiset(xs + [x]) == multiset(xs) + multiset{x};
    }
  }

  lemma {:induction false} OccurrencesOfAbsent<T>(ds: seq<T>, xs: seq<T>, x: T)
    requires x !in ds
    ensures Occurrences(ds + [x], xs) == Occurrences(ds, xs) + multiset(xs)[x]
  {
    assert (ds + [x])[..|ds|] == ds;
  }

  /** Every value counted once per its distinct entry: the counts add up to the length. */
  lemma {:induction false} DistinctOccurrencesSum<T(!new)>(xs: seq<T>)
    ensures Occurrences(Distinct(xs), xs) == |xs|
    decreases |xs|
  {
    if xs != [] {
      var p := xs[..|xs| - 1];
      var x := xs[|xs| - 1];
      assert xs == p + [x];
      var d := Distinct(p);
      DistinctOccurrencesSum(p);
      OccurrencesSnoc(d, p, x);
      if x !in d {
        OccurrencesOfAbsent(d, xs, x);
        assert x !in p;
        assert multiset(xs)[x] == multiset(p)[x] + 1;
      }
    }
  }

  // ---------------------------------------------------------------------
  // The bar chart (`createSkillChart`)
  // ---------------------------------------------------------------------

  /** The categories of a non-empty list: the first skill's, then the rest's. */
  lemma CategoriesCons(skills: seq<Skill>, category: Option<string>)
    requires skills != []
    ensures Categories(skills) == [skills[0].category] + Categories(skills[1..])
    ensures multiset(Categories(skills))[category] ==
            multiset(Categories(skills[1..]))[category] + if skills[0].category == category then 1 else 0
  {
    assert forall i :: 0 <= i < |skills| - 1 ==> skills[1..][i] == skills[i + 1];
    assert Categories(skills) == [skills[0].category] + Categories(skills[1..]);
  }

  /** `skills.filter(skill => skill.category === category)`. */
  function SkillsIn(skills: seq<Skill>, category: Option<string>): (r: seq<Skill>)
    ensures IsSubsequence(r, skills)
    ensures forall k :: 0 <= k < |r| ==> r[k].category == category
    ensures |r| == multiset(Categories(skills))[category]
  {
    if skills == [] then []
    else
      var rest := SkillsIn(skills[1..], category);
      CategoriesCons(skills, category);
      if skills[0].category == category then
        assert ([skills[0]] + rest)[1..] == rest;
        [skills[0]] + rest
      else
        assert rest == [] || rest[0] != skills[0];
        rest
  }

  /** The levels of `g` added up, as the numbers `reduce` adds. */
  function LevelSum(g: seq<Skill>): real {
    if g == [] then 0.0 else g[0].level + LevelSum(g[1..])
  }

  /** The lowest level of a non-empty group. */
  function MinLevel(g: seq<Skill>): (m: real)
    requires g != []
    ensures forall k :: 0 <= k < |g| ==> m <= g[k].level
    ensures exists k :: 0 <= k < |g| && g[k].level == m
  {
    if |g| == 1 then g[0].level
    else
      var m := MinLevel(g[1..]);
      assert forall k :: 1 <= k < |g| ==> g[k] == g[1..][k - 1];
      var k :| 0 <= k < |g| - 1 && g[1..][k].level == m;
      assert g[k + 1].level == m;
      if g[0].level <= m then g[0].level else m
  }

  /** The highest level of a non-empty group. */
  function MaxLevel(g: seq<Skill>): (m: real)
    requires g != []
    ensures forall k :: 0 <= k < |g| ==> g[k].level <= m
    ensures exists k :: 0 <= k < |g| && g[k].level == m
  {
    if |g| == 1 then g[0].level
    else
      var m := MaxLevel(g[1..]);
      assert forall k :: 1 <= k < |g| ==> g[k] == g[1..][k - 1];
      var k :| 0 <= k < |g| - 1 && g[1..][k].level == m;
      assert g[k + 1].level == m;
      if g[0].level >= m then g[0].level else m
  }

  /** `x` added up `n` times. */
  function Times(n: nat, x: real): real {
    if n == 0 then 0.0 else x + Times(n - 1, x)
  }

  lemma {:induction false} TimesIsProduct(n: nat, x: real)
    ensures Times(n, x) == (n as real) * x
  {
    if n > 0 {
      TimesIsProduct(n - 1, x);
      assert (n as real) * x == ((n - 1) as real) * x + x;
    }
  }

  lemma {:induction false} LevelSumBounds(g: seq<Skill>, lo: real, hi: real)
    requires forall k :: 0 <= k < |g| ==> lo <= g[k].level <= hi
    ensures Times(|g|, lo) <= LevelSum(g) <= Times(|g|, hi)
  {
    if g != [] {
      assert forall k :: 0 <= k < |g| - 1 ==> g[1..][k] == g[k + 1];
      LevelSumBounds(g[1..], lo, hi);
    }
  }

  /** A total of `n` values between `lo` and `hi`, divided by `n`, is between `lo` and `hi`. */
  lemma MeanBounds(s: real, n: nat, lo: real, hi: real)
    requires n > 0 && Times(n, lo) <= s <= Times(n, hi)
    ensures lo <= s / (n as real) <= hi
  {
    TimesIsProduct(n, lo);
    TimesIsProduct(n, hi);
    QuotientBounds(s, n as real, lo, hi);
  }

  lemma QuotientBounds(s: real, m: real, lo: real, hi: real)
    requires m > 0.0 && lo * m <= s <= hi * m
    ensures lo <= s / m <= hi
  {
    var q := s / m;
    assert q * m == s;
    if q < lo {
      ScaleStrict(q, lo, m);
      assert false;
    }
    if q > hi {
      ScaleStrict(hi, q, m);
      assert false;
    }
  }

  lemma ScaleStrict(a: real, b: real, m: real)
    requires m > 0.0 && a < b
    ensures a * m < b * m
  {
  }

  /** `categorySkills.reduce((sum, skill) => sum + skill.level, 0) / categorySkills.length`. */
  function Average(g: seq<Skill>): real
    requires g != []
  {
    LevelSum(g) / (|g| as real)
  }

  /** An average lies between the smallest and the largest level it averages. */
  lemma AverageBetweenExtremes(g: seq<Skill>)
    requires g != []
    ensures MinLevel(g) <= Average(g) <= MaxLevel(g)
  {
    var lo, hi := MinLevel(g), MaxLevel(g);
    LevelSumBounds(g, lo, hi);
    MeanBounds(LevelSum(g), |g|, lo, hi);
  }

  datatype CategoryStat = CategoryStat(category: Option<string>, level: real, count: nat)

  /** The bar of one category that occurs among `skills`. */
  function StatFor(skills: seq<Skill>, category: Option<string>): (r: CategoryStat)
    requires category in Categories(skills)
    ensures r.category == category
    ensures r.count == |SkillsIn(skills, category)| > 0
    ensures r.level == Average(SkillsIn(skills, category))
  {
    var g := SkillsIn(skills, category);
    CategoryStat(category, Average(g), |g|)
  }

  /** `categories.map(category => ...)`. */
  function StatsFor(skills: seq<Skill>, cs: seq<Option<string>>): (r: seq<CategoryStat>)
    requires forall c :: c in cs ==> c in Categories(skills)
    ensures |r| == |cs|
    ensures forall i :: 0 <= i < |cs| ==> r[i] == StatFor(skills, cs[i])
    decreases |cs|
  {
    if cs == [] then []
    else [StatFor(skills, cs[0])] + StatsFor(skills, cs[1..])
  }

  /** The chart's bars: one per distinct category, in first-seen order. */
  function CategoryData(skills: seq<Skill>): (r: seq<CategoryStat>)
    ensures |r| == |Distinct(Categories(skills))|
    ensures forall k :: 0 <= k < |r| ==> r[k] == StatFor(skills, Distinct(Categories(skills))[k])
  {
    StatsFor(skills, Distinct(Categories(skills)))
  }

  function TotalCount(stats: seq<CategoryStat>): nat
    decreases |stats|
  {
    if stats == [] then 0 else TotalCount(stats[..|stats| - 1]) + stats[|stats| - 1].count
  }

  /** Counts that are each value's number of occurrences add up to the occurrences of all the values. */
  lemma {:induction false} TotalCountOfCounts(stats: seq<CategoryStat>, cs: seq<Option<string>>, xs: seq<Option<string>>)
    requires |stats| == |cs|
    requires forall i :: 0 <= i < |cs| ==> stats[i].count == multiset(xs)[cs[i]]
    ensures TotalCount(stats) == Occurrences(cs, xs)
    decreases |cs|
  {
    if cs != [] {
      var n := |cs| - 1;
      assert forall i :: 0 <= i < n ==> stats[..n][i] == stats[i] && cs[..n][i] == cs[i];
      TotalCountOfCounts(stats[..n], cs[..n], xs);
    }
  }

  lemma TotalCountOfStats(skills: seq<Skill>, cs: seq<Option<string>>)
    requires forall c :: c in cs ==> c in Categories(skills)
    ensures TotalCount(StatsFor(skills, cs)) == Occurrences(cs, Categories(skills))
  {
    var r := StatsFor(skills, cs);
    forall i | 0 <= i < |cs| ensures r[i].count == multiset(Categories(skills))[cs[i]] {
      assert r[i] == StatFor(skills, cs[i]);
    }
    TotalCountOfCounts(r, cs, Categories(skills));
  }

  /** No category has two bars. */
  lemma CategoryDataDistinct(skills: seq<Skill>)
    ensures forall i, j :: 0 <= i < j < |CategoryData(skills)| ==>
              CategoryData(skills)[i].category != CategoryData(skills)[j].category
  {
    var cs := Distinct(Categories(skills));
    var r := CategoryData(skills);
    forall i, j | 0 <= i < j < |r| ensures r[i].category != r[j].category {
      assert r[i].category == cs[i] && r[j].category == cs[j];
    }
  }

  /** Every skill's category has a bar. */
  lemma CategoryDataCoversSkills(skills: seq<Skill>, i: nat)
    requires i < |skills|
    ensures exists k :: 0 <= k < |CategoryData(skills)| && CategoryData(skills)[k].category == skills[i].category
  {
    var cats := Categories(skills);
    var cs := Distinct(cats);
    assert cats[i] in cs;
    var k :| 0 <= k < |cs| && cs[k] == cats[i];
    assert CategoryData(skills)[k].category == cs[k];
  }

  /** Every bar's category is some skill's. */
  lemma CategoryDataOnlySkillCategories(skills: seq<Skill>, k: nat)
    requires k < |CategoryData(skills)|
    ensures exists i :: 0 <= i < |skills| && skills[i].category == CategoryData(skills)[k].category
  {
    var cats := Categories(skills);
    var cs := Distinct(cats);
    assert CategoryData(skills)[k].category == cs[k];
    assert cs[k] in cats;
    var i :| 0 <= i < |cats| && cats[i] == cs[k];
    assert skills[i].category == cs[k];
  }

  /** The bars come in the order in which the skills first use their categories. */
  lemma CategoryDataFirstSeenOrder(skills: seq<Skill>)
    ensures forall i, j :: 0 <= i < j < |CategoryData(skills)| ==>
              FirstIndex(Categories(skills), CategoryData(skills)[i].category)
              < FirstIndex(Categories(skills), CategoryData(skills)[j].category)
  {
    var cs := Distinct(Categories(skills));
    var r := CategoryData(skills);
    DistinctFirstSeenOrder(Categories(skills));
    assert forall k :: 0 <= k < |r| ==> r[k].category == cs[k];
  }

  /**
   * Each bar counts the skills of its category, at least one, and its level
   * is their average, between their least and greatest level.
   */
  lemma CategoryDataBars(skills: seq<Skill>, k: nat)
    requires k < |CategoryData(skills)|
    ensures CategoryData(skills)[k].count == |SkillsIn(skills, CategoryData(skills)[k].category)| > 0
    ensures CategoryData(skills)[k].level == Average(SkillsIn(skills, CategoryData(skills)[k].category))
    ensures MinLevel(SkillsIn(skills, CategoryData(skills)[k].category)) <= CategoryData(skills)[k].level
    ensures CategoryData(skills)[k].level <= MaxLevel(SkillsIn(skills, CategoryData(skills)[k].category))
  {
    var cs := Distinct(Categories(skills));
    var c := cs[k];
    assert c in Categories(skills);
    assert CategoryData(skills)[k] == StatFor(skills, c);
    var g := SkillsIn(skills, c);
    assert |g| > 0;
    AverageBetweenExtremes(g);
  }

  /** The bars' counts add up to the number of skills: every skill is in exactly one bar. */
  lemma CategoryDataTotal(skills: seq<Skill>)
    ensures TotalCount(CategoryData(skills)) == |skills|
  {
    var cats := Categories(skills);
    TotalCountOfStats(skills, Distinct(cats));
    DistinctOccurrencesSum(cats);
  }

  /** `data.category || 'other'`: the text under a bar. */
  function BarLabel(category: Option<string>): (r: string)
    ensures r != []
    ensures category.Some? && category.value != [] ==> r == category.value
    ensures category.None? || category.value == [] ==> r == "other"
  {
    if category.Some? && category.value != [] then category.value else "other"
  }

  // ---------------------------------------------------------------------
  // Orbs
  // ---------------------------------------------------------------------

  /** `Math.floor(skill.level / 10)`: the particles around an orb. */
  function ParticleCount(level: real): (n: int)
    ensures (n as real) * 10.0 <= level < (n as real) * 10.0 + 10.0
  {
    (level / 10.0).Floor
  }

  /** `3 + (index % 3) * 1.5`: the radius of an orb's place on the spiral. */
  function SpiralRadius(index: nat): (r: real)
    ensures r == 3.0 || r == 4.5 || r == 6.0
  {
    3.0 + ((index % 3) as real) * 1.5
  }

  /** The radius runs through 3, 4.5 and 6 and repeats with period three. */
  lemma SpiralRadiusCycles(index: nat)
    ensures SpiralRadius(index + 3) == SpiralRadius(index)
    ensures SpiralRadius(3 * index) == 3.0
    ensures SpiralRadius(3 * index + 1) == 4.5
    ensures SpiralRadius(3 * index + 2) == 6.0
  {
  }
}
