/**
 * The project store (lib/cms.ts): the portfolio document held in memory and
 * the list / get / create / update / delete operations on its project table.
 */
module Cms {
  import opened Wrappers
  import opened PortfolioTypes
  import Text

  // ---------------------------------------------------------------------
  // Newest-first ordering (`getProjects`)
  // ---------------------------------------------------------------------

  /** Ordered by non-increasing creation time. */
  predicate NewestFirst(s: seq<Project>) {
    forall i, j :: 0 <= i < j < |s| ==> s[i].createdAt >= s[j].createdAt
  }

  /** The records created at instant `t`, in their order in `s`. */
  function CreatedAt(s: seq<Project>, t: int): seq<Project> {
    if s == [] then []
    else (if s[0].createdAt == t then [s[0]] else []) + CreatedAt(s[1..], t)
  }

  /** Puts `p` in front of the first record that is not newer than it. */
  function InsertNewest(p: Project, s: seq<Project>): seq<Project> {
    if s == [] || s[0].createdAt <= p.createdAt then [p] + s
    else [s[0]] + InsertNewest(p, s[1..])
  }

  lemma {:induction false} InsertNewestMultiset(p: Project, s: seq<Project>)
    ensures multiset(InsertNewest(p, s)) == multiset(s) + multiset{p}
  {
    if !(s == [] || s[0].createdAt <= p.createdAt) {
      InsertNewestMultiset(p, s[1..]);
      assert s == [s[0]] + s[1..];
    }
  }

  /** Inserting a record no newer than `t` among records no newer than `t` keeps that bound. */
  lemma {:induction false} InsertNewestBound(p: Project, s: seq<Project>, t: int)
    requires p.createdAt <= t
    requires forall k :: 0 <= k < |s| ==> s[k].createdAt <= t
    ensures forall k :: 0 <= k < |InsertNewest(p, s)| ==> InsertNewest(p, s)[k].createdAt <= t
  {
    if !(s == [] || s[0].createdAt <= p.createdAt) {
      var rest := InsertNewest(p, s[1..]);
      InsertNewestBound(p, s[1..], t);
      assert InsertNewest(p, s) == [s[0]] + rest;
    }
  }

  lemma {:induction false} InsertNewestSorted(p: Project, s: seq<Project>)
    requires NewestFirst(s)
    ensures NewestFirst(InsertNewest(p, s))
  {
    if !(s == [] || s[0].createdAt <= p.createdAt) {
      var rest := InsertNewest(p, s[1..]);
      assert NewestFirst(s[1..]) by {
        forall i, j | 0 <= i < j < |s[1..]| ensures s[1..][i].createdAt >= s[1..][j].createdAt {
          assert s[1..][i] == s[i + 1] && s[1..][j] == s[j + 1];
        }
      }
      InsertNewestSorted(p, s[1..]);
      assert forall k :: 0 <= k < |s[1..]| ==> s[1..][k].createdAt <= s[0].createdAt by {
        forall k | 0 <= k < |s[1..]| ensures s[1..][k].createdAt <= s[0].createdAt {
          assert s[1..][k] == s[k + 1];
        }
      }
      InsertNewestBound(p, s[1..], s[0].createdAt);
      var r := [s[0]] + rest;
      forall i, j | 0 <= i < j < |r| ensures r[i].createdAt >= r[j].createdAt {
        assert r[j] == rest[j - 1];
        if i > 0 {
          assert r[i] == rest[i - 1];
        }
      }
    }
  }

  lemma {:induction false} InsertNewestStable(p: Project, s: seq<Project>, t: int)
    ensures CreatedAt(InsertNewest(p, s), t) == (if p.createdAt == t then [p] else []) + CreatedAt(s, t)
  {
    var r := InsertNewest(p, s);
    if s == [] || s[0].createdAt <= p.createdAt {
      assert r == [p] + s && r[1..] == s;
    } else {
      var rest := InsertNewest(p, s[1..]);
      assert r == [s[0]] + rest && r[0] == s[0] && r[1..] == rest;
      InsertNewestStable(p, s[1..], t);
      assert CreatedAt(r, t) == (if s[0].createdAt == t then [s[0]] else []) + CreatedAt(rest, t);
      assert CreatedAt(s, t) == (if s[0].createdAt == t then [s[0]] else []) + CreatedAt(s[1..], t);
      if p.createdAt == t {
        assert s[0].createdAt != t;
        assert CreatedAt(r, t) == [p] + CreatedAt(s[1..], t);
      } else {
        assert CreatedAt(rest, t) == CreatedAt(s[1..], t);
      }
    }
  }

  /**
   * `projects.sort((a, b) => b.createdAt - a.createdAt)`: a stable sort, so
   * the result is newest first, a permutation of the input, and records with
   * the same creation time keep their stored order.
   */
  function SortNewestFirst(s: seq<Project>): (r: seq<Project>)
    ensures NewestFirst(r)
    ensures multiset(r) == multiset(s)
    ensures forall t :: CreatedAt(r, t) == CreatedAt(s, t)
  {
    if s == [] then []
    else
      var rest := SortNewestFirst(s[1..]);
      InsertNewestSorted(s[0], rest);
      InsertNewestMultiset(s[0], rest);
      assert s == [s[0]] + s[1..];
      assert forall t :: CreatedAt(InsertNewest(s[0], rest), t) == CreatedAt(s, t) by {
        forall t ensures CreatedAt(InsertNewest(s[0], rest), t) == CreatedAt(s, t) {
          InsertNewestStable(s[0], rest, t);
        }
      }
      InsertNewest(s[0], rest)
  }

  // ---------------------------------------------------------------------
  // Searching by id (`find`, `findIndex`)
  // ---------------------------------------------------------------------

  /** `s.findIndex(p => p.id === id)`: the first index with that id, or -1. */
  function FindIndex(s: seq<Project>, id: string): (k: int)
    ensures -1 <= k < |s|
    ensures k >= 0 ==> s[k].id == id && forall j :: 0 <= j < k ==> s[j].id != id
    ensures k == -1 <==> forall j :: 0 <= j < |s| ==> s[j].id != id
  {
    if s == [] then -1
    else if s[0].id == id then 0
    else
      var k := FindIndex(s[1..], id);
      assert forall j :: 0 < j < |s| ==> s[j] == s[1..][j - 1];
      if k == -1 then -1 else k + 1
  }

  /** `s.find(p => p.id === id) || null`. */
  function FindById(s: seq<Project>, id: string): (r: Option<Project>)
    ensures r.Some? <==> exists j :: 0 <= j < |s| && s[j].id == id
    ensures r.Some? ==> r.value.id == id && r.value in s
    ensures r.Some? ==> FindIndex(s, id) >= 0 && r.value == s[FindIndex(s, id)]
  {
    var k := FindIndex(s, id);
    if k == -1 then None else Some(s[k])
  }

  lemma FindByIdCons(a: Project, rest: seq<Project>, id: string)
    ensures FindById([a] + rest, id) == if a.id == id then Some(a) else FindById(rest, id)
  {
    var s := [a] + rest;
    assert s[0] == a && s[1..] == rest;
    if a.id != id {
      var k := FindIndex(rest, id);
      assert FindIndex(s, id) == if k == -1 then -1 else k + 1;
      if k != -1 {
        assert s[k + 1] == rest[k];
      }
    }
  }

  /**
   * `getProject(id)`: the search runs over the newest-first list, so when
   * several records share the id the newest of them is found, and among
   * equally new ones the first in stored order (the sort is stable).
   */
  function Lookup(s: seq<Project>, id: string): (r: Option<Project>)
    ensures r.Some? <==> exists j :: 0 <= j < |s| && s[j].id == id
    ensures r.Some? ==> r.value.id == id && r.value in s
    ensures r.Some? ==> forall q :: q in s && q.id == id ==> q.createdAt <= r.value.createdAt
    ensures r.Some? ==> exists k :: 0 <= k < |s| && s[k] == r.value
                          && forall j :: 0 <= j < k && s[j].id == id ==> s[j].createdAt < r.value.createdAt
  {
    var sorted := SortNewestFirst(s);
    SameElements(s, sorted);
    var r := FindById(sorted, id);
    if r.Some? then
      NewestMatch(sorted, id);
      StoredFirstAmongNewest(s, id);
      r
    else
      assert forall j :: 0 <= j < |s| ==> s[j].id != id by {
        forall j | 0 <= j < |s| ensures s[j].id != id {
          assert s[j] in sorted;
        }
      }
      r
  }

  /**
   * The first record of `x` with `id` created at `t` is the first record with
   * `id` among those of `x` created at `t`.
   */
  lemma {:induction false} FirstInBucket(x: seq<Project>, t: int, id: string, k: nat)
    requires k < |x| && x[k].id == id && x[k].createdAt == t
    requires forall j :: 0 <= j < k ==> !(x[j].id == id && x[j].createdAt == t)
    ensures FindById(CreatedAt(x, t), id) == Some(x[k])
    decreases k
  {
    var rest := CreatedAt(x[1..], t);
    assert CreatedAt(x, t) == (if x[0].createdAt == t then [x[0]] else []) + rest;
    if k == 0 {
      FindByIdCons(x[0], rest, id);
    } else {
      assert forall j :: 0 <= j < k - 1 ==> x[1..][j] == x[j + 1];
      FirstInBucket(x[1..], t, id, k - 1);
      if x[0].createdAt == t {
        FindByIdCons(x[0], rest, id);
      } else {
        assert CreatedAt(x, t) == rest;
      }
    }
  }

  /** Below the index of any record with `id` created at `t` is the first such index. */
  lemma {:induction false} FirstMatchIndex(s: seq<Project>, id: string, t: int, i: nat) returns (k: nat)
    requires i < |s| && s[i].id == id && s[i].createdAt == t
    ensures k <= i && s[k].id == id && s[k].createdAt == t
    ensures forall j :: 0 <= j < k ==> !(s[j].id == id && s[j].createdAt == t)
    decreases i
  {
    if j :| 0 <= j < i && s[j].id == id && s[j].createdAt == t {
      k := FirstMatchIndex(s, id, t, j);
    } else {
      k := i;
    }
  }

  /**
   * The record found in the newest-first list is, among the stored records
   * with that id, the first one that no other is newer than: every earlier
   * stored record with the id is strictly older.
   */
  lemma StoredFirstAmongNewest(s: seq<Project>, id: string)
    requires FindById(SortNewestFirst(s), id).Some?
    ensures exists k :: 0 <= k < |s| && s[k] == FindById(SortNewestFirst(s), id).value
              && forall j :: 0 <= j < k && s[j].id == id ==>
                   s[j].createdAt < FindById(SortNewestFirst(s), id).value.createdAt
  {
    var sorted := SortNewestFirst(s);
    var m := FindIndex(sorted, id);
    var v := sorted[m];
    var t := v.createdAt;
    assert FindById(sorted, id) == Some(v);
    FirstInBucket(sorted, t, id, m);
    assert v in multiset(s) by {
      assert v in multiset(sorted);
    }
    var i :| 0 <= i < |s| && s[i] == v;
    var k := FirstMatchIndex(s, id, t, i);
    FirstInBucket(s, t, id, k);
    assert CreatedAt(sorted, t) == CreatedAt(s, t);
    assert s[k] == v;
    NewestMatch(sorted, id);
    EarlierAreOlder(s, sorted, id, t, k);
  }

  lemma EarlierAreOlder(s: seq<Project>, sorted: seq<Project>, id: string, t: int, k: nat)
    requires k <= |s|
    requires multiset(s) == multiset(sorted)
    requires forall q :: q in sorted && q.id == id ==> q.createdAt <= t
    requires forall j :: 0 <= j < k ==> !(s[j].id == id && s[j].createdAt == t)
    ensures forall j :: 0 <= j < k && s[j].id == id ==> s[j].createdAt < t
  {
    forall j | 0 <= j < k && s[j].id == id ensures s[j].createdAt < t {
      assert s[j] in multiset(s);
      assert s[j] in sorted;
    }
  }

  lemma SameElements(s: seq<Project>, t: seq<Project>)
    requires multiset(s) == multiset(t)
    ensures forall q :: q in s <==> q in t
  {
    forall q ensures q in s <==> q in t {
      assert q in s <==> q in multiset(s);
      assert q in t <==> q in multiset(t);
    }
  }

  /** In a newest-first list the first record with an id is the newest with it. */
  lemma NewestMatch(s: seq<Project>, id: string)
    requires NewestFirst(s) && FindIndex(s, id) >= 0
    ensures forall q :: q in s && q.id == id ==> q.createdAt <= s[FindIndex(s, id)].createdAt
  {
    var k := FindIndex(s, id);
    forall q | q in s && q.id == id ensures q.createdAt <= s[k].createdAt {
      var j :| 0 <= j < |s| && s[j] == q;
      assert j >= k;
      if j > k {
        assert s[k].createdAt >= s[j].createdAt;
      }
    }
  }

  // ---------------------------------------------------------------------
  // Building and merging records
  // ---------------------------------------------------------------------

  /**
   * `generateId()`: "project-", the clock reading in decimal, "-", and up to
   * nine characters of the random text from its third character on
   * (`Math.random().toString(36).substr(2, 9)`).
   */
  function GenerateId(clock: nat, randomText: string): (r: string)
    ensures Text.StartsWith(r, "project-")
    ensures var digits := Text.NatToString(clock);
            |r| > 8 + |digits| && r[8..8 + |digits|] == digits && r[8 + |digits|] == '-'
    ensures var digits := Text.NatToString(clock);
            |r| > 8 + |digits| && r[9 + |digits|..] == Text.Substr(randomText, 2, 9)
  {
    "project-" + Text.NatToString(clock) + "-" + Text.Substr(randomText, 2, 9)
  }

  /** The caller-supplied fields of a record. */
  function InputOf(p: Project): ProjectInput {
    ProjectInput(p.title, p.description, p.longDescription, p.technologies, p.category,
                 p.image, p.liveUrl, p.githubUrl, p.featured, p.position, p.color)
  }

  /** `{ ...project, id, createdAt }`. */
  function NewProject(input: ProjectInput, id: string, createdAt: int): (r: Project)
    ensures InputOf(r) == input && r.id == id && r.createdAt == createdAt
  {
    Project(id, input.title, input.description, input.longDescription, input.technologies,
            input.category, input.image, input.liveUrl, input.githubUrl, input.featured,
            input.position, input.color, createdAt)
  }

  /** `r` has the value of every key that `u` supplies. */
  predicate TakesSupplied(r: Project, u: ProjectPatch) {
    (u.id.Some? ==> r.id == u.id.value)
    && (u.title.Some? ==> r.title == u.title.value)
    && (u.description.Some? ==> r.description == u.description.value)
    && (u.longDescription.Some? ==> r.longDescription == u.longDescription.value)
    && (u.technologies.Some? ==> r.technologies == u.technologies.value)
    && (u.category.Some? ==> r.category == u.category.value)
    && (u.image.Some? ==> r.image == u.image.value)
    && (u.liveUrl.Some? ==> r.liveUrl == u.liveUrl)
    && (u.githubUrl.Some? ==> r.githubUrl == u.githubUrl)
    && (u.featured.Some? ==> r.featured == u.featured.value)
    && (u.position.Some? ==> r.position == u.position)
    && (u.color.Some? ==> r.color == u.color.value)
    && (u.createdAt.Some? ==> r.createdAt == u.createdAt.value)
  }

  /** `r` has the value of `p` for every key that `u` leaves out. */
  predicate KeepsUnsupplied(r: Project, p: Project, u: ProjectPatch) {
    (u.id.None? ==> r.id == p.id)
    && (u.title.None? ==> r.title == p.title)
    && (u.description.None? ==> r.description == p.description)
    && (u.longDescription.None? ==> r.longDescription == p.longDescription)
    && (u.technologies.None? ==> r.technologies == p.technologies)
    && (u.category.None? ==> r.category == p.category)
    && (u.image.None? ==> r.image == p.image)
    && (u.liveUrl.None? ==> r.liveUrl == p.liveUrl)
    && (u.githubUrl.None? ==> r.githubUrl == p.githubUrl)
    && (u.featured.None? ==> r.featured == p.featured)
    && (u.position.None? ==> r.position == p.position)
    && (u.color.None? ==> r.color == p.color)
    && (u.createdAt.None? ==> r.createdAt == p.createdAt)
  }

  /** `{ ...old, ...updates }`: every key present in `updates` wins, every other key keeps its old value. */
  function Merge(p: Project, u: ProjectPatch): (r: Project)
    ensures TakesSupplied(r, u)
    ensures KeepsUnsupplied(r, p, u)
  {
    Project(u.id.GetOr(p.id), u.title.GetOr(p.title), u.description.GetOr(p.description),
            u.longDescription.GetOr(p.longDescription), u.technologies.GetOr(p.technologies),
            u.category.GetOr(p.category), u.image.GetOr(p.image),
            if u.liveUrl.Some? then u.liveUrl else p.liveUrl,
            if u.githubUrl.Some? then u.githubUrl else p.githubUrl,
            u.featured.GetOr(p.featured),
            if u.position.Some? then u.position else p.position,
            u.color.GetOr(p.color), u.createdAt.GetOr(p.createdAt))
  }

  const NoUpdates := ProjectPatch(None, None, None, None, None, None, None, None, None, None, None, None, None)

  /** The patch that supplies every key of `q` that `q` has. */
  function PatchOf(q: Project): ProjectPatch {
    ProjectPatch(Some(q.id), Some(q.title), Some(q.description), Some(q.longDescription),
                 Some(q.technologies), Some(q.category), Some(q.image), q.liveUrl, q.githubUrl,
                 Some(q.featured), q.position, Some(q.color), Some(q.createdAt))
  }

  /** The two key-wise rules leave exactly one record: the merge. */
  lemma MergeUnique(p: Project, u: ProjectPatch, q: Project)
    requires TakesSupplied(q, u) && KeepsUnsupplied(q, p, u)
    ensures q == Merge(p, u)
  {
  }

  /**
   * Merging keeps what the patch leaves out and takes what it supplies: an
   * empty patch changes nothing, a full patch yields the patch's record,
   * applying the same patch twice is applying it once, and a patch without
   * `id` or `createdAt` keeps both.
   */
  lemma MergeLaws(p: Project, q: Project, u: ProjectPatch)
    ensures Merge(p, NoUpdates) == p
    ensures q.liveUrl.Some? && q.githubUrl.Some? && q.position.Some? ==> Merge(p, PatchOf(q)) == q
    ensures Merge(Merge(p, u), u) == Merge(p, u)
    ensures u.id.None? ==> Merge(p, u).id == p.id
    ensures u.createdAt.None? ==> Merge(p, u).createdAt == p.createdAt
  {
  }

  /** The table after `deleteProject(id)`. */
  function AfterDelete(s: seq<Project>, id: string): (r: seq<Project>)
    ensures FindIndex(s, id) == -1 ==> r == s
    ensures FindIndex(s, id) >= 0 ==> |r| == |s| - 1
    ensures var k := FindIndex(s, id);
            k >= 0 ==> ((forall j :: 0 <= j < k ==> r[j] == s[j])
                        && (forall j :: k <= j < |r| ==> r[j] == s[j + 1]))
  {
    var k := FindIndex(s, id);
    if k == -1 then s else s[..k] + s[k + 1..]
  }

  /** The table after `updateProject(id, u)`. */
  function AfterUpdate(s: seq<Project>, id: string, u: ProjectPatch): (r: seq<Project>)
    ensures |r| == |s|
    ensures FindIndex(s, id) == -1 ==> r == s
    ensures var k := FindIndex(s, id);
            forall j :: 0 <= j < |s| ==> r[j] == if j == k then Merge(s[j], u) else s[j]
  {
    var k := FindIndex(s, id);
    if k == -1 then s else s[k := Merge(s[k], u)]
  }

  /**
   * Create, then get by the new id: when no stored record has that id, the
   * lookup finds exactly the created record.
   */
  lemma CreateThenLookup(s: seq<Project>, p: Project)
    requires forall j :: 0 <= j < |s| ==> s[j].id != p.id
    ensures Lookup(s + [p], p.id) == Some(p)
  {
    assert (s + [p])[|s|].id == p.id;
  }

  /**
   * Create, then delete the same id: when the id was fresh the table is back
   * to what it was, and a lookup finds nothing.
   */
  lemma CreateThenDelete(s: seq<Project>, p: Project)
    requires forall j :: 0 <= j < |s| ==> s[j].id != p.id
    ensures AfterDelete(s + [p], p.id) == s
    ensures Lookup(AfterDelete(s + [p], p.id), p.id) == None
  {
    var t := s + [p];
    assert t[|s|].id == p.id;
    assert forall j :: 0 <= j < |s| ==> t[j].id != p.id;
    assert FindIndex(t, p.id) == |s|;
  }

  // ---------------------------------------------------------------------
  // The document
  // ---------------------------------------------------------------------

  /**
   * The portfolio document. Only the project table is ever changed; the
   * `about` and `settings` parts are carried along untouched.
   */
  class PortfolioDocument {
    var projects: seq<Project>
    var about: About
    var settings: Settings

    constructor (projects: seq<Project>, about: About, settings: Settings)
      ensures this.projects == projects && this.about == about && this.settings == settings
    {
      this.projects := projects;
      this.about := about;
      this.settings := settings;
    }

    /** `getProjects()`: every record, newest first; the stored table is not rewritten. */
    method GetProjects() returns (r: seq<Project>)
      ensures NewestFirst(r)
      ensures multiset(r) == multiset(projects)
      ensures forall t :: CreatedAt(r, t) == CreatedAt(projects, t)
    {
      r := SortNewestFirst(projects);
    }

    /** `getProject(id)`: a record with that id, the newest if there are several, or none. */
    method GetProject(id: string) returns (r: Option<Project>)
      ensures r == Lookup(projects, id)
      ensures r.None? <==> forall j :: 0 <= j < |projects| ==> projects[j].id != id
      ensures r.Some? ==> r.value.id == id && r.value in projects
      ensures r.Some? ==> forall q :: q in projects && q.id == id ==> q.createdAt <= r.value.createdAt
      ensures r.Some? ==> exists k :: 0 <= k < |projects| && projects[k] == r.value
                            && forall j :: 0 <= j < k && projects[j].id == id ==> projects[j].createdAt < r.value.createdAt
    {
      r := Lookup(projects, id);
    }

    /**
     * `createProject(input)`: appends the input with a generated id and the
     * given creation time, and returns the new record.
     */
    method CreateProject(input: ProjectInput, clock: nat, randomText: string, now: int)
      returns (p: Project)
      modifies this
      ensures InputOf(p) == input && p.id == GenerateId(clock, randomText) && p.createdAt == now
      ensures Text.StartsWith(p.id, "project-")
      ensures projects == old(projects) + [p]
      ensures about == old(about) && settings == old(settings)
    {
      p := NewProject(input, GenerateId(clock, randomText), now);
      projects := projects + [p];
    }

    /**
     * `updateProject(id, updates)`: merges `updates` into the first record
     * with that id and returns it; without such a record returns none and
     * changes nothing.
     */
    method UpdateProject(id: string, updates: ProjectPatch) returns (r: Option<Project>)
      modifies this
      ensures var k := FindIndex(old(projects), id);
              if k == -1 then r == None && projects == old(projects)
              else r == Some(Merge(old(projects)[k], updates)) && projects == old(projects)[k := r.value]
      ensures projects == AfterUpdate(old(projects), id, updates)
      ensures about == old(about) && settings == old(settings)
    {
      var k := FindIndex(projects, id);
      if k == -1 {
        return None;
      }
      projects := projects[k := Merge(projects[k], updates)];
      r := Some(projects[k]);
    }

    /**
     * `deleteProject(id)`: removes the first record with that id and answers
     * true; without such a record answers false and changes nothing.
     */
    method DeleteProject(id: string) returns (deleted: bool)
      modifies this
      ensures deleted <==> exists j :: 0 <= j < |old(projects)| && old(projects)[j].id == id
      ensures var k := FindIndex(old(projects), id);
              if k == -1 then projects == old(projects)
              else projects == old(projects)[..k] + old(projects)[k + 1..]
      ensures projects == AfterDelete(old(projects), id)
      ensures about == old(about) && settings == old(settings)
    {
      var k := FindIndex(projects, id);
      if k == -1 {
        return false;
      }
      projects := projects[..k] + projects[k + 1..];
      deleted := true;
    }
  }
}
