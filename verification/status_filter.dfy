/**
 * The status filter both project sections apply to their project tables
 * (src/components/sections/EnhancedProjects.tsx and src/components/sections/Projects.tsx):
 * "all" keeps every project, any other value keeps the projects with that status,
 * in table order.
 */
module StatusFilter {

  /** What the filter and the badges read of a project. */
  datatype Project = Project(id: string, status: string, technologies: seq<string>)

  /** The filter value that selects everything. */
  const ALL: string := "all"

  predicate Keeps(filter: string, p: Project)
  {
    filter == ALL || p.status == filter
  }

  /** `a` can be obtained from `b` by deleting elements: order is kept. */
  predicate Subsequence<T(==)>(a: seq<T>, b: seq<T>)
    decreases |b|
  {
    if |a| == 0 then true
    else if |b| == 0 then false
    else (a[0] == b[0] && Subsequence(a[1..], b[1..])) || Subsequence(a, b[1..])
  }

  /** `r` is exactly the kept projects of the table, each as often as there, in table order. */
  ghost predicate Filtered(projects: seq<Project>, filter: string, r: seq<Project>)
  {
    && |r| <= |projects|
    && (forall p :: p in r ==> p in projects && Keeps(filter, p))
    && (forall p :: p in projects && Keeps(filter, p) ==> p in r)
    && (forall p :: multiset(r)[p] == if Keeps(filter, p) then multiset(projects)[p] else 0)
    && Subsequence(r, projects)
  }

  /**
   * `projects.filter(p => filter === "all" || p.status === filter)`: exactly the kept
   * projects, each as often as in the table, in table order.
   */
  function Filter(projects: seq<Project>, filter: string): (r: seq<Project>)
    ensures |r| <= |projects|
    ensures forall p :: p in r ==> p in projects && Keeps(filter, p)
    ensures forall p :: p in projects && Keeps(filter, p) ==> p in r
    ensures forall p :: multiset(r)[p] == if Keeps(filter, p) then multiset(projects)[p] else 0
    ensures Subsequence(r, projects)
  {
    if |projects| == 0 then []
    else
      var rest := Filter(projects[1..], filter);
      FilterStep(projects, filter, rest);
      if Keeps(filter, projects[0]) then [projects[0]] + rest else rest
  }

  /** Filtering the tail and then deciding on the first project filters the whole table. */
  lemma FilterStep(projects: seq<Project>, filter: string, rest: seq<Project>)
    requires |projects| > 0 && Filtered(projects[1..], filter, rest)
    ensures Filtered(projects, filter, if Keeps(filter, projects[0]) then [projects[0]] + rest else rest)
  {
    var r := if Keeps(filter, projects[0]) then [projects[0]] + rest else rest;
    StepCounts(projects, filter, rest);
    StepOrder(projects, filter, rest);
    forall p | p in r
      ensures p in projects && Keeps(filter, p)
    {
      assert multiset(r)[p] > 0;
    }
    forall p | p in projects && Keeps(filter, p)
      ensures p in r
    {
      assert multiset(projects)[p] > 0;
    }
  }

  /** The step keeps each project's multiplicity exactly when the filter keeps it. */
  lemma StepCounts(projects: seq<Project>, filter: string, rest: seq<Project>)
    requires |projects| > 0
    requires forall p :: multiset(rest)[p] == if Keeps(filter, p) then multiset(projects[1..])[p] else 0
    ensures var r := if Keeps(filter, projects[0]) then [projects[0]] + rest else rest;
      forall p :: multiset(r)[p] == if Keeps(filter, p) then multiset(projects)[p] else 0
  {
    assert projects == [projects[0]] + projects[1..];
    assert multiset(projects) == multiset{projects[0]} + multiset(projects[1..]);
    assert multiset([projects[0]] + rest) == multiset{projects[0]} + multiset(rest);
  }

  /** The step keeps table order. */
  lemma StepOrder(projects: seq<Project>, filter: string, rest: seq<Project>)
    requires |projects| > 0 && |rest| <= |projects| - 1 && Subsequence(rest, projects[1..])
    ensures var r := if Keeps(filter, projects[0]) then [projects[0]] + rest else rest;
      |r| <= |projects| && Subsequence(r, projects)
  {
    var r := [projects[0]] + rest;
    assert r[0] == projects[0] && r[1..] == rest;
  }

  /** Filtering by "all" returns the table unchanged. */
  lemma {:induction false} FilterAll(projects: seq<Project>)
    ensures Filter(projects, ALL) == projects
  {
    if |projects| > 0 {
      FilterAll(projects[1..]);
      assert [projects[0]] + projects[1..] == projects;
    }
  }

  /** How many table entries have the given status. */
  function CountStatus(projects: seq<Project>, status: string): nat
  {
    if |projects| == 0 then 0
    else (if projects[0].status == status then 1 else 0) + CountStatus(projects[1..], status)
  }

  /** A specific filter keeps as many projects as carry its status. */
  lemma {:induction false} FilterCount(projects: seq<Project>, status: string)
    requires status != ALL
    ensures |Filter(projects, status)| == CountStatus(projects, status)
  {
    if |projects| > 0 {
      FilterCount(projects[1..], status);
    }
  }

  /**
   * When every status is one of three distinct non-"all" values, the three specific
   * filters split the table: their sizes add up to the table's.
   */
  lemma {:induction false} FiltersPartition(projects: seq<Project>, s1: string, s2: string, s3: string)
    requires s1 != ALL && s2 != ALL && s3 != ALL
    requires s1 != s2 && s2 != s3 && s1 != s3
    requires forall p :: p in projects ==> p.status in {s1, s2, s3}
    ensures |Filter(projects, s1)| + |Filter(projects, s2)| + |Filter(projects, s3)| == |projects|
  {
    FilterCount(projects, s1);
    FilterCount(projects, s2);
    FilterCount(projects, s3);
    CountsPartition(projects, s1, s2, s3);
  }

  lemma {:induction false} CountsPartition(projects: seq<Project>, s1: string, s2: string, s3: string)
    requires s1 != s2 && s2 != s3 && s1 != s3
    requires forall p :: p in projects ==> p.status in {s1, s2, s3}
    ensures CountStatus(projects, s1) + CountStatus(projects, s2) + CountStatus(projects, s3) == |projects|
  {
    if |projects| > 0 {
      assert projects[0] in projects;
      forall p | p in projects[1..]
        ensures p.status in {s1, s2, s3}
      {
        assert p in projects;
      }
      CountsPartition(projects[1..], s1, s2, s3);
    }
  }

  /** When every status is one of two distinct non-"all" values, their two filters split the table. */
  lemma {:induction false} TwoFiltersPartition(projects: seq<Project>, s1: string, s2: string)
    requires s1 != ALL && s2 != ALL && s1 != s2
    requires forall p :: p in projects ==> p.status == s1 || p.status == s2
    ensures |Filter(projects, s1)| + |Filter(projects, s2)| == |projects|
  {
    if |projects| > 0 {
      assert projects[0] in projects;
      forall p | p in projects[1..]
        ensures p.status == s1 || p.status == s2
      {
        assert p in projects;
      }
      TwoFiltersPartition(projects[1..], s1, s2);
    }
  }

  /** `a.slice(0, limit)`: the first `limit` items, or all of them when there are fewer. */
  function Preview<T>(a: seq<T>, limit: nat): (r: seq<T>)
    ensures |r| == if |a| < limit then |a| else limit
    ensures r <= a
  {
    if |a| < limit then a else a[..limit]
  }
}
