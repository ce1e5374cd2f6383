/**
 * The project grid (src/components/sections/Projects.tsx): the status filter over its
 * table, a three-technology preview, the capitalised status label, and the hovered
 * project whose icon animates.
 */
module Projects {
  import opened Wrappers
  import opened StatusFilter

  /** The grid's table: id, status and technologies of each project, in order. */
  const PROJECTS: seq<Project> := [
    Project("ecommerce-platform", "completed", ["React", "Node.js", "MongoDB", "Stripe", "Socket.io", "Tailwind CSS"]),
    Project("task-manager", "completed", ["Next.js", "PostgreSQL", "Prisma", "Socket.io", "TypeScript"])
  ]

  /** The statuses a project may have, and the filter button values: "all", then each status. */
  const STATUSES: seq<string> := ["completed", "in-progress", "planned"]
  const FILTER_VALUES: seq<string> := [ALL] + STATUSES

  /** Technologies previewed on a card; no overflow badge follows them. */
  const PREVIEW_LIMIT: nat := 3

  /**
   * The filter buttons are "all" followed by the three statuses. Whenever every project
   * has one of those statuses, as the project type demands, the three status buttons
   * together show each project exactly once.
   */
  lemma StatusButtonsPartition(projects: seq<Project>)
    requires forall p :: p in projects ==> p.status in STATUSES
    ensures FILTER_VALUES[0] == ALL
    ensures |Filter(projects, FILTER_VALUES[1])| + |Filter(projects, FILTER_VALUES[2])| + |Filter(projects, FILTER_VALUES[3])| == |projects|
  {
    var s1, s2, s3 := STATUSES[0], STATUSES[1], STATUSES[2];
    assert FILTER_VALUES[1] == s1 && FILTER_VALUES[2] == s2 && FILTER_VALUES[3] == s3;
    assert STATUSES == [s1, s2, s3];
    assert s1 != s2 && s2 != s3 && s1 != s3 by {
      assert s1[0] != s2[0] && s2[0] != s3[0] && s1[0] != s3[0];
    }
    assert s1 != ALL && s2 != ALL && s3 != ALL by {
      assert s1[0] != ALL[0] && s2[0] != ALL[0] && s3[0] != ALL[0];
    }
    FiltersPartition(projects, s1, s2, s3);
  }

  /** The grid's own table satisfies the project type, so its status buttons split it. */
  lemma TableStatusButtons()
    ensures forall p :: p in PROJECTS ==> p.status in STATUSES
    ensures |Filter(PROJECTS, FILTER_VALUES[1])| + |Filter(PROJECTS, FILTER_VALUES[2])| + |Filter(PROJECTS, FILTER_VALUES[3])| == |PROJECTS|
  {
    StatusButtonsPartition(PROJECTS);
  }

  /** The first three technologies. */
  function PreviewTechnologies(technologies: seq<string>): (r: seq<string>)
    ensures |r| <= PREVIEW_LIMIT && r <= technologies
    ensures |technologies| <= PREVIEW_LIMIT ==> r == technologies
  {
    Preview(technologies, PREVIEW_LIMIT)
  }

  /** `toUpperCase` on one character, for the ASCII letters status values use. */
  function UpperChar(c: char): (u: char)
    ensures 'a' <= c <= 'z' ==> 'A' <= u <= 'Z' && u as int == c as int - 32
    ensures !('a' <= c <= 'z') ==> u == c
  {
    if 'a' <= c <= 'z' then (c as int - 32) as char else c
  }

  /** `s.charAt(0).toUpperCase() + s.slice(1)`: the first character raised, the rest kept. */
  function Capitalize(s: string): (r: string)
    ensures |r| == |s|
    ensures |s| > 0 ==> r[0] == UpperChar(s[0]) && r[1..] == s[1..]
    ensures |s| == 0 ==> r == ""
  {
    if |s| == 0 then "" else [UpperChar(s[0])] + s[1..]
  }

  /** The labels the three statuses get: only the first letter changes. */
  lemma StatusLabels()
    ensures Capitalize("completed") == "Completed"
    ensures Capitalize("in-progress") == "In-progress"
    ensures Capitalize("planned") == "Planned"
  {
    assert "completed"[1..] == "ompleted";
    assert "in-progress"[1..] == "n-progress";
    assert "planned"[1..] == "lanned";
  }

  /** Capitalising twice changes nothing more. */
  lemma CapitalizeIdempotent(s: string)
    ensures Capitalize(Capitalize(s)) == Capitalize(s)
  {
  }

  /** The grid's filter and hover state. */
  class ProjectGrid {
    var filter: string
    var selectedProject: Option<string>

    constructor ()
      ensures filter == ALL && selectedProject == None
    {
      filter := ALL;
      selectedProject := None;
    }

    /** The cards rendered: exactly the table entries the filter keeps, in table order. */
    function Visible(): (r: seq<Project>)
      reads this
      ensures forall p :: p in r <==> p in PROJECTS && Keeps(filter, p)
      ensures Subsequence(r, PROJECTS)
    {
      Filter(PROJECTS, filter)
    }

    /** A card's icon animates exactly while that card is hovered. */
    predicate Animated(id: string)
      reads this
    {
      selectedProject == Some(id)
    }

    method SetFilter(value: string)
      modifies this
      ensures filter == value && selectedProject == old(selectedProject)
    {
      filter := value;
    }

    /** Entering card `id`: its icon, and only its icon, animates. */
    method MouseEnter(id: string)
      modifies this
      ensures selectedProject == Some(id) && filter == old(filter)
      ensures forall q :: Animated(q) <==> q == id
    {
      selectedProject := Some(id);
    }

    /** Leaving a card: no icon animates. */
    method MouseLeave()
      modifies this
      ensures selectedProject == None && filter == old(filter)
      ensures forall q :: !Animated(q)
    {
      selectedProject := None;
    }
  }
}
