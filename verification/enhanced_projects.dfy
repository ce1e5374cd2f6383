/**
 * The enhanced project gallery (src/components/sections/EnhancedProjects.tsx): the
 * status filter over its project table, at most four technology badges plus a "+k"
 * overflow badge, and the status badge's variant and label.
 */
module EnhancedProjects {
  import opened Wrappers
  import opened StatusFilter

  /** The gallery's table: id, status and technologies of each project, in order. */
  const PROJECTS: seq<Project> := [
    Project("ml-perception", "completed", ["Python", "PyTorch", "OpenCV", "ROS", "CUDA", "Docker"]),
    Project("ecommerce", "completed", ["React", "Node.js", "MongoDB", "Stripe", "Socket.io", "Tailwind"]),
    Project("robotics-vo", "completed", ["C++", "Python", "ROS", "GTSAM", "Eigen", "OpenCV"]),
    Project("ai-healthcare", "in-progress", ["Python", "TensorFlow", "FastAPI", "PostgreSQL", "Docker"]),
    Project("deepfake-detection", "completed", ["Python", "PyTorch", "Transformers", "MLflow", "AWS"]),
    Project("realtime-collab", "in-progress", ["Next.js", "WebSocket", "PostgreSQL", "Redis", "TypeScript"])
  ]

  /** The values of the filter buttons. */
  const FILTER_VALUES: seq<string> := ["all", "completed", "in-progress"]

  /** Technology badges shown before the overflow badge takes over. */
  const BADGE_LIMIT: nat := 4

  /** The projects the gallery renders for a filter value. */
  function Visible(filter: string): (r: seq<Project>)
    ensures filter == ALL ==> r == PROJECTS
    ensures forall p :: p in r <==> p in PROJECTS && Keeps(filter, p)
  {
    FilterAll(PROJECTS);
    Filter(PROJECTS, filter)
  }

  /**
   * The gallery's status buttons: when every project has one of their two statuses,
   * the two buttons together show each project exactly once.
   */
  lemma StatusButtonsPartition(projects: seq<Project>)
    requires forall p :: p in projects ==> p.status in FILTER_VALUES[1..]
    ensures FILTER_VALUES[0] == ALL
    ensures |Filter(projects, FILTER_VALUES[1])| + |Filter(projects, FILTER_VALUES[2])| == |projects|
  {
    var done, going := FILTER_VALUES[1], FILTER_VALUES[2];
    assert FILTER_VALUES[1..] == [done, going];
    assert done != going && done != ALL && going != ALL by {
      assert done[0] != going[0] && done[0] != ALL[0] && going[0] != ALL[0];
    }
    TwoFiltersPartition(projects, done, going);
  }

  /** Every project in the gallery's table has one of the two button statuses, so the buttons split it. */
  lemma TableStatusButtons()
    ensures forall p :: p in PROJECTS ==> p.status in FILTER_VALUES[1..]
    ensures |Visible(FILTER_VALUES[1])| + |Visible(FILTER_VALUES[2])| == |PROJECTS|
  {
    assert FILTER_VALUES[1..] == ["completed", "in-progress"];
    StatusButtonsPartition(PROJECTS);
  }

  /** The technology badges: the first four technologies. */
  function Badges(technologies: seq<string>): (r: seq<string>)
    ensures |r| <= BADGE_LIMIT && r <= technologies
    ensures |technologies| <= BADGE_LIMIT ==> r == technologies
  {
    Preview(technologies, BADGE_LIMIT)
  }

  /** The count on the "+k" badge: present exactly when more than four technologies exist. */
  function Overflow(technologies: seq<string>): (k: Option<nat>)
    ensures k.Some? <==> |technologies| > BADGE_LIMIT
    ensures k.Some? ==> k.value > 0
  {
    if |technologies| > BADGE_LIMIT then Some(|technologies| - BADGE_LIMIT) else None
  }

  /** Shown badges and the overflow count account for every technology. */
  lemma BadgesAccountForAll(technologies: seq<string>)
    ensures |Badges(technologies)| + (match Overflow(technologies) case Some(k) => k case None => 0) == |technologies|
  {
  }

  /** The decimal digit character for `d`. */
  function Digit(d: nat): (c: char)
    requires d < 10
    ensures '0' <= c <= '9'
  {
    (('0' as int) + d) as char
  }

  /** JavaScript's rendering of a non-negative integer: its decimal digits, no leading zeros. */
  function Decimal(n: nat): (s: string)
    ensures |s| > 0 && forall i :: 0 <= i < |s| ==> '0' <= s[i] <= '9'
    ensures |s| > 1 ==> s[0] != '0'
  {
    if n < 10 then [Digit(n)] else Decimal(n / 10) + [Digit(n % 10)]
  }

  /** Reads a string of decimal digits back as a number. */
  function ParseDecimal(s: string): nat
    requires forall i :: 0 <= i < |s| ==> '0' <= s[i] <= '9'
  {
    if |s| == 0 then 0
    else ParseDecimal(s[..|s| - 1]) * 10 + (s[|s| - 1] as int - '0' as int)
  }

  /** The digits `Decimal` writes denote the number written. */
  lemma {:induction false} DecimalRoundTrip(n: nat)
    ensures ParseDecimal(Decimal(n)) == n
  {
    if n >= 10 {
      var s := Decimal(n / 10);
      var t := s + [Digit(n % 10)];
      assert t[..|t| - 1] == s;
      DecimalRoundTrip(n / 10);
    }
  }

  /** The text of the overflow badge. */
  function OverflowLabel(k: nat): (s: string)
    ensures |s| > 1 && s[0] == '+'
    ensures forall i :: 1 <= i < |s| ==> '0' <= s[i] <= '9'
    ensures ParseDecimal(s[1..]) == k
  {
    DecimalRoundTrip(k);
    var s := "+" + Decimal(k);
    assert s[1..] == Decimal(k);
    s
  }

  datatype BadgeVariant = Gold | Blue

  /** The status badge: gold "Completed" for completed projects, blue "In Progress" for any other. */
  function StatusBadge(status: string): (b: (BadgeVariant, string))
    ensures b.0 == Gold <==> status == "completed"
    ensures b.1 == "✓ Completed" <==> b.0 == Gold
    ensures b.1 == "✓ Completed" || b.1 == "⚡ In Progress"
  {
    if status == "completed" then (Gold, "✓ Completed") else (Blue, "⚡ In Progress")
  }
}
