/** The read queries of the portfolio API (app.py): the category filter,
    the statistics, the repository projection and the three-facet search.
    Each takes the dataset as a parameter. */
module Queries {
  import opened Seqs
  import opened Text
  import opened Portfolio

  // ---------------------------------------------------------------------
  // GET /api/projects/{category}  (app.py:290-299)
  // ---------------------------------------------------------------------

  /** The successful response: the matching projects and the category
      exactly as the caller wrote it. */
  datatype CategoryPage = CategoryPage(projects: seq<Project>, category: string)

  /** A project belongs to the requested category when both labels have the
      same normal form. */
  predicate InCategory(p: Project, category: string) {
    Normalize(p.category) == Normalize(category)
  }

  /** Projects whose category matches the request, in stored order, or a
      404 when there is none. */
  function ProjectsByCategory(d: Dataset, category: string): (r: Result<CategoryPage>)
    ensures r.Err? <==> forall p :: p in d.projects ==> !InCategory(p, category)
    ensures r.Err? ==> r.error == HttpError(404, "No projects found for category: " + category)
    ensures r.Ok? ==> r.value.category == category && r.value.projects != []
    ensures r.Ok? ==> forall p :: p in r.value.projects <==> p in d.projects && InCategory(p, category)
    ensures r.Ok? ==> IsSubseq(r.value.projects, d.projects)
    ensures r.Ok? ==> |r.value.projects| == Count(d.projects, p => InCategory(p, category))
  {
    var filtered := Filter(d.projects, p => InCategory(p, category));
    assert filtered != [] ==> filtered[0] in filtered;
    if filtered == [] then
      Err(HttpError(404, "No projects found for category: " + category))
    else
      Ok(CategoryPage(filtered, category))
  }

  /** Asking for a category in normal form, or lowercased, selects the same
      projects as asking with the label as written; only the echoed
      category differs. */
  lemma CategoryRequestNormalized(d: Dataset, category: string)
    ensures ProjectsByCategory(d, Normalize(category)).Ok? <==> ProjectsByCategory(d, category).Ok?
    ensures ProjectsByCategory(d, category).Ok? ==>
              ProjectsByCategory(d, Normalize(category)).value.projects == ProjectsByCategory(d, category).value.projects
    ensures ProjectsByCategory(d, Lower(category)).Ok? <==> ProjectsByCategory(d, category).Ok?
    ensures ProjectsByCategory(d, category).Ok? ==>
              ProjectsByCategory(d, Lower(category)).value.projects == ProjectsByCategory(d, category).value.projects
  {
    NormalizeIdempotent(category);
    NormalizeIgnoresCase(category);
    FilterCongruent(d.projects, p => InCategory(p, Normalize(category)), p => InCategory(p, category));
    FilterCongruent(d.projects, p => InCategory(p, Lower(category)), p => InCategory(p, category));
  }

  // ---------------------------------------------------------------------
  // GET /api/stats  (app.py:340-350)
  // ---------------------------------------------------------------------

  /** The value the service reports for years of education (app.py:348). */
  const YearsOfEducation: nat := 8

  datatype Stats = Stats(
    totalProjects: nat,
    projectCategories: nat,
    skillsCount: nat,
    achievementsCount: nat,
    yearsOfEducation: nat,
    currentPosition: Option<string>)

  /** The set of category labels, compared exactly (no normalisation). */
  function CategoryLabels(ps: seq<Project>): set<string> {
    set p | p in ps :: p.category
  }

  /** Total number of skills over all categories. */
  function SkillsCount(cats: seq<Skill>): nat {
    if cats == [] then 0 else |cats[0].skills| + SkillsCount(cats[1..])
  }

  /** Position `i` carries a label that no earlier project carries. */
  predicate FirstOfLabel(ps: seq<Project>, i: nat)
    requires i < |ps|
  {
    forall j :: 0 <= j < i ==> ps[j].category != ps[i].category
  }

  /** Number of positions before `n` that introduce a new label: an
      independent way to count distinct labels. */
  function NewLabels(ps: seq<Project>, n: nat): nat
    requires n <= |ps|
  {
    if n == 0 then 0
    else NewLabels(ps, n - 1) + (if FirstOfLabel(ps, n - 1) then 1 else 0)
  }

  /** The distinct labels among the first `n` projects are as many as the
      positions before `n` that introduce a new label. */
  lemma {:induction false} DistinctLabelsCounted(ps: seq<Project>, n: nat)
    requires n <= |ps|
    ensures |CategoryLabels(ps[..n])| == NewLabels(ps, n)
    ensures NewLabels(ps, n) <= n
    ensures n > 0 ==> NewLabels(ps, n) >= 1
  {
    if n > 0 {
      DistinctLabelsCounted(ps, n - 1);
      assert ps[..n] == ps[..n - 1] + [ps[n - 1]];
      LabelsAppend(ps[..n - 1], ps[n - 1]);
      LabelSeenBefore(ps, n - 1);
    }
  }

  /** Appending a project adds exactly its label. */
  lemma LabelsAppend(ps: seq<Project>, p: Project)
    ensures CategoryLabels(ps + [p]) == CategoryLabels(ps) + {p.category}
  {
    forall c | c in CategoryLabels(ps + [p])
      ensures c in CategoryLabels(ps) + {p.category}
    {
      var q :| q in ps + [p] && q.category == c;
      if q != p {
        assert q in ps;
      }
    }
  }

  /** The label at position `i` is new exactly when it is missing from the
      labels of the earlier projects. */
  lemma LabelSeenBefore(ps: seq<Project>, i: nat)
    requires i < |ps|
    ensures FirstOfLabel(ps, i) <==> ps[i].category !in CategoryLabels(ps[..i])
  {
    if ps[i].category in CategoryLabels(ps[..i]) {
      var q :| q in ps[..i] && q.category == ps[i].category;
      var j :| 0 <= j < i && ps[..i][j] == q;
      assert ps[j].category == ps[i].category;
    }
    if !FirstOfLabel(ps, i) {
      var j :| 0 <= j < i && ps[j].category == ps[i].category;
      assert ps[..i][j] in ps[..i];
    }
  }

  /** The aggregate counts reported by the stats endpoint. */
  function PortfolioStats(d: Dataset): (r: Stats)
    ensures r.totalProjects == |d.projects|
    ensures r.projectCategories == NewLabels(d.projects, |d.projects|)
    ensures r.projectCategories <= r.totalProjects
    ensures r.projectCategories == 0 <==> d.projects == []
    ensures r.skillsCount == SkillsCount(d.skills)
    ensures r.achievementsCount == |d.achievements|
    ensures r.yearsOfEducation == 8
    ensures r.currentPosition == None <==> d.experience == []
    ensures d.experience != [] ==> r.currentPosition == Some(d.experience[0].position)
  {
    DistinctLabelsCounted(d.projects, |d.projects|);
    assert d.projects[..|d.projects|] == d.projects;
    Stats(
      |d.projects|,
      |CategoryLabels(d.projects)|,
      SkillsCount(d.skills),
      |d.achievements|,
      YearsOfEducation,
      if d.experience != [] then Some(d.experience[0].position) else None)
  }

  /** Every label the stats count is a category the filter endpoint
      answers with a non-empty list. */
  lemma CountedLabelsAreFound(d: Dataset)
    ensures forall c :: c in CategoryLabels(d.projects) ==>
              ProjectsByCategory(d, c).Ok? && ProjectsByCategory(d, c).value.projects != []
  {
    forall c | c in CategoryLabels(d.projects)
      ensures ProjectsByCategory(d, c).Ok?
    {
      var p :| p in d.projects && p.category == c;
      assert InCategory(p, c);
    }
  }

  // ---------------------------------------------------------------------
  // GET /api/github-repos  (app.py:352-363)
  // ---------------------------------------------------------------------

  /** A project seen as a repository link: the category is dropped and
      `githubUrl` is published as `url`. */
  datatype RepoLink = RepoLink(name: string, url: string, description: string, technologies: seq<string>)

  /** Rebuilds the project a link was projected from, given the one field
      the projection drops. */
  function WithCategory(link: RepoLink, category: string): Project {
    Project(link.name, category, link.description, link.url, link.technologies)
  }

  /** One link per project, in project order. */
  method GithubRepos(d: Dataset) returns (repos: seq<RepoLink>)
    ensures |repos| == |d.projects|
    ensures forall i :: 0 <= i < |repos| ==>
              && repos[i].name == d.projects[i].name
              && repos[i].url == d.projects[i].githubUrl
              && repos[i].description == d.projects[i].description
              && repos[i].technologies == d.projects[i].technologies
    ensures forall i :: 0 <= i < |repos| ==> WithCategory(repos[i], d.projects[i].category) == d.projects[i]
  {
    repos := [];
    for i := 0 to |d.projects|
      invariant |repos| == i
      invariant forall k :: 0 <= k < i ==> WithCategory(repos[k], d.projects[k].category) == d.projects[k]
    {
      var project := d.projects[i];
      repos := repos + [RepoLink(project.name, project.githubUrl, project.description, project.technologies)];
    }
  }

  // ---------------------------------------------------------------------
  // GET /api/search?q=...  (app.py:365-401)
  // ---------------------------------------------------------------------

  /** A reported skill category. */
  datatype SkillHit = SkillHit(category: string, matchingSkills: seq<string>)

  datatype SearchResults = SearchResults(
    projects: seq<Project>,
    skills: seq<SkillHit>,
    achievements: seq<Achievement>)

  datatype SearchResponse = SearchResponse(query: string, results: SearchResults, totalMatches: nat)

  /** `query in text.lower()`; the query is lowercased once by the caller. */
  predicate Mentions(text: string, query: string) {
    Contains(Lower(text), query)
  }

  predicate ProjectMatches(p: Project, query: string) {
    || Mentions(p.name, query)
    || Mentions(p.description, query)
    || exists t :: t in p.technologies && Mentions(t, query)
  }

  predicate AchievementMatches(a: Achievement, query: string) {
    Mentions(a.title, query) || Mentions(a.organization, query)
  }

  /** A skill category is reported when its label or one of its skills
      mentions the query. */
  predicate CategoryHit(c: Skill, query: string) {
    Mentions(c.category, query) || exists s :: s in c.skills && Mentions(s, query)
  }

  function MatchingSkills(skills: seq<string>, query: string): seq<string> {
    Filter(skills, s => Mentions(s, query))
  }

  /** What is reported for one category: the matching skills, or, when no
      skill matches (so only the label did), every skill of the category. */
  function HitFor(c: Skill, query: string): (h: SkillHit)
    ensures h.category == c.category
    ensures forall s :: s in h.matchingSkills ==> s in c.skills
    ensures (exists s :: s in c.skills && Mentions(s, query)) ==>
              forall s :: s in h.matchingSkills <==> s in c.skills && Mentions(s, query)
    ensures (exists s :: s in c.skills && Mentions(s, query)) ==>
              && IsSubseq(h.matchingSkills, c.skills)
              && |h.matchingSkills| == Count(c.skills, s => Mentions(s, query))
    ensures (forall s :: s in c.skills ==> !Mentions(s, query)) ==> h.matchingSkills == c.skills
    ensures h.matchingSkills == [] <==> c.skills == []
  {
    var m := MatchingSkills(c.skills, query);
    assert m != [] ==> m[0] in m;
    SkillHit(c.category, if m != [] then m else c.skills)
  }

  /** When some skill matches, the reported list is the filtered skill list
      itself: the matching skills in stored order, duplicates included. */
  lemma HitForIsFilter(c: Skill, query: string)
    requires exists s :: s in c.skills && Mentions(s, query)
    ensures HitFor(c, query).matchingSkills == Filter(c.skills, s => Mentions(s, query))
  {
  }

  /** The categories the skill facet reports, tested as the service tests
      them: a non-empty list of matching skills, or a matching label. */
  function ReportedCategories(cats: seq<Skill>, query: string): (kept: seq<Skill>)
    ensures forall c :: c in kept <==> c in cats && CategoryHit(c, query)
    ensures IsSubseq(kept, cats)
    ensures |kept| == Count(cats, c => CategoryHit(c, query))
  {
    forall c | c in cats
      ensures (MatchingSkills(c.skills, query) != [] || Mentions(c.category, query)) == CategoryHit(c, query)
    {
      var m := MatchingSkills(c.skills, query);
      assert m != [] ==> m[0] in m;
    }
    FilterCongruent(cats, (c: Skill) => MatchingSkills(c.skills, query) != [] || Mentions(c.category, query),
                          c => CategoryHit(c, query));
    Filter(cats, (c: Skill) => MatchingSkills(c.skills, query) != [] || Mentions(c.category, query))
  }

  /** Case-insensitive search over projects, skill categories and
      achievements. */
  function Search(d: Dataset, q: string): (r: SearchResponse)
    ensures r.query == q
    ensures forall p :: p in r.results.projects <==> p in d.projects && ProjectMatches(p, Lower(q))
    ensures IsSubseq(r.results.projects, d.projects)
    ensures |r.results.projects| == Count(d.projects, p => ProjectMatches(p, Lower(q)))
    ensures forall c :: c in d.skills && CategoryHit(c, Lower(q)) ==> HitFor(c, Lower(q)) in r.results.skills
    ensures forall h :: h in r.results.skills ==>
              exists c :: c in d.skills && CategoryHit(c, Lower(q)) && h == HitFor(c, Lower(q))
    ensures r.results.skills == Map(c => HitFor(c, Lower(q)), ReportedCategories(d.skills, Lower(q)))
    ensures forall a :: a in r.results.achievements <==> a in d.achievements && AchievementMatches(a, Lower(q))
    ensures IsSubseq(r.results.achievements, d.achievements)
    ensures |r.results.achievements| == Count(d.achievements, a => AchievementMatches(a, Lower(q)))
    ensures r.totalMatches == |r.results.projects| + |r.results.skills| + |r.results.achievements|
    ensures r.totalMatches <= |d.projects| + |d.skills| + |d.achievements|
  {
    var query := Lower(q);
    var projects := Filter(d.projects, p => ProjectMatches(p, query));
    var kept := ReportedCategories(d.skills, query);
    var skills := Map(c => HitFor(c, query), kept);
    var achievements := Filter(d.achievements, a => AchievementMatches(a, query));
    assert forall c :: c in d.skills && CategoryHit(c, query) ==> HitFor(c, query) in skills by {
      forall c | c in d.skills && CategoryHit(c, query)
        ensures HitFor(c, query) in skills
      {
        var i :| 0 <= i < |kept| && kept[i] == c;
        assert skills[i] == HitFor(c, query);
      }
    }
    assert forall h :: h in skills ==> exists c :: c in d.skills && CategoryHit(c, query) && h == HitFor(c, query) by {
      forall h | h in skills
        ensures exists c :: c in d.skills && CategoryHit(c, query) && h == HitFor(c, query)
      {
        var i :| 0 <= i < |skills| && skills[i] == h;
        assert kept[i] in kept;
      }
    }
    SearchResponse(q, SearchResults(projects, skills, achievements), |projects| + |skills| + |achievements|)
  }

  /** The search ignores the case of the query. */
  lemma SearchIgnoresQueryCase(d: Dataset, q: string)
    ensures Search(d, Lower(q)).results == Search(d, q).results
    ensures Search(d, Lower(q)).totalMatches == Search(d, q).totalMatches
  {
    LowerProperties(q);
  }

  /** The empty query matches every project, every skill category (each
      reported with its whole skill list) and every achievement. */
  lemma EmptyQueryMatchesEverything(d: Dataset)
    ensures Search(d, "").results.projects == d.projects
    ensures |Search(d, "").results.skills| == |d.skills|
    ensures forall i :: 0 <= i < |d.skills| ==>
              Search(d, "").results.skills[i] == SkillHit(d.skills[i].category, d.skills[i].skills)
    ensures Search(d, "").results.achievements == d.achievements
    ensures Search(d, "").totalMatches == |d.projects| + |d.skills| + |d.achievements|
  {
    assert Lower("") == "";
    forall t: string
      ensures Mentions(t, "")
    {
      ContainsEmpty(Lower(t));
    }
    FilterKeepsAll(d.projects, p => ProjectMatches(p, ""));
    FilterKeepsAll(d.achievements, a => AchievementMatches(a, ""));
    FilterKeepsAll(d.skills, (c: Skill) => MatchingSkills(c.skills, "") != [] || Mentions(c.category, ""));
    forall c: Skill
      ensures HitFor(c, "") == SkillHit(c.category, c.skills)
    {
      FilterKeepsAll(c.skills, s => Mentions(s, ""));
    }
  }

  /** Total number of skills listed in a skill facet. */
  function ReportedSkills(hits: seq<SkillHit>): nat {
    if hits == [] then 0 else |hits[0].matchingSkills| + ReportedSkills(hits[1..])
  }

  /** The empty query agrees with the statistics: it reports every project,
      every achievement and every skill exactly once. */
  lemma EmptySearchAgreesWithStats(d: Dataset)
    ensures |Search(d, "").results.projects| == PortfolioStats(d).totalProjects
    ensures |Search(d, "").results.achievements| == PortfolioStats(d).achievementsCount
    ensures ReportedSkills(Search(d, "").results.skills) == PortfolioStats(d).skillsCount
  {
    EmptyQueryMatchesEverything(d);
    ReportedSkillsOfFullHits(Search(d, "").results.skills, d.skills);
  }

  lemma {:induction false} ReportedSkillsOfFullHits(hits: seq<SkillHit>, cats: seq<Skill>)
    requires |hits| == |cats|
    requires forall i :: 0 <= i < |cats| ==> hits[i].matchingSkills == cats[i].skills
    ensures ReportedSkills(hits) == SkillsCount(cats)
    decreases |cats|
  {
    if cats != [] {
      ReportedSkillsOfFullHits(hits[1..], cats[1..]);
    }
  }
}
