# Portfolio queries in Dafny

This project models the read queries of a personal-portfolio web service,
written in Python with FastAPI, in `app.py`. The service keeps one in-memory
dataset: skill categories, achievements, work experience and projects. It
answers four queries over that dataset that contain actual logic:

- **category filter** (`GET /api/projects/{category}`): the projects whose
  category label equals the requested one after both are normalised. A
  label is normalised by lowercasing it and deleting every space and every
  `&`. When nothing matches, the endpoint raises a 404 `HTTPException`
  whose detail names the category.
- **statistics** (`GET /api/stats`): the number of projects, of distinct
  category labels (compared exactly), of skills and of achievements, the
  constant 8 for years of education, and the first experience entry's
  position if there is one.
- **repository links** (`GET /api/github-repos`): each project seen as
  `{name, url, description, technologies}`.
- **search** (`GET /api/search?q=`): a case-insensitive substring search
  over three independent facets (projects, skill categories, achievements)
  plus a total count. One quirk is kept on purpose. When a category's label
  matches but none of its skills do, the whole skill list is reported as
  "matching".

The dataset is a parameter of every query, so each property holds for any
data. The shipped literal is reproduced in module `Sample` for a few
concrete checks.

Layout:

- `seqs.dfy` (`Seqs`): order-preserving filter and map, the subsequence
  relation, and the proof that "subsequence + only kept elements + as many
  as the kept positions" determines the filtered list.
- `text.dfy` (`Text`): ASCII lowercasing, deleting one character,
  label normalisation, and Python's `needle in hay`.
- `portfolio.dfy` (`Portfolio`): the records and the dataset.
- `queries.dfy` (`Queries`): the four queries and the lemmas about them.
- `sample.dfy` (`Sample`): the shipped dataset and concrete checks.

## Model

| member | source | states |
|---|---|---|
| `Seqs.Filter` | app.py:293-296 | A list comprehension keeps exactly the elements satisfying its condition. Its result is a subsequence of the input in the original order, and its length equals the number of positions that satisfy the condition. |
| `Seqs.FilterUnique` | app.py:293-296 | Any subsequence made only of kept elements, with as many elements as there are kept positions, is the filtered list. So the filter's guarantees pin its result down completely. |
| `Text.Without` | app.py:295 | `replace(c, "")` leaves no `c`. Its result is a subsequence of the input with as many characters as the input has non-`c` positions, so every other character is kept, in order, once per occurrence. A string without `c` is unchanged. |
| `Text.LowerProperties` | app.py:295 | A lowercased string has no uppercase letter. Lowercasing leaves such a string unchanged, so lowercasing twice equals lowercasing once. |
| `Text.Normalize` | app.py:295 | The normalised label has no space, no `&` and no uppercase letter. It is a subsequence of the lowercased label, as long as the number of its non-space, non-`&` positions: exactly those characters, in their original order, once per occurrence. |
| `Text.NormalizeIsFilter` | app.py:295 | The two-step `replace` chain equals a single pass over the lowercased label that keeps every character other than a space or `&`. |
| `Text.NormalizeFixpoints` | app.py:295 | A label equals its normalisation if and only if it has no space, no `&` and no uppercase letter. |
| `Text.NormalizeIdempotent` | app.py:295 | Normalising twice gives the same label as normalising once. |
| `Text.NormalizeIgnoresCase` | app.py:295 | Lowercasing a label first does not change its normalisation. |
| `Text.Contains` | app.py:378-380 | Python's `needle in hay` is true exactly when some window of `hay` equals `needle`. |
| `Queries.ProjectsByCategory` | app.py:290-299 | The result is a 404 error if and only if no project's normalised category equals the normalised request. The error detail is `No projects found for category: <category>`. On success, the list is non-empty and holds exactly the matching projects, in stored order, and the request is echoed back as written. |
| `Queries.CategoryRequestNormalized` | app.py:293-296 | Requesting the normalised form of a category, or its lowercased form, succeeds or fails exactly when the original request does, and on success selects the same projects. |
| `Queries.DistinctLabelsCounted` | app.py:345 | The size of the set of labels equals the number of positions whose label no earlier project carries. That number is at most the number of projects, and at least 1 when there is a project. |
| `Queries.PortfolioStats` | app.py:340-350 | `total_projects` is the number of projects. `project_categories` counts distinct exact labels: it is at most `total_projects` and zero only when there are no projects. `skills_count` is the sum of the category skill-list lengths. `achievements_count` is the number of achievements, and `years_of_education` is 8. `current_position` is the first experience's position, or absent when there is no experience. |
| `Queries.CountedLabelsAreFound` | app.py:293-299 | Every label that the statistics count is a category for which the filter endpoint returns a non-empty list. |
| `Queries.GithubRepos` | app.py:352-363 | There is one link per project, in project order. Link i carries project i's name, github_url (as `url`), description and technologies unchanged. Adding back project i's category rebuilds project i. |
| `Queries.HitFor` | app.py:385-390 | A reported category keeps its label. When some skill matches, `matching_skills` holds only matching skills, every matching skill, as a subsequence of the stored list and with as many entries as there are matching positions. When none matches, it is the category's full skill list. It is empty only when the category has no skills. |
| `Queries.HitForIsFilter` | app.py:385-389 | When some skill matches, `matching_skills` is the filtered skill list itself, in stored order and with duplicates kept. |
| `Queries.ReportedCategories` | app.py:384-386 | The service's test ("non-empty matching list, or label matches") keeps a category exactly when its label or one of its skills contains the query. The reported categories keep their stored order. |
| `Queries.Search` | app.py:365-401 | A project is reported if and only if the lowercased query occurs in its lowercased name, its description or one of its technologies. An achievement is reported if and only if the query occurs in its title or its organization. A skill category is reported (through `HitFor`) if and only if its label or one of its skills matches. Each facet keeps stored order, and the query is echoed back. `total_matches` is the sum of the three facet lengths and never exceeds the dataset's size. |
| `Queries.SearchIgnoresQueryCase` | app.py:374 | Searching for the lowercased query gives the same results and count as searching for the query as typed. |
| `Queries.EmptyQueryMatchesEverything` | app.py:374-395 | The empty query reports every project and every achievement, in stored order. It reports every skill category with its whole skill list. |
| `Queries.EmptySearchAgreesWithStats` | app.py:343-347 | The empty query reports as many projects and achievements as the statistics count. It reports exactly `skills_count` skills in total. |
| `Sample.SampleAwsSearch` | app.py:156-176 | In the shipped data, searching for "AWS" finds UrbanFinds, RoadBuddy and MedTrack. |
| `Sample.SampleStats` | app.py:343-349 | For the shipped data, the statistics are 12 projects, 4 distinct categories, 27 skills and 6 achievements. The current position is "AI & Machine Learning Intern". |
| `Sample.SampleLowercaseCategory` | app.py:205-211 | In the shipped data, the request "machine learning" finds the projects stored under "Machine Learning", Email Spam Detection among them. |

## Left out

- Lowercasing is ASCII-only (`A`-`Z` to `a`-`z`). Python's `str.lower` also maps non-ASCII letters, and can change a string's length. Every dataset label is ASCII, but a non-ASCII query or request may compare differently.
- Routing, HTML page routes, templating, static files, CORS and process startup (app.py:13-34, 243-272, 415-416) are framework plumbing with no logic.
- The plain getters (personal info, skills, projects, experience, education, achievements; app.py:275-314) return dataset fields unchanged.
- The contact endpoint and health check (app.py:316-338, 403-406) only echo input with a `datetime.now()` timestamp, which is nondeterministic.
- The `EmailStr` address validation belongs to the pydantic library, whose code is not part of this model.
- The 404 exception handler (app.py:408-413) is a framework hook. It catches every 404, including the one the category endpoint raises, and for `/api/` paths replaces the detail with `{"error": "API endpoint not found", "status_code": 404}`. The model stops at the error the endpoint raises: status 404 and its detail text. What the client finally receives is not modelled.
- Personal information, education records and the `cgpa` float carry no logic, so they are not in the dataset record.
- Achievement years are kept as an optional integer. Every shipped achievement leaves the year out.
