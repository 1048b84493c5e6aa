/** The portfolio's records (app.py:44-70) and the dataset the queries read.

    The service keeps one in-memory dataset that no request mutates; here it
    is an immutable value passed to every query, so every property proved
    about a query holds for any dataset, not only the one literal the
    service ships with. */
module Portfolio {

  datatype Option<T> = None | Some(value: T)

  /** A skill category: its label and its ordered skill names. */
  datatype Skill = Skill(category: string, skills: seq<string>)

  datatype Achievement = Achievement(title: string, organization: string, year: Option<int>)

  datatype Experience = Experience(position: string, company: string, duration: string, description: string)

  datatype Project = Project(
    name: string,
    category: string,
    description: string,
    githubUrl: string,
    technologies: seq<string>)

  /** The parts of the in-memory dataset the queries read, each in its
      stored order. */
  datatype Dataset = Dataset(
    skills: seq<Skill>,
    achievements: seq<Achievement>,
    experience: seq<Experience>,
    projects: seq<Project>)

  /** An HTTP error outcome: status code and the `detail` text. */
  datatype HttpError = HttpError(statusCode: int, detail: string)

  /** Either the response payload or the error the endpoint raises. */
  datatype Result<T> = Ok(value: T) | Err(error: HttpError)
}
