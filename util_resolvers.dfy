/** `faculty/_util/resolvers.py`: resolving the project an operation is
    about from nothing (the platform context), a project id, or a project
    name. The projects the user can access, which the account and project
    services would list, are a parameter, and so is the parsing the `UUID`
    constructor does. */
module UtilResolvers {
  import opened Wrappers
  import opened Context

  /** What a caller passes as `project`: nothing, a UUID, or a string. */
  datatype ProjectArg = NoProject | UuidArg(id: Uuid) | NameOrId(text: string)

  datatype Project = Project(id: Uuid, name: string)

  datatype ResolveError = ValueError(message: string) | TypeError(message: string)

  /** `_make_uuid`: a UUID as it is, a string through the `UUID` constructor,
      which raises `ValueError` on a malformed one. */
  function MakeUuid(value: ProjectArg, parseUuid: string -> Option<Uuid>): (r: Option<Uuid>)
    requires !value.NoProject?
    ensures value.UuidArg? ==> r == Some(value.id)
    ensures value.NameOrId? ==> r == parseUuid(value.text)
  {
    if value.UuidArg? then Some(value.id) else parseUuid(value.text)
  }

  /** `[project for project in projects if project.name == name]`. */
  function Matches(projects: seq<Project>, name: string): seq<Project>
    decreases |projects|
  {
    if |projects| == 0 then []
    else (if projects[0].name == name then [projects[0]] else []) + Matches(projects[1..], name)
  }

  /** No match exactly when no project has the name. */
  lemma {:induction false} MatchesEmpty(projects: seq<Project>, name: string)
    ensures |Matches(projects, name)| == 0 <==> forall i | 0 <= i < |projects| :: projects[i].name != name
    decreases |projects|
  {
    if |projects| > 0 {
      MatchesEmpty(projects[1..], name);
      assert forall i | 1 <= i < |projects| :: projects[i] == projects[1..][i - 1];
    }
  }

  /** A name only one project has matches that project alone. */
  lemma {:induction false} MatchesUnique(projects: seq<Project>, name: string, i: int)
    requires 0 <= i < |projects| && projects[i].name == name
    requires forall j | 0 <= j < |projects| && j != i :: projects[j].name != name
    ensures Matches(projects, name) == [projects[i]]
    decreases |projects|
  {
    assert forall j | 1 <= j < |projects| :: projects[j] == projects[1..][j - 1];
    if i == 0 {
      MatchesEmpty(projects[1..], name);
    } else {
      MatchesUnique(projects[1..], name, i - 1);
    }
  }

  /** A name two entries have matches at least twice. */
  lemma {:induction false} MatchesSeveral(projects: seq<Project>, name: string, i: int, j: int)
    requires 0 <= i < j < |projects| && projects[i].name == name && projects[j].name == name
    ensures |Matches(projects, name)| >= 2
    decreases |projects|
  {
    assert forall k | 1 <= k < |projects| :: projects[k] == projects[1..][k - 1];
    if i == 0 {
      assert projects[1..][j - 1].name == name;
      MatchesEmpty(projects[1..], name);
    } else {
      MatchesSeveral(projects[1..], name, i - 1, j - 1);
    }
  }

  /** The three shapes of the filtered list, by how many projects have the
      name. */
  lemma MatchesShape(projects: seq<Project>, name: string)
    ensures (forall i | 0 <= i < |projects| :: projects[i].name != name) <==> |Matches(projects, name)| == 0
    ensures forall i | 0 <= i < |projects| ::
      projects[i].name == name && (forall j | 0 <= j < |projects| && j != i :: projects[j].name != name)
      ==> Matches(projects, name) == [projects[i]]
    ensures (exists i, j | 0 <= i < j < |projects| :: projects[i].name == name && projects[j].name == name) ==>
      |Matches(projects, name)| >= 2
  {
    MatchesEmpty(projects, name);
    forall i | 0 <= i < |projects| && projects[i].name == name
               && (forall j | 0 <= j < |projects| && j != i :: projects[j].name != name)
      ensures Matches(projects, name) == [projects[i]]
    {
      MatchesUnique(projects, name, i);
    }
    forall i, j | 0 <= i < j < |projects| && projects[i].name == name && projects[j].name == name
      ensures |Matches(projects, name)| >= 2
    {
      MatchesSeveral(projects, name, i, j);
    }
  }

  function NoProjectsNamed(name: string): string {
    "No projects of name " + name + " found"
  }

  function SeveralProjectsNamed(name: string): string {
    "Multiple projects of name " + name + " found"
  }

  /** `_project_from_name`: the one accessible project with the name, and
      a `ValueError` when none or several have it. */
  function ProjectFromName(projects: seq<Project>, name: string): (r: Result<Project, ResolveError>)
    ensures (forall i | 0 <= i < |projects| :: projects[i].name != name) <==> r == Err(ValueError(NoProjectsNamed(name)))
    ensures forall i | 0 <= i < |projects| ::
      projects[i].name == name && (forall j | 0 <= j < |projects| && j != i :: projects[j].name != name)
      ==> r == Ok(projects[i])
    ensures (exists i, j | 0 <= i < j < |projects| :: projects[i].name == name && projects[j].name == name) ==>
      r == Err(ValueError(SeveralProjectsNamed(name)))
  {
    MatchesShape(projects, name);
    assert NoProjectsNamed(name)[0] == 'N' && SeveralProjectsNamed(name)[0] == 'M';
    var matches := Matches(projects, name);
    if |matches| == 1 then Ok(matches[0])
    else if |matches| == 0 then Err(ValueError(NoProjectsNamed(name)))
    else Err(ValueError(SeveralProjectsNamed(name)))
  }

  const NoContextProject := "Must pass a project name or ID when none can be determined from the runtime context"

  /** `resolve_project_id`: the context's project when none is given, a
      UUID or a string that parses as one as that id without any lookup,
      and any other string as the name of an accessible project. Results
      depend only on these inputs, so caching them per argument pair does
      not change them. */
  function ResolveProjectId(environ: map<string, string>, parseUuid: string -> Option<Uuid>, parseInt: string -> Option<int>,
                            projects: seq<Project>, project: ProjectArg): (r: Result<Uuid, ResolveError>)
    ensures project.NoProject? ==>
      r == (match GetContext(environ, parseUuid, parseInt).projectId
            case Some(id) => Ok(id)
            case None => Err(ValueError(NoContextProject)))
    ensures project.UuidArg? ==> r == Ok(project.id)
    ensures project.NameOrId? && parseUuid(project.text).Some? ==> r == Ok(parseUuid(project.text).value)
    ensures project.NameOrId? && parseUuid(project.text).None? ==>
      r == (match ProjectFromName(projects, project.text)
            case Ok(p) => Ok(p.id)
            case Err(e) => Err(e))
  {
    if project.NoProject? then
      match GetContext(environ, parseUuid, parseInt).projectId
      case Some(id) => Ok(id)
      case None => Err(ValueError(NoContextProject))
    else
      match MakeUuid(project, parseUuid)
      case Some(id) => Ok(id)
      case None =>
        match ProjectFromName(projects, project.text)
        case Ok(p) => Ok(p.id)
        case Err(e) => Err(e)
  }

  /** Outside the platform, a project must be named. */
  lemma NoContextNoDefault(parseUuid: string -> Option<Uuid>, parseInt: string -> Option<int>, projects: seq<Project>)
    ensures ResolveProjectId(map[], parseUuid, parseInt, projects, NoProject) == Err(ValueError(NoContextProject))
  {
    EmptyEnvironment(parseUuid, parseInt);
  }

  /** A name resolves to the id of the only project with that name. */
  lemma ResolveByName(environ: map<string, string>, parseUuid: string -> Option<Uuid>, parseInt: string -> Option<int>,
                      projects: seq<Project>, name: string, i: int)
    requires parseUuid(name).None?
    requires 0 <= i < |projects| && projects[i].name == name
    requires forall j | 0 <= j < |projects| && j != i :: projects[j].name != name
    ensures ResolveProjectId(environ, parseUuid, parseInt, projects, NameOrId(name)) == Ok(projects[i].id)
  {
  }
}
