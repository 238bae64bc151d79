/** `faculty/resolvers.py`: the older project resolver. Its `_make_uuid`
    and `_project_from_name` are the same code as in
    `faculty/_util/resolvers.py` and are shared with `UtilResolvers`; its
    `resolve_project_id` differs in its message and in the name branch. */
module Resolvers {
  import opened Wrappers
  import opened Context
  import U = UtilResolvers

  const NoContextProject := "Must pass a project when none can be determined from the runtime context"

  /** What Python raises when `_project_from_name(session, name)` is called
      with the one argument `project`. */
  const MissingNameArgument := "_project_from_name() missing 1 required positional argument: 'name'"

  /** `resolve_project_id` as written: the name branch calls
      `_project_from_name(project)`, binding the name to `session` and
      leaving `name` unbound, so it always raises `TypeError`. */
  function ResolveProjectIdAsWritten(environ: map<string, string>, parseUuid: string -> Option<Uuid>,
                                     parseInt: string -> Option<int>, projects: seq<U.Project>,
                                     project: U.ProjectArg): (r: Result<Uuid, U.ResolveError>)
    ensures project.NoProject? ==>
      r == (match GetContext(environ, parseUuid, parseInt).projectId
            case Some(id) => Ok(id)
            case None => Err(U.ValueError(NoContextProject)))
    ensures project.UuidArg? ==> r == Ok(project.id)
    ensures project.NameOrId? ==>
      r == if parseUuid(project.text).Some? then Ok(parseUuid(project.text).value)
           else Err(U.TypeError(MissingNameArgument))
  {
    if project.NoProject? then
      match GetContext(environ, parseUuid, parseInt).projectId
      case Some(id) => Ok(id)
      case None => Err(U.ValueError(NoContextProject))
    else
      match U.MakeUuid(project, parseUuid)
      case Some(id) => Ok(id)
      case None => Err(U.TypeError(MissingNameArgument))
  }

  /** `resolve_project_id` as evidently intended: the name is looked up
      among the accessible projects, as the newer resolver does. */
  function ResolveProjectId(environ: map<string, string>, parseUuid: string -> Option<Uuid>,
                            parseInt: string -> Option<int>, projects: seq<U.Project>,
                            project: U.ProjectArg): (r: Result<Uuid, U.ResolveError>)
    ensures project.NoProject? ==>
      r == (match GetContext(environ, parseUuid, parseInt).projectId
            case Some(id) => Ok(id)
            case None => Err(U.ValueError(NoContextProject)))
    ensures project.UuidArg? ==> r == Ok(project.id)
    ensures project.NameOrId? && parseUuid(project.text).Some? ==> r == Ok(parseUuid(project.text).value)
    ensures project.NameOrId? && parseUuid(project.text).None? ==>
      r == (match U.ProjectFromName(projects, project.text)
            case Ok(p) => Ok(p.id)
            case Err(e) => Err(e))
  {
    if project.NoProject? then
      match GetContext(environ, parseUuid, parseInt).projectId
      case Some(id) => Ok(id)
      case None => Err(U.ValueError(NoContextProject))
    else
      match U.MakeUuid(project, parseUuid)
      case Some(id) => Ok(id)
      case None =>
        match U.ProjectFromName(projects, project.text)
        case Ok(p) => Ok(p.id)
        case Err(e) => Err(e)
  }

  /** Given a project argument, the corrected resolver agrees with the one
      in `faculty/_util/resolvers.py`; only the message for a missing
      context project differs. */
  lemma AgreesWithUtilResolver(environ: map<string, string>, parseUuid: string -> Option<Uuid>,
                               parseInt: string -> Option<int>, projects: seq<U.Project>, project: U.ProjectArg)
    ensures !project.NoProject? ==>
      ResolveProjectId(environ, parseUuid, parseInt, projects, project)
      == U.ResolveProjectId(environ, parseUuid, parseInt, projects, project)
    ensures project.NoProject? ==>
      (ResolveProjectId(environ, parseUuid, parseInt, projects, project).Ok?
       <==> U.ResolveProjectId(environ, parseUuid, parseInt, projects, project).Ok?)
  {
  }

  /** A project name that only one accessible project has: the resolver
      as written fails with `TypeError`, the corrected one returns that
      project's id. */
  lemma NameLookupFails(environ: map<string, string>, parseUuid: string -> Option<Uuid>,
                        parseInt: string -> Option<int>, projects: seq<U.Project>, name: string, i: int)
    requires parseUuid(name).None?
    requires 0 <= i < |projects| && projects[i].name == name
    requires forall j | 0 <= j < |projects| && j != i :: projects[j].name != name
    ensures ResolveProjectIdAsWritten(environ, parseUuid, parseInt, projects, U.NameOrId(name))
            == Err(U.TypeError(MissingNameArgument))
    ensures ResolveProjectId(environ, parseUuid, parseInt, projects, U.NameOrId(name)) == Ok(projects[i].id)
  {
  }
}
