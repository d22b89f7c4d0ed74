/** Project setup: the name and the two hourly rates, and the defaults the rest of
    the application falls back on when a rate is missing or zero. */
module Setup {
  import opened Seqs
  import opened Types

  const DEFAULT_RATE_PROF: real := 50.0
  const DEFAULT_RATE_SERV: real := 35.0

  /** `project?.hourlyRateProf || 50` and `project?.hourlyRateServ || 35`: the rate
      of a role, with the default standing in for an absent project or a zero rate. */
  function EffectiveRate(project: Option<Project>, role: Role): (r: real)
    ensures project.None? ==> r == (if role == Profissional then DEFAULT_RATE_PROF else DEFAULT_RATE_SERV)
    ensures r != 0.0
    ensures project.Some? && StoredRate(project.value, role) != 0.0 ==> r == StoredRate(project.value, role)
  {
    var fallback := if role == Profissional then DEFAULT_RATE_PROF else DEFAULT_RATE_SERV;
    match project
    case None => fallback
    case Some(p) => if StoredRate(p, role) != 0.0 then StoredRate(p, role) else fallback
  }

  function StoredRate(p: Project, role: Role): real
  {
    match role
    case Profissional => p.hourlyRateProf
    case Servente => p.hourlyRateServ
  }

  /** The project screen: the stored project and its form fields. */
  class ProjectSetup {
    var project: Option<Project>
    var name: string
    var rateProf: real
    var rateServ: real

    /** The form starts from the stored project, with the name empty and the rates
        at their defaults when there is none. */
    constructor (project: Option<Project>)
      ensures this.project == project
      ensures name == (if project.Some? then project.value.name else "")
      ensures rateProf == EffectiveRate(project, Profissional)
      ensures rateServ == EffectiveRate(project, Servente)
    {
      this.project := project;
      name := if project.Some? then project.value.name else "";
      rateProf := EffectiveRate(project, Profissional);
      rateServ := EffectiveRate(project, Servente);
    }

    /** `handleSave`: a blank name saves nothing; otherwise the project takes the
        form's name and rates exactly as entered, keeps the creation time it had
        (unless that was empty) and otherwise is stamped with `now`. */
    method HandleSave(now: string)
      modifies this`project
      ensures IsBlank(name) ==> project == old(project)
      ensures !IsBlank(name) ==> project == Some(Project(
        name,
        if old(project).Some? && old(project).value.createdAt != "" then old(project).value.createdAt else now,
        rateProf,
        rateServ))
    {
      if IsBlank(name) {
        return;
      }
      var createdAt := if project.Some? && project.value.createdAt != "" then project.value.createdAt else now;
      project := Some(Project(name, createdAt, rateProf, rateServ));
    }
  }
}
