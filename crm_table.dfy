/** The user rows of the admin CRM, src/components/admin/crm/CRMTable.tsx: the type badge and the cells. */
module CRMTable {
  import opened Wrappers
  import opened Text

  datatype Project = Project(id: string, name: string)

  datatype User = User(
    firstName: Option<string>,
    lastName: Option<string>,
    email: Option<string>,
    phone: Option<string>,
    userType: Option<string>,
    projects: Option<seq<Project>>)

  const KnownTypes: set<string> := {"lead", "member", "sampler", "customer"}
  const GrayStyle := "bg-gray-500/10 text-gray-500 hover:bg-gray-500/20"

  /** `Array.isArray(projects) && projects.length > 0`. */
  predicate HasProjects(projects: Option<seq<Project>>) {
    projects.Some? && |projects.value| > 0
  }

  /** A user with projects is a customer; otherwise the stored type, or "lead" when it is missing or empty. */
  function EffectiveType(userType: Option<string>, hasProjects: bool): (r: string)
    ensures hasProjects ==> r == "customer"
    ensures !hasProjects && TruthyOpt(userType) ==> r == userType.value
    ensures !hasProjects && !TruthyOpt(userType) ==> r == "lead"
  {
    if hasProjects then "customer" else OrElse(userType, "lead")
  }

  /** The badge text: the four known types by name, anything else "Unknown". */
  function Label(t: string): (r: string)
    ensures r == "Unknown" <==> t !in KnownTypes
  {
    if t == "lead" then "Lead"
    else if t == "member" then "Member"
    else if t == "sampler" then "Sampler"
    else if t == "customer" then "Customer"
    else "Unknown"
  }

  /** The badge colours: one per known type, gray for anything else. */
  function Style(t: string): (r: string)
    ensures r == GrayStyle <==> t !in KnownTypes
  {
    if t == "lead" then "bg-yellow-500/10 text-yellow-500 hover:bg-yellow-500/20"
    else if t == "member" then "bg-blue-500/10 text-blue-500 hover:bg-blue-500/20"
    else if t == "sampler" then "bg-purple-500/10 text-purple-500 hover:bg-purple-500/20"
    else if t == "customer" then "bg-green-500/10 text-green-500 hover:bg-green-500/20"
    else GrayStyle
  }

  datatype Badge = Badge(style: string, text: string)

  /** `getUserTypeBadge`. */
  function UserTypeBadge(userType: Option<string>, hasProjects: bool): (r: Badge)
    ensures hasProjects ==> r.text == "Customer"
    ensures !hasProjects && !TruthyOpt(userType) ==> r.text == "Lead"
    ensures r.text == "Unknown" <==> r.style == GrayStyle
    ensures r.text == "Unknown" <==> !hasProjects && TruthyOpt(userType) && userType.value !in KnownTypes
  {
    var t := EffectiveType(userType, hasProjects);
    Badge(Style(t), Label(t))
  }

  /** Whatever type is stored, a user with projects shows as a customer. */
  lemma ProjectsMakeCustomer(u: User)
    requires HasProjects(u.projects)
    ensures UserTypeBadge(u.userType, HasProjects(u.projects)) == Badge("bg-green-500/10 text-green-500 hover:bg-green-500/20", "Customer")
  {
  }

  /** The name cell: the non-empty first and last names joined by one space. */
  function NameCell(first: Option<string>, last: Option<string>): (r: string)
    ensures TruthyOpt(first) && TruthyOpt(last) ==> r == first.value + " " + last.value
    ensures TruthyOpt(first) && !TruthyOpt(last) ==> r == first.value
    ensures !TruthyOpt(first) && TruthyOpt(last) ==> r == last.value
    ensures !TruthyOpt(first) && !TruthyOpt(last) ==> r == ""
  {
    JoinPresentTwo(first, last, " ");
    JoinPresent([first, last], " ")
  }

  /** The phone cell: a dash for a missing or empty phone. */
  function PhoneCell(phone: Option<string>): (r: string)
    ensures r != ""
    ensures TruthyOpt(phone) ==> r == phone.value
    ensures !TruthyOpt(phone) ==> r == "-"
  {
    OrElse(phone, "-")
  }

  /** The projects cell: the project names, or a dash only when the list itself is missing. */
  datatype ProjectsCell = Dash | Names(names: seq<string>)

  function ProjectsCellFor(projects: Option<seq<Project>>): (r: ProjectsCell)
    ensures projects.None? <==> r == Dash
    ensures projects.Some? ==> |r.names| == |projects.value|
    ensures projects.Some? ==> forall i :: 0 <= i < |projects.value| ==> r.names[i] == projects.value[i].name
  {
    match projects
    case None => Dash
    case Some(ps) => Names(seq(|ps|, i requires 0 <= i < |ps| => ps[i].name))
  }

  /** An empty project list shows no names and no dash, and its user keeps the stored type. */
  lemma EmptyProjectsShowNothing(u: User)
    requires u.projects == Some([])
    ensures ProjectsCellFor(u.projects) == Names([])
    ensures UserTypeBadge(u.userType, HasProjects(u.projects)) == UserTypeBadge(u.userType, false)
  {
  }
}
