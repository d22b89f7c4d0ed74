/** The records the application keeps, one datatype per collection, and the
    daily work-hour ceiling. Quantities are exact reals; identities, dates and
    months are opaque strings ("YYYY-MM-DD" for a log's date, "YYYY-MM" for a
    plan's, a measurement's and a payroll record's month). */
module Types {
  import opened Seqs

  /** A worker is either skilled (`PROFISSIONAL`) or a labourer (`SERVENTE`). */
  datatype Role = Profissional | Servente

  /** The single project; absent (None) before it is set up. */
  datatype Project = Project(name: string, createdAt: string, hourlyRateProf: real, hourlyRateServ: real)

  datatype Collaborator = Collaborator(
    id: string,
    name: string,
    role: Role,
    startDate: string,
    endDate: Option<string>)

  /** A line of the budget: a hierarchical code such as "1.2", the total quantity,
      the value, and the total estimated hours of each role. */
  datatype BudgetItem = BudgetItem(
    id: string,
    code: string,
    description: string,
    unit: string,
    quantity: real,
    estimatedValue: real,
    estimatedProfHours: real,
    estimatedServHours: real)

  /** Hours a collaborator spent on a budget item on one date. */
  datatype DailyLogEntry = DailyLogEntry(
    id: string,
    date: string,
    collaboratorId: string,
    budgetItemId: string,
    hours: real,
    justification: Option<string>)

  /** The share (in percent) of an item expected to be done in one month. */
  datatype MonthlyPlan = MonthlyPlan(id: string, month: string, budgetItemId: string, projectedPercentage: real)

  /** The quantity of an item actually executed in one month. */
  datatype QuantitativeLog = QuantitativeLog(id: string, month: string, budgetItemId: string, executedQuantity: real)

  /** One month's payroll figures. */
  datatype FinancialRecord = FinancialRecord(
    id: string,
    month: string,
    hrHours: real,
    payrollCost: real,
    indirectCost: real)

  /** No collaborator may log more than this many hours on one date. */
  const DAILY_WORK_HOURS: real := 8.0

  /** The item's hour estimate for a role: the budget the role's logged hours are held to. */
  function EstimatedHours(item: BudgetItem, role: Role): real
  {
    match role
    case Profissional => item.estimatedProfHours
    case Servente => item.estimatedServHours
  }

  /** The role of the first team member with this id, if there is one. */
  function RoleOf(team: seq<Collaborator>, id: string): (r: Option<Role>)
    ensures r.Some? <==> exists i :: 0 <= i < |team| && team[i].id == id
    ensures r.Some? ==> exists i :: 0 <= i < |team| && team[i].id == id && team[i].role == r.value
                                    && forall j :: 0 <= j < i ==> team[j].id != id
  {
    match Find(team, HasCollaboratorId(id))
    case Some(c) => Some(c.role)
    case None => None
  }

  function HasCollaboratorId(id: string): Collaborator -> bool
  {
    (c: Collaborator) => c.id == id
  }

  /** `budget.find(b => b.id === id)`. */
  function FindItem(budget: seq<BudgetItem>, id: string): (r: Option<BudgetItem>)
    ensures r.Some? <==> exists i :: 0 <= i < |budget| && budget[i].id == id
    ensures r.Some? ==> r.value in budget && r.value.id == id
    ensures r.Some? ==> exists i :: 0 <= i < |budget| && budget[i] == r.value
                                    && forall j :: 0 <= j < i ==> budget[j].id != id
  {
    Find(budget, HasItemId(id))
  }

  function HasItemId(id: string): BudgetItem -> bool
  {
    (b: BudgetItem) => b.id == id
  }
}
