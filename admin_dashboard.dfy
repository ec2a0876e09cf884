/** The administrator's dashboard: platform-wide statistics, the two chart series, and the recent lists. */
module AdminDashboard {
  import opened Stats

  const Client := "CLIENT"
  const Freelancer := "FREELANCER"

  datatype AdminStats = AdminStats(
    totalUsers: nat, clients: nat, freelancers: nat,
    totalTasks: nat, openTasks: nat, inProgressTasks: nat, completedTasks: nat,
    totalRevenue: real, totalPaid: real)

  function ComputeStats(accounts: seq<Account>, tasks: seq<Task>, payments: seq<Payment>): (s: AdminStats)
    ensures s.totalUsers == |accounts| && s.totalTasks == |tasks|
    ensures s.clients == CountRole(accounts, Client) && s.freelancers == CountRole(accounts, Freelancer)
    ensures s.clients + s.freelancers <= s.totalUsers
    ensures s.openTasks == CountTasks(tasks, Open) && s.inProgressTasks == CountTasks(tasks, InProgress)
    ensures s.completedTasks == CountTasks(tasks, Completed)
    ensures s.openTasks + s.inProgressTasks + s.completedTasks <= s.totalTasks
    ensures s.totalPaid == CompletedTotal(payments)
    ensures s.totalRevenue == s.totalPaid / 10.0
  {
    TwoRolesBounded(accounts, Client, Freelancer);
    ThreeStatusesBounded(tasks, Open, InProgress, Completed);
    RevenueIsTenthOfPaid(payments);
    AdminStats(|accounts|, CountRole(accounts, Client), CountRole(accounts, Freelancer),
               |tasks|, CountTasks(tasks, Open), CountTasks(tasks, InProgress), CountTasks(tasks, Completed),
               Revenue(payments), CompletedTotal(payments))
  }

  datatype Slice = Slice(name: string, value: nat, color: string)

  /** `taskStatusData`: one slice per status, carrying its count. */
  function TaskStatusSeries(s: AdminStats): (series: seq<Slice>)
    ensures |series| == 3
    ensures series[0].name == "Open" && series[0].value == s.openTasks
    ensures series[1].name == "In Progress" && series[1].value == s.inProgressTasks
    ensures series[2].name == "Completed" && series[2].value == s.completedTasks
  {
    [Slice("Open", s.openTasks, "#22c55e"),
     Slice("In Progress", s.inProgressTasks, "#f59e0b"),
     Slice("Completed", s.completedTasks, "#3b82f6")]
  }

  /** `userTypeData`: clients and freelancers. */
  function UserTypeSeries(s: AdminStats): (series: seq<Slice>)
    ensures |series| == 2
    ensures series[0].name == "Clients" && series[0].value == s.clients
    ensures series[1].name == "Freelancers" && series[1].value == s.freelancers
  {
    [Slice("Clients", s.clients, "#14b8a6"), Slice("Freelancers", s.freelancers, "#f97316")]
  }

  /** The status chart never shows more tasks than there are, and the user chart never more accounts. */
  lemma SeriesWithinTotals(accounts: seq<Account>, tasks: seq<Task>, payments: seq<Payment>)
    ensures var s := ComputeStats(accounts, tasks, payments);
      var t := TaskStatusSeries(s);
      var u := UserTypeSeries(s);
      t[0].value + t[1].value + t[2].value <= |tasks| && u[0].value + u[1].value <= |accounts|
  {
  }
}
