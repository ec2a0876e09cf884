/** The client's dashboard: statistics over the client's tasks and payments, and the recent lists. */
module ClientDashboard {
  import opened Stats

  datatype ClientStats = ClientStats(
    totalTasks: nat, activeTasks: nat, completedTasks: nat, totalSpent: real, pendingPayments: nat)

  function ComputeStats(tasks: seq<Task>, payments: seq<Payment>): (s: ClientStats)
    ensures s.totalTasks == |tasks|
    ensures s.activeTasks == |TasksWith(tasks, InProgress)| && s.completedTasks == |TasksWith(tasks, Completed)|
    ensures s.activeTasks + s.completedTasks <= s.totalTasks
    ensures s.totalSpent == CompletedTotal(payments)
    ensures s.pendingPayments == CountPayments(payments, Pending) && s.pendingPayments <= |payments|
  {
    TwoStatusesBounded(tasks, InProgress, Completed);
    ClientStats(|tasks|, CountTasks(tasks, InProgress), CountTasks(tasks, Completed),
                CompletedTotal(payments), CountPayments(payments, Pending))
  }
}
