/** The freelancer's dashboard: the tasks in progress, statistics, and the bid list with its badges. */
module FreelancerDashboard {
  import opened Stats

  /** A bid as listed: the task it is on. */
  datatype BidRow = BidRow(id: string, task: Task, amount: real)

  datatype FreelancerStats = FreelancerStats(totalBids: nat, activeTasks: nat, totalEarned: real, acceptanceRate: real)

  /** The tasks kept as active: exactly those in progress, in the order received. */
  function ActiveTasks(tasks: seq<Task>): (active: seq<Task>)
    ensures forall t :: t in active <==> t in tasks && t.status == InProgress
    ensures |active| <= |tasks|
  {
    TasksWith(tasks, InProgress)
  }

  /**
   * `acceptanceRate`: active tasks per hundred bids, or 0 without bids. The
   * rate is over exact arithmetic; the one-decimal text is not modelled.
   */
  function AcceptanceRate(bids: nat, active: nat): (rate: real)
    ensures bids == 0 ==> rate == 0.0
    ensures bids > 0 ==> rate * bids as real == active as real * 100.0
    ensures rate >= 0.0
  {
    if bids > 0 then active as real / bids as real * 100.0 else 0.0
  }

  /** The rate can exceed 100: it divides tasks in progress by bids, which are counted independently. */
  lemma RateNotBounded()
    ensures AcceptanceRate(1, 2) > 100.0
  {
  }

  function ComputeStats(bids: seq<BidRow>, tasks: seq<Task>, payments: seq<Payment>): (s: FreelancerStats)
    ensures s.totalBids == |bids|
    ensures s.activeTasks == |ActiveTasks(tasks)|
    ensures s.totalEarned == CompletedTotal(payments)
    ensures s.acceptanceRate == AcceptanceRate(|bids|, s.activeTasks)
    ensures bids == [] ==> s.acceptanceRate == 0.0
  {
    var active := ActiveTasks(tasks);
    FreelancerStats(|bids|, |active|, CompletedTotal(payments), AcceptanceRate(|bids|, |active|))
  }

  /** A bid's badge: `Accepted` exactly when its task is in progress. */
  function BidBadge(bid: BidRow): (badge: string)
    ensures badge == "Accepted" <==> bid.task.status == InProgress
    ensures badge == "Accepted" || badge == "Pending"
  {
    if bid.task.status == InProgress then "Accepted" else "Pending"
  }
}
