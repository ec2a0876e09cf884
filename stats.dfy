/**
 * The records the dashboards receive and the counts and sums they compute
 * over them with `filter(...).length` and `reduce`.
 */
module Stats {
  import opened Text

  const Open := "OPEN"
  const InProgress := "IN_PROGRESS"
  const Completed := "COMPLETED"
  const Pending := "PENDING"

  datatype Task = Task(id: string, title: string, status: string)

  datatype Payment = Payment(id: string, status: string, amount: real)

  datatype Account = Account(id: string, role: string)

  /** `tasks.filter(t => t.status === status)`. */
  function TasksWith(tasks: seq<Task>, status: string): (r: seq<Task>)
    ensures |r| <= |tasks|
    ensures forall k :: 0 <= k < |r| ==> r[k].status == status
    ensures forall t :: t in tasks && t.status == status <==> t in r
  {
    if tasks == [] then []
    else
      var init := TasksWith(tasks[..|tasks| - 1], status);
      var last := tasks[|tasks| - 1];
      assert tasks == tasks[..|tasks| - 1] + [last];
      init + (if last.status == status then [last] else [])
  }

  /** Filtering keeps order: the filter of a concatenation is the concatenation of the filters. */
  lemma {:induction false} TasksWithAppend(a: seq<Task>, b: seq<Task>, status: string)
    ensures TasksWith(a + b, status) == TasksWith(a, status) + TasksWith(b, status)
    decreases |b|
  {
    if b == [] {
      assert a + b == a;
    } else {
      assert (a + b)[..|a + b| - 1] == a + b[..|b| - 1];
      TasksWithAppend(a, b[..|b| - 1], status);
    }
  }

  /** `tasks.filter(t => t.status === status).length`. */
  function CountTasks(tasks: seq<Task>, status: string): nat {
    |TasksWith(tasks, status)|
  }

  /** Counting a status over a list is counting it over all but the last task, plus the last. */
  lemma CountTasksLast(tasks: seq<Task>, status: string)
    requires tasks != []
    ensures CountTasks(tasks, status) ==
      CountTasks(tasks[..|tasks| - 1], status) + (if tasks[|tasks| - 1].status == status then 1 else 0)
  {
    var init, last := tasks[..|tasks| - 1], tasks[|tasks| - 1];
    TasksWithAppend(init, [last], status);
    assert init + [last] == tasks;
    assert TasksWith([last], status) == if last.status == status then [last] else [];
  }

  /** Tasks of two different statuses are counted apart. */
  lemma {:induction false} TwoStatusesBounded(tasks: seq<Task>, s1: string, s2: string)
    requires s1 != s2
    ensures CountTasks(tasks, s1) + CountTasks(tasks, s2) <= |tasks|
    decreases |tasks|
  {
    if tasks != [] {
      CountTasksLast(tasks, s1);
      CountTasksLast(tasks, s2);
      TwoStatusesBounded(tasks[..|tasks| - 1], s1, s2);
    }
  }

  /** Tasks of three different statuses are counted apart. */
  lemma {:induction false} ThreeStatusesBounded(tasks: seq<Task>, s1: string, s2: string, s3: string)
    requires s1 != s2 && s2 != s3 && s1 != s3
    ensures CountTasks(tasks, s1) + CountTasks(tasks, s2) + CountTasks(tasks, s3) <= |tasks|
    decreases |tasks|
  {
    if tasks != [] {
      CountTasksLast(tasks, s1);
      CountTasksLast(tasks, s2);
      CountTasksLast(tasks, s3);
      ThreeStatusesBounded(tasks[..|tasks| - 1], s1, s2, s3);
    }
  }

  /** `payments.filter(p => p.status === status).length`. */
  function CountPayments(payments: seq<Payment>, status: string): (n: nat)
    ensures n <= |payments|
    ensures n == 0 <==> forall k :: 0 <= k < |payments| ==> payments[k].status != status
  {
    if payments == [] then 0
    else
      var rest := CountPayments(payments[..|payments| - 1], status);
      assert forall k :: 0 <= k < |payments| - 1 ==> payments[..|payments| - 1][k] == payments[k];
      rest + (if payments[|payments| - 1].status == status then 1 else 0)
  }

  /** `accounts.filter(u => u.role === role).length`. */
  function CountRole(accounts: seq<Account>, role: string): (n: nat)
    ensures n <= |accounts|
  {
    if accounts == [] then 0
    else CountRole(accounts[..|accounts| - 1], role) + (if accounts[|accounts| - 1].role == role then 1 else 0)
  }

  /**
   * The pending count is a count: one payment counts exactly when it has the
   * status, and counts over a concatenation add up.
   */
  lemma {:induction false} CountPaymentsAppend(a: seq<Payment>, b: seq<Payment>, status: string)
    ensures CountPayments(a + b, status) == CountPayments(a, status) + CountPayments(b, status)
    ensures forall p: Payment :: CountPayments([p], status) == if p.status == status then 1 else 0
    decreases |b|
  {
    if b == [] {
      assert a + b == a;
    } else {
      assert (a + b)[..|a + b| - 1] == a + b[..|b| - 1];
      CountPaymentsAppend(a, b[..|b| - 1], status);
    }
    forall p: Payment ensures CountPayments([p], status) == if p.status == status then 1 else 0 {
      assert [p][..0] == [];
    }
  }

  /**
   * A role count is a count: one account counts exactly when it has the role,
   * and counts over a concatenation add up.
   */
  lemma {:induction false} CountRoleAppend(a: seq<Account>, b: seq<Account>, role: string)
    ensures CountRole(a + b, role) == CountRole(a, role) + CountRole(b, role)
    ensures forall u: Account :: CountRole([u], role) == if u.role == role then 1 else 0
    decreases |b|
  {
    if b == [] {
      assert a + b == a;
    } else {
      assert (a + b)[..|a + b| - 1] == a + b[..|b| - 1];
      CountRoleAppend(a, b[..|b| - 1], role);
    }
    forall u: Account ensures CountRole([u], role) == if u.role == role then 1 else 0 {
      assert [u][..0] == [];
    }
  }

  /** Accounts of two different roles are counted apart. */
  lemma {:induction false} TwoRolesBounded(accounts: seq<Account>, r1: string, r2: string)
    requires r1 != r2
    ensures CountRole(accounts, r1) + CountRole(accounts, r2) <= |accounts|
    decreases |accounts|
  {
    if accounts != [] {
      TwoRolesBounded(accounts[..|accounts| - 1], r1, r2);
    }
  }

  /** `payments.reduce((sum, p) => sum + (p.status === 'COMPLETED' ? p.amount : 0), 0)`. */
  function CompletedTotal(payments: seq<Payment>): real {
    if payments == [] then 0.0
    else
      var last := payments[|payments| - 1];
      CompletedTotal(payments[..|payments| - 1]) + (if last.status == Completed then last.amount else 0.0)
  }

  /** Only completed payments add to the total: with none, it is zero, and amounts never subtract when they are not negative. */
  lemma {:induction false} CompletedTotalOnlyCompleted(payments: seq<Payment>)
    ensures (forall k :: 0 <= k < |payments| ==> payments[k].status != Completed) ==> CompletedTotal(payments) == 0.0
    ensures (forall k :: 0 <= k < |payments| ==> payments[k].amount >= 0.0) ==> CompletedTotal(payments) >= 0.0
    decreases |payments|
  {
    if payments != [] {
      var init := payments[..|payments| - 1];
      assert forall k :: 0 <= k < |init| ==> init[k] == payments[k];
      CompletedTotalOnlyCompleted(init);
    }
  }

  /** The running total over a concatenation is the sum of the running totals. */
  lemma {:induction false} CompletedTotalAppend(a: seq<Payment>, b: seq<Payment>)
    ensures CompletedTotal(a + b) == CompletedTotal(a) + CompletedTotal(b)
    decreases |b|
  {
    if b == [] {
      assert a + b == a;
    } else {
      assert (a + b)[..|a + b| - 1] == a + b[..|b| - 1];
      CompletedTotalAppend(a, b[..|b| - 1]);
    }
  }

  /** The platform fee: `reduce((sum, p) => sum + (p.status === 'COMPLETED' ? p.amount * 0.1 : 0), 0)`. */
  function Revenue(payments: seq<Payment>): real {
    if payments == [] then 0.0
    else
      var last := payments[|payments| - 1];
      Revenue(payments[..|payments| - 1]) + (if last.status == Completed then last.amount * 0.1 else 0.0)
  }

  /** Over exact arithmetic the fee is a tenth of everything paid. */
  lemma {:induction false} RevenueIsTenthOfPaid(payments: seq<Payment>)
    ensures Revenue(payments) == CompletedTotal(payments) / 10.0
    decreases |payments|
  {
    if payments != [] {
      RevenueIsTenthOfPaid(payments[..|payments| - 1]);
    }
  }

  const RecentCount := 5

  /** `slice(0, 5)` on a fetched list: the first five, in the order received. */
  function Recent<T>(items: seq<T>): (r: seq<T>)
    ensures |r| <= RecentCount && |r| <= |items| && r == items[..|r|]
    ensures |items| >= RecentCount ==> |r| == RecentCount
    ensures |items| < RecentCount ==> r == items
  {
    Take(items, RecentCount)
  }
}
