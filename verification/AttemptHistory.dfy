// Execution attempts and delivered results: what one command can do to them.
module AttemptHistory {
  import opened Options
  import opened Tables
  import opened RunCommands
  import opened LeaseCommands
  import opened Commands
  import opened TaskHistory
  import K = TaskCommands
  import T = TaskStates
  import R = RunStates

  // ---------------------------------------------------------------- invariants

  predicate HasAttempt(assignments: map<Id, Assignment>, task: Id, k: nat) {
    exists a :: a in assignments && assignments[a].task == task && assignments[a].attempt == k
  }

  // Attempts of a task are numbered from 1 without gaps or repeats, and only the latest can be open.
  ghost predicate Numbered(assignments: map<Id, Assignment>) {
    && (forall a :: a in assignments ==> assignments[a].attempt >= 1)
    && (forall a, b :: a in assignments && b in assignments && a != b && assignments[a].task == assignments[b].task ==>
                         assignments[a].attempt != assignments[b].attempt)
    && (forall a, k: nat :: a in assignments && 1 <= k <= assignments[a].attempt ==>
                              HasAttempt(assignments, assignments[a].task, k))
    && (forall a, b :: a in assignments && b in assignments && assignments[a].task == assignments[b].task && Open(assignments[a].state) ==>
                         assignments[b].attempt <= assignments[a].attempt)
  }

  ghost predicate HasResult(results: map<Id, TaskResult>, task: Id) {
    exists r :: r in results && results[r].task == task
  }

  predicate Delivered(state: T.TaskState) {
    state == T.AwaitingProposerClose || state == T.Closed
  }

  ghost predicate ResultsBacked(s: Tables) {
    && (forall r :: r in s.results ==>
                      s.results[r].assignment in s.assignments &&
                      s.assignments[s.results[r].assignment].state == Completed &&
                      s.assignments[s.results[r].assignment].task == s.results[r].task)
    && (forall p, q :: p in s.results && q in s.results && p != q ==> s.results[p].assignment != s.results[q].assignment)
    && (forall t :: t in s.tasks && Delivered(s.tasks[t].state) ==> HasResult(s.results, t))
  }

  ghost predicate Placed(s: Tables) {
    && (forall a :: a in s.assignments ==> a < s.nextId && s.assignments[a].task in s.tasks)
    && (forall r :: r in s.results ==> r < s.nextId)
    && IdsBelow(s.tasks, s.nextId)
  }

  // ---------------------------------------------------------------- effect of one command

  // An assignment keeps its identity, may be accepted once, and once it is no longer open it stays so.
  predicate Ages(x: Assignment, y: Assignment) {
    && y.task == x.task && y.executor == x.executor && y.attempt == x.attempt
    && (y.state == x.state || (x.state == Assigned && y.state == Accepted) || (Open(x.state) && !Open(y.state)))
  }

  predicate AllAge(a: map<Id, Assignment>, b: map<Id, Assignment>) {
    forall x {:trigger a[x]} {:trigger b[x]} :: x in a ==> x in b && Ages(a[x], b[x])
  }

  // A new attempt takes the next number, and every older attempt of its task is closed.
  ghost predicate NewAttempt(a: map<Id, Assignment>, b: map<Id, Assignment>, n: Id) {
    && n !in a && b.Keys == a.Keys + {n} && AllAge(a, b)
    && b[n].state == Assigned && b[n].attempt == Max(Attempts(a, b[n].task)) + 1
    && (forall x :: x in a && a[x].task == b[n].task ==> !Open(b[x].state))
  }

  ghost predicate AttemptsStep(s: Tables, s': Tables) {
    || (s'.assignments.Keys == s.assignments.Keys && AllAge(s.assignments, s'.assignments))
    || (exists n :: s.nextId <= n < s'.nextId && NewAttempt(s.assignments, s'.assignments, n) &&
                    s'.assignments[n].task in s'.tasks)
  }

  // No task newly awaits its proposer.
  predicate NoneDelivered(s: Tables, s': Tables) {
    forall t :: t in s'.tasks && s'.tasks[t].state == T.AwaitingProposerClose ==>
      t in s.tasks && s.tasks[t].state == T.AwaitingProposerClose
  }

  // One open assignment delivers one result for its task, and is completed by it.
  predicate Delivers(s: Tables, s': Tables, r: Id) {
    && r !in s.results && s'.results.Keys == s.results.Keys + {r}
    && (forall q :: q in s.results ==> s'.results[q] == s.results[q])
    && (var row := s'.results[r];
        && row.assignment in s.assignments && Open(s.assignments[row.assignment].state)
        && row.assignment in s'.assignments && s'.assignments[row.assignment].state == Completed
        && s.assignments[row.assignment].task == row.task
        && (forall t :: t in s'.tasks && s'.tasks[t].state == T.AwaitingProposerClose && t != row.task ==>
                          t in s.tasks && s.tasks[t].state == T.AwaitingProposerClose))
  }

  ghost predicate DeliveryStep(s: Tables, s': Tables) {
    || (s'.results == s.results && NoneDelivered(s, s'))
    || (s.nextId < s'.nextId && Delivers(s, s', s.nextId))
  }

  ghost predicate WorkStep(s: Tables, s': Tables) {
    AttemptsStep(s, s') && DeliveryStep(s, s')
  }

  // ---------------------------------------------------------------- invariants are kept

  lemma AgedNumbering(a: map<Id, Assignment>, b: map<Id, Assignment>)
    requires Numbered(a) && b.Keys == a.Keys && AllAge(a, b)
    ensures Numbered(b)
  {
    forall x, k: nat | x in b && 1 <= k <= b[x].attempt
      ensures HasAttempt(b, b[x].task, k)
    {
      assert HasAttempt(a, a[x].task, k);
      var y :| y in a && a[y].task == a[x].task && a[y].attempt == k;
      assert b[y].attempt == k;
    }
  }

  lemma AttemptsBelowMax(a: map<Id, Assignment>, task: Id)
    ensures forall x :: x in a && a[x].task == task ==> a[x].attempt <= Max(Attempts(a, task))
  {
    forall x | x in a && a[x].task == task
      ensures a[x].attempt <= Max(Attempts(a, task))
    {
      assert a[x].attempt in Attempts(a, task);
    }
  }

  lemma GrownNumbering(a: map<Id, Assignment>, b: map<Id, Assignment>, n: Id)
    requires Numbered(a) && NewAttempt(a, b, n)
    ensures Numbered(b)
  {
    hide HasAttempt, Max, Attempts;
    AttemptsBelowMax(a, b[n].task);
    forall x, k: nat | x in b && 1 <= k <= b[x].attempt
      ensures HasAttempt(b, b[x].task, k)
    {
      GrownHasAttempt(a, b, n, x, k);
    }
  }

  lemma GrownHasAttempt(a: map<Id, Assignment>, b: map<Id, Assignment>, n: Id, x: Id, k: nat)
    requires Numbered(a) && NewAttempt(a, b, n) && x in b && 1 <= k <= b[x].attempt
    ensures HasAttempt(b, b[x].task, k)
  {
    var top := Max(Attempts(a, b[n].task));
    if x == n && k == top + 1 {
      assert b[n].attempt == k;
    } else {
      var z := x;
      if x == n {
        assert top in Attempts(a, b[n].task);
        z :| z in a && a[z].task == b[n].task && a[z].attempt == top;
      }
      assert HasAttempt(a, a[z].task, k);
      var y :| y in a && a[y].task == a[z].task && a[y].attempt == k;
      assert b[y].attempt == k && b[y].task == b[x].task;
    }
  }

  lemma StepKeepsNumbering(s: Tables, s': Tables)
    requires Numbered(s.assignments) && AttemptsStep(s, s')
    ensures Numbered(s'.assignments)
  {
    hide Numbered;
    if s'.assignments.Keys == s.assignments.Keys && AllAge(s.assignments, s'.assignments) {
      AgedNumbering(s.assignments, s'.assignments);
    } else {
      var n :| s.nextId <= n < s'.nextId && NewAttempt(s.assignments, s'.assignments, n) && s'.assignments[n].task in s'.tasks;
      GrownNumbering(s.assignments, s'.assignments, n);
    }
  }

  lemma StepKeepsPlacement(s: Tables, s': Tables, closing: bool)
    requires Placed(s) && AttemptsStep(s, s') && DeliveryStep(s, s')
    requires RowsStep(s.tasks, s'.tasks, s.nextId, closing)
    requires s.nextId <= s'.nextId && (s'.tasks.Keys == s.tasks.Keys || s.nextId < s'.nextId)
    ensures Placed(s')
  {
    hide Evolves, Born, NoneDelivered, Max, Attempts;
    forall a | a in s'.assignments
      ensures a < s'.nextId && s'.assignments[a].task in s'.tasks
    {
      if a in s.assignments {
        assert Ages(s.assignments[a], s'.assignments[a]);
      }
    }
  }

  lemma CompletedStays(s: Tables, s': Tables, a: Id)
    requires AttemptsStep(s, s') && a in s.assignments && s.assignments[a].state == Completed
    ensures a in s'.assignments && s'.assignments[a].state == Completed && s'.assignments[a].task == s.assignments[a].task
  {
    hide Max, Attempts;
    assert Ages(s.assignments[a], s'.assignments[a]);
  }

  lemma OldResultsBacked(s: Tables, s': Tables)
    requires ResultsBacked(s) && AttemptsStep(s, s')
    ensures forall r :: r in s.results ==>
              s.results[r].assignment in s'.assignments &&
              s'.assignments[s.results[r].assignment].state == Completed &&
              s'.assignments[s.results[r].assignment].task == s.results[r].task
  {
    hide AttemptsStep;
    forall r | r in s.results
      ensures s.results[r].assignment in s'.assignments &&
              s'.assignments[s.results[r].assignment].state == Completed &&
              s'.assignments[s.results[r].assignment].task == s.results[r].task
    {
      CompletedStays(s, s', s.results[r].assignment);
    }
  }

  lemma DeliveredRowAged(s: Tables, s': Tables, a: Id)
    requires AttemptsStep(s, s') && a in s.assignments
    ensures a in s'.assignments && s'.assignments[a].task == s.assignments[a].task
  {
    hide Max, Attempts;
    assert a in s'.assignments && Ages(s.assignments[a], s'.assignments[a]);
  }

  lemma StepKeepsBacking(s: Tables, s': Tables, closing: bool)
    requires ResultsBacked(s) && AttemptsStep(s, s') && DeliveryStep(s, s')
    requires RowsStep(s.tasks, s'.tasks, s.nextId, closing)
    ensures ResultsBacked(s')
  {
    hide AttemptsStep, RowsStep, NoneDelivered;
    OldResultsBacked(s, s');
    if s'.results != s.results {
      DeliveredRowAged(s, s', s'.results[s.nextId].assignment);
    }
    forall t | t in s'.tasks && Delivered(s'.tasks[t].state)
      ensures HasResult(s'.results, t)
    {
      hide ResultsBacked, DeliveryStep, Delivered;
      DeliveredHasResult(s, s', t, closing);
    }
  }

  lemma ResultStays(s: Tables, s': Tables, t: Id)
    requires DeliveryStep(s, s') && HasResult(s.results, t)
    ensures HasResult(s'.results, t)
  {
    hide NoneDelivered;
    var r :| r in s.results && s.results[r].task == t;
    assert r in s'.results && s'.results[r].task == t;
  }

  // A task that newly awaits its proposer got a result.
  lemma DeliveryHasResult(s: Tables, s': Tables, t: Id)
    requires DeliveryStep(s, s') && t in s'.tasks && s'.tasks[t].state == T.AwaitingProposerClose
    requires t !in s.tasks || s.tasks[t].state != T.AwaitingProposerClose
    ensures HasResult(s'.results, t)
  {
    assert s'.results[s.nextId].task == t;
  }

  lemma NewlyDelivered(s: Tables, s': Tables, t: Id, closing: bool)
    requires RowsStep(s.tasks, s'.tasks, s.nextId, closing)
    requires t in s'.tasks && Delivered(s'.tasks[t].state) && !(t in s.tasks && Delivered(s.tasks[t].state))
    ensures s'.tasks[t].state == T.AwaitingProposerClose
  {
    if t in s.tasks {
      assert Evolves(s.tasks[t], s'.tasks[t], closing);
    }
  }

  lemma DeliveredHasResult(s: Tables, s': Tables, t: Id, closing: bool)
    requires ResultsBacked(s) && DeliveryStep(s, s') && RowsStep(s.tasks, s'.tasks, s.nextId, closing)
    requires t in s'.tasks && Delivered(s'.tasks[t].state)
    ensures HasResult(s'.results, t)
  {
    hide DeliveryStep, RowsStep, HasResult;
    if t in s.tasks && Delivered(s.tasks[t].state) {
      ResultStays(s, s', t);
    } else {
      NewlyDelivered(s, s', t, closing);
      DeliveryHasResult(s, s', t);
    }
  }
}
