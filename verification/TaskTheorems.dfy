// Theorems about tasks over every history of commands.
module TaskTheorems {
  import opened Options
  import opened MapSums
  import opened Tables
  import opened RunCommands
  import opened Commands
  import opened DelegationTree
  import opened TaskHistory
  import K = TaskCommands
  import T = TaskStates

  // ---------------------------------------------------------------- delegation trees

  lemma StepKeepsTree(s: Tables, c: Command)
    requires Tree(s.tasks, s.nextId) && ProposersNamed(s.tasks)
    ensures Tree(Step(s, c).tasks, Step(s, c).nextId) && ProposersNamed(Step(s, c).tasks)
  {
    hide Step, Tree;
    TreeIds(s);
    StepTasks(s, c);
    ForestStepKeepsTree(s.tasks, Step(s, c).tasks, s.nextId, Step(s, c).nextId);
    StepKeepsProposers(s, Step(s, c), Closes(c));
  }

  lemma TreeIds(s: Tables)
    requires Tree(s.tasks, s.nextId)
    ensures IdsBelow(s.tasks, s.nextId)
  {
  }

  lemma StepKeepsProposers(s: Tables, s': Tables, closing: bool)
    requires RowsStep(s.tasks, s'.tasks, s.nextId, closing) && ProposersNamed(s.tasks)
    ensures ProposersNamed(s'.tasks)
  {
  }

  // Every reachable task table is a forest of bounded depth and width in which no parent promised
  // its children more tokens than its own budget.
  lemma {:induction false} ForestAlways(h: seq<Command>)
    ensures Tree(Exec(h).tasks, Exec(h).nextId) && ProposersNamed(Exec(h).tasks)
  {
    if h == [] {
    } else {
      ForestAlways(h[..|h| - 1]);
      StepKeepsTree(Exec(h[..|h| - 1]), h[|h| - 1]);
    }
  }

  // The walk of delegate_task always ends at the task's recorded root, at most 16 levels up; its
  // cycle and broken-chain errors cannot occur. No tree has more than 1000 subtasks.
  lemma WalkAlwaysReachesRoot(h: seq<Command>, t: Id)
    requires t in Exec(h).tasks
    ensures var tasks := Exec(h).tasks;
            var chain := WalkUp(tasks, t, [t], 0);
            && chain.Chain? && chain.depth <= 16 && chain.root == tasks[t].root
            && chain.root in tasks && tasks[chain.root].parent == None
            && |Subtasks(tasks, chain.root)| <= 1000
  {
    hide Exec, Subtasks;
    ForestAlways(h);
    var tasks := Exec(h).tasks;
    WalkFindsAncestor(tasks, t, [t], 0);
    AncestorIsRoot(tasks, t);
    assert |Subtasks(tasks, Ancestor(tasks, t))| <= 1000;
  }

  // ---------------------------------------------------------------- token budgets, level by level

  // The budgets of the tasks d levels below a root.
  ghost function LevelBudgets(tasks: map<Id, Task>, root: Id, d: nat): map<Id, nat>
    requires ParentsFirst(tasks)
  {
    map t | t in tasks && Ancestor(tasks, t) == root && Depth(tasks, t) == d :: Tokens(tasks[t].budget)
  }

  // The budgets of all children of a set of tasks.
  ghost function BroodBudgets(tasks: map<Id, Task>, parents: set<Id>): map<Id, nat> {
    map t | t in tasks && tasks[t].parent.Some? && tasks[t].parent.value in parents :: Tokens(tasks[t].budget)
  }

  ghost function OwnBudgets(tasks: map<Id, Task>, ts: set<Id>): map<Id, nat>
    requires ts <= tasks.Keys
  {
    map t | t in ts :: Tokens(tasks[t].budget)
  }

  lemma BroodSplits(tasks: map<Id, Task>, parents: set<Id>, p: Id)
    requires p in parents
    ensures Splits(BroodBudgets(tasks, parents), BroodBudgets(tasks, parents - {p}), ChildBudgets(tasks, p))
  {
  }

  lemma {:induction false} BroodWithinParents(tasks: map<Id, Task>, parents: set<Id>)
    requires Funded(tasks) && parents <= tasks.Keys
    ensures Sum(BroodBudgets(tasks, parents)) <= Sum(OwnBudgets(tasks, parents))
    decreases |parents|
  {
    if parents == {} {
      assert BroodBudgets(tasks, parents) == map[];
    } else {
      var p :| p in parents;
      var rest := parents - {p};
      BroodWithinParents(tasks, rest);
      BroodSplits(tasks, parents, p);
      SumUnion(BroodBudgets(tasks, parents), BroodBudgets(tasks, rest), ChildBudgets(tasks, p));
      assert TokensAllocated(tasks, p) <= Tokens(tasks[p].budget);
      assert OwnBudgets(tasks, parents) == OwnBudgets(tasks, rest)[p := Tokens(tasks[p].budget)];
      SumInsert(OwnBudgets(tasks, rest), p, Tokens(tasks[p].budget));
    }
  }

  // Level d + 1 is the brood of level d.
  lemma NextLevel(tasks: map<Id, Task>, root: Id, d: nat)
    requires ParentsFirst(tasks)
    ensures LevelBudgets(tasks, root, d + 1) == BroodBudgets(tasks, LevelBudgets(tasks, root, d).Keys)
    ensures OwnBudgets(tasks, LevelBudgets(tasks, root, d).Keys) == LevelBudgets(tasks, root, d)
  {
    forall t | t in tasks
      ensures t in LevelBudgets(tasks, root, d + 1) <==> t in BroodBudgets(tasks, LevelBudgets(tasks, root, d).Keys)
    {
      if tasks[t].parent.Some? {
        assert Depth(tasks, t) == Depth(tasks, tasks[t].parent.value) + 1;
      }
    }
  }

  lemma RootLevel(tasks: map<Id, Task>, root: Id)
    requires ParentsFirst(tasks) && root in tasks && tasks[root].parent == None
    ensures LevelBudgets(tasks, root, 0) == map[root := Tokens(tasks[root].budget)]
  {
    hide Tokens;
    forall t | t in tasks && Ancestor(tasks, t) == root && Depth(tasks, t) == 0
      ensures t == root
    {
    }
  }

  lemma SumOfOne(k: Id, v: nat)
    ensures Sum(map[k := v]) == v
  {
    SumInsert(map[], k, v);
    assert map[][k := v] == map[k := v];
  }

  lemma RootLevelSum(tasks: map<Id, Task>, root: Id)
    requires ParentsFirst(tasks) && root in tasks && tasks[root].parent == None
    ensures Sum(LevelBudgets(tasks, root, 0)) == Tokens(tasks[root].budget)
  {
    RootLevel(tasks, root);
    SumOfOne(root, Tokens(tasks[root].budget));
  }

  lemma {:induction false} LevelWithinRoot(tasks: map<Id, Task>, root: Id, d: nat)
    requires ParentsFirst(tasks) && Funded(tasks) && root in tasks && tasks[root].parent == None
    ensures Sum(LevelBudgets(tasks, root, d)) <= Tokens(tasks[root].budget)
  {
    hide Sum, Funded, Tokens;
    if d == 0 {
      RootLevelSum(tasks, root);
    } else {
      LevelWithinRoot(tasks, root, d - 1);
      NextLevel(tasks, root, d - 1);
      BroodWithinParents(tasks, LevelBudgets(tasks, root, d - 1).Keys);
    }
  }

  // The budgets of the levels above level d.
  ghost function UpperBudgets(tasks: map<Id, Task>, root: Id, d: nat): map<Id, nat>
    requires ParentsFirst(tasks)
  {
    map t | t in tasks && Ancestor(tasks, t) == root && Depth(tasks, t) < d :: Tokens(tasks[t].budget)
  }

  lemma UpperSplits(tasks: map<Id, Task>, root: Id, d: nat)
    requires ParentsFirst(tasks)
    ensures Splits(UpperBudgets(tasks, root, d + 1), UpperBudgets(tasks, root, d), LevelBudgets(tasks, root, d))
  {
  }

  lemma UpperStep(tasks: map<Id, Task>, root: Id, d: nat, limit: nat, b: nat)
    requires ParentsFirst(tasks)
    requires Sum(UpperBudgets(tasks, root, d)) <= limit && Sum(LevelBudgets(tasks, root, d)) <= b
    ensures Sum(UpperBudgets(tasks, root, d + 1)) <= limit + b
  {
    hide UpperBudgets, LevelBudgets;
    UpperSplits(tasks, root, d);
    SumUnion(UpperBudgets(tasks, root, d + 1), UpperBudgets(tasks, root, d), LevelBudgets(tasks, root, d));
  }

  function Times(d: nat, b: nat): nat {
    if d == 0 then 0 else Times(d - 1, b) + b
  }

  lemma NothingAbove(tasks: map<Id, Task>, root: Id)
    requires ParentsFirst(tasks)
    ensures Sum(UpperBudgets(tasks, root, 0)) == 0
  {
    assert UpperBudgets(tasks, root, 0) == map[];
  }

  lemma {:induction false} UpperWithinRoot(tasks: map<Id, Task>, root: Id, d: nat)
    requires ParentsFirst(tasks) && Funded(tasks) && root in tasks && tasks[root].parent == None
    ensures Sum(UpperBudgets(tasks, root, d)) <= Times(d, Tokens(tasks[root].budget))
  {
    hide UpperBudgets, LevelBudgets, Sum, ParentsFirst, Funded, Tokens;
    if d == 0 {
      NothingAbove(tasks, root);
    } else {
      var b := Tokens(tasks[root].budget);
      UpperWithinRoot(tasks, root, d - 1);
      LevelWithinRoot(tasks, root, d - 1);
      UpperStep(tasks, root, d - 1, Times(d - 1, b), b);
    }
  }

  lemma {:induction false} TimesIsProduct(d: nat, b: nat)
    ensures Times(d, b) == d * b
  {
    if d == 0 {
    } else {
      TimesIsProduct(d - 1, b);
    }
  }

  // All budgets of a tree.
  ghost function TreeBudgets(tasks: map<Id, Task>, root: Id): map<Id, nat> {
    map t | t in tasks && tasks[t].root == root :: Tokens(tasks[t].budget)
  }

  // In every reachable state: what a task's direct children were promised fits its own budget, each
  // level of a tree fits the root's budget, and the whole tree fits 17 times the root's budget.
  lemma BudgetsNeverOverdrawn(h: seq<Command>, t: Id, d: nat)
    requires t in Exec(h).tasks
    ensures TokensAllocated(Exec(h).tasks, t) <= Tokens(Exec(h).tasks[t].budget)
    ensures ParentsFirst(Exec(h).tasks)
    ensures var tasks := Exec(h).tasks;
            tasks[t].parent == None ==>
              && Sum(LevelBudgets(tasks, t, d)) <= Tokens(tasks[t].budget)
              && Sum(TreeBudgets(tasks, t)) <= 17 * Tokens(tasks[t].budget)
  {
    hide Exec;
    ForestAlways(h);
    var tasks := Exec(h).tasks;
    if tasks[t].parent == None {
      LevelWithinRoot(tasks, t, d);
      UpperWithinRoot(tasks, t, 17);
      TimesIsProduct(17, Tokens(tasks[t].budget));
      assert TreeBudgets(tasks, t) == UpperBudgets(tasks, t, 17) by {
        forall x | x in tasks
          ensures Depth(tasks, x) < 17 && tasks[x].root == Ancestor(tasks, x)
        {
        }
      }
    }
  }
}
