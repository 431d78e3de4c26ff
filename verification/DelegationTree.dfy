// Task trees: what delegation can build, over every history of commands.
module DelegationTree {
  import opened Options
  import opened MapSums
  import opened Tables
  import opened RunCommands
  import opened Commands
  import K = TaskCommands

  // ---------------------------------------------------------------- forests

  // A parent is an older task.
  ghost predicate ParentsFirst(tasks: map<Id, Task>) {
    forall t {:trigger tasks[t].parent} :: t in tasks && tasks[t].parent.Some? ==> tasks[t].parent.value in tasks && tasks[t].parent.value < t
  }

  ghost function Depth(tasks: map<Id, Task>, t: Id): nat
    requires ParentsFirst(tasks) && t in tasks
  {
    match tasks[t].parent
    case None => 0
    case Some(p) => Depth(tasks, p) + 1
  }

  ghost function Ancestor(tasks: map<Id, Task>, t: Id): Id
    requires ParentsFirst(tasks) && t in tasks
  {
    match tasks[t].parent
    case None => t
    case Some(p) => Ancestor(tasks, p)
  }

  ghost predicate Rooted(tasks: map<Id, Task>)
    requires ParentsFirst(tasks)
  {
    forall t {:trigger tasks[t].root} {:trigger Ancestor(tasks, t)} :: t in tasks ==> tasks[t].root == Ancestor(tasks, t)
  }

  ghost predicate Shallow(tasks: map<Id, Task>)
    requires ParentsFirst(tasks)
  {
    forall t {:trigger Depth(tasks, t)} :: t in tasks ==> Depth(tasks, t) <= 16
  }

  ghost predicate Narrow(tasks: map<Id, Task>) {
    forall r {:trigger Subtasks(tasks, r)} :: r in tasks ==> |Subtasks(tasks, r)| <= 1000
  }

  ghost predicate Funded(tasks: map<Id, Task>) {
    forall p {:trigger TokensAllocated(tasks, p)} :: p in tasks ==> TokensAllocated(tasks, p) <= Tokens(tasks[p].budget)
  }

  ghost predicate Tree(tasks: map<Id, Task>, nextId: Id) {
    && (forall t :: t in tasks ==> t < nextId && ValidBudget(tasks[t].budget))
    && ParentsFirst(tasks) && Rooted(tasks) && Shallow(tasks) && Narrow(tasks) && Funded(tasks)
  }

  // ---------------------------------------------------------------- how a command changes the forest

  // The columns of a task that are written once, when it is created.
  predicate SameHead(x: Task, y: Task) {
    x.root == y.root && x.parent == y.parent && x.owner == y.owner && x.proposer == y.proposer && x.budget == y.budget
  }

  ghost predicate Keeps(a: map<Id, Task>, b: map<Id, Task>) {
    forall t :: t in a ==> t in b && SameHead(a[t], b[t])
  }

  // One task is added, younger than all others, and the rest keep their heads.
  ghost predicate Grows(a: map<Id, Task>, b: map<Id, Task>, t: Id) {
    && t !in a && b.Keys == a.Keys + {t} && Keeps(a, b)
    && (forall x :: x in a ==> x < t)
    && (b[t].parent.Some? ==> b[t].parent.value in a)
  }

  ghost predicate RootGuards(b: map<Id, Task>, t: Id)
    requires t in b
  {
    b[t].parent == None && b[t].root == t
  }

  // What a delegation checked before it inserted the child.
  ghost predicate ChildGuards(a: map<Id, Task>, child: Task)
    requires child.parent.Some? && child.parent.value in a
  {
    var p := child.parent.value;
    var chain := WalkUp(a, p, [p], 0);
    && chain.Chain? && child.root == chain.root
    && chain.depth + 1 <= Limit(a[p].budget, MaxDepth, 3)
    && |Subtasks(a, chain.root)| < Limit(a[p].budget, MaxSubtasks, 4)
    && TokensAllocated(a, p) + Tokens(child.budget) <= Tokens(a[p].budget)
  }

  ghost predicate ForestStep(a: map<Id, Task>, b: map<Id, Task>, t: Id) {
    || (b.Keys == a.Keys && Keeps(a, b))
    || (Grows(a, b, t) && ValidBudget(b[t].budget) && if b[t].parent.None? then RootGuards(b, t) else ChildGuards(a, b[t]))
  }

  // ---------------------------------------------------------------- the walk never fails

  // Walking up a forest visits ever older tasks, so it meets no task twice and no missing row.
  lemma {:induction false} WalkFindsAncestor(tasks: map<Id, Task>, c: Id, path: seq<Id>, d: nat)
    requires ParentsFirst(tasks) && c in tasks
    requires forall x :: x in path ==> c <= x
    ensures WalkUp(tasks, c, path, d) == Chain(d + Depth(tasks, c), Ancestor(tasks, c))
    decreases c
  {
    if tasks[c].parent.None? {
    } else {
      var p := tasks[c].parent.value;
      WalkFindsAncestor(tasks, p, path + [p], d + 1);
    }
  }

  lemma {:induction false} SameChains(a: map<Id, Task>, b: map<Id, Task>, t: Id)
    requires ParentsFirst(a) && ParentsFirst(b) && Keeps(a, b) && t in a
    ensures Depth(a, t) == Depth(b, t) && Ancestor(a, t) == Ancestor(b, t)
    decreases t
  {
    if a[t].parent.None? {
    } else {
      SameChains(a, b, a[t].parent.value);
    }
  }

  // ---------------------------------------------------------------- every step keeps the forest

  lemma KeepsFunding(a: map<Id, Task>, b: map<Id, Task>)
    requires b.Keys == a.Keys && Keeps(a, b) && Funded(a)
    ensures Funded(b)
  {
    forall p | p in b
      ensures TokensAllocated(b, p) <= Tokens(b[p].budget)
    {
      assert ChildBudgets(a, p) == ChildBudgets(b, p);
      assert TokensAllocated(a, p) <= Tokens(a[p].budget);
    }
  }

  lemma KeepsNarrow(a: map<Id, Task>, b: map<Id, Task>)
    requires b.Keys == a.Keys && Keeps(a, b) && Narrow(a)
    ensures Narrow(b)
  {
    forall r | r in b
      ensures |Subtasks(b, r)| <= 1000
    {
      assert Subtasks(a, r) == Subtasks(b, r);
    }
  }

  lemma KeepsChains(a: map<Id, Task>, b: map<Id, Task>)
    requires b.Keys == a.Keys && Keeps(a, b) && ParentsFirst(a) && Rooted(a) && Shallow(a)
    ensures ParentsFirst(b) && Rooted(b) && Shallow(b)
  {
    assert ParentsFirst(b);
    forall t | t in b
      ensures b[t].root == Ancestor(b, t) && Depth(b, t) <= 16
    {
      SameChains(a, b, t);
    }
  }

  lemma GrowthKeepsChains(a: map<Id, Task>, b: map<Id, Task>, t: Id)
    requires Grows(a, b, t) && ParentsFirst(a) && Rooted(a) && Shallow(a)
    ensures ParentsFirst(b)
    ensures forall x :: x in a ==> Depth(b, x) == Depth(a, x) <= 16 && b[x].root == Ancestor(b, x) == Ancestor(a, x)
  {
    assert ParentsFirst(b);
    forall x | x in a
      ensures Depth(b, x) == Depth(a, x) <= 16 && b[x].root == Ancestor(b, x) == Ancestor(a, x)
    {
      SameChains(a, b, x);
    }
  }

  lemma {:induction false} AncestorIsRoot(tasks: map<Id, Task>, t: Id)
    requires ParentsFirst(tasks) && t in tasks
    ensures Ancestor(tasks, t) in tasks && Ancestor(tasks, t) <= t && tasks[Ancestor(tasks, t)].parent == None
    decreases t
  {
    if tasks[t].parent.None? {
    } else {
      AncestorIsRoot(tasks, tasks[t].parent.value);
    }
  }

  // A new task is the root of nobody yet.
  lemma NewTaskHasNoSubtasks(a: map<Id, Task>, b: map<Id, Task>, t: Id)
    requires Grows(a, b, t) && ParentsFirst(a) && Rooted(a)
    ensures Subtasks(b, t) == {}
  {
    forall x | x in a
      ensures b[x].root != t
    {
      AncestorIsRoot(a, x);
    }
  }

  lemma SubtasksAfterGrowth(a: map<Id, Task>, b: map<Id, Task>, t: Id, r: Id)
    requires Grows(a, b, t) && r != t
    ensures b[t].root != r ==> Subtasks(b, r) == Subtasks(a, r)
    ensures b[t].root == r ==> Subtasks(b, r) == Subtasks(a, r) + {t}
  {
    forall x
      ensures x in Subtasks(b, r) <==> x in Subtasks(a, r) || (x == t && b[t].root == r)
    {
      if x in a {
        assert SameHead(a[x], b[x]);
      }
    }
  }

  lemma GrowthKeepsNarrow(a: map<Id, Task>, b: map<Id, Task>, t: Id)
    requires Grows(a, b, t) && ParentsFirst(a) && Rooted(a) && Narrow(a)
    requires b[t].root == t || |Subtasks(a, b[t].root)| < 1000
    ensures Narrow(b)
  {
    NewTaskHasNoSubtasks(a, b, t);
    forall r | r in b
      ensures |Subtasks(b, r)| <= 1000
    {
      if r != t {
        SubtasksAfterGrowth(a, b, t, r);
        assert |Subtasks(a, r)| <= 1000;
      }
    }
  }

  lemma BudgetsAfterGrowth(a: map<Id, Task>, b: map<Id, Task>, t: Id, p: Id)
    requires Grows(a, b, t) && p in a
    ensures b[t].parent != Some(p) ==> ChildBudgets(b, p) == ChildBudgets(a, p)
    ensures b[t].parent == Some(p) ==> ChildBudgets(b, p) == ChildBudgets(a, p)[t := Tokens(b[t].budget)]
  {
    forall x | x in a
      ensures b[x].parent == a[x].parent && b[x].budget == a[x].budget
    {
      assert SameHead(a[x], b[x]);
    }
  }

  lemma ChildlessAtBirth(a: map<Id, Task>, b: map<Id, Task>, t: Id)
    requires Grows(a, b, t) && ParentsFirst(a)
    ensures TokensAllocated(b, t) == 0
  {
    assert ChildBudgets(b, t) == map[];
  }

  lemma GrowthKeepsFunding(a: map<Id, Task>, b: map<Id, Task>, t: Id)
    requires Grows(a, b, t) && Funded(a) && ParentsFirst(a)
    requires b[t].parent.Some? ==>
               TokensAllocated(a, b[t].parent.value) + Tokens(b[t].budget) <= Tokens(a[b[t].parent.value].budget)
    ensures Funded(b)
  {
    forall p | p in b
      ensures TokensAllocated(b, p) <= Tokens(b[p].budget)
    {
      if p == t {
        ChildlessAtBirth(a, b, t);
      } else {
        hide Sum, ParentsFirst;
        BudgetsAfterGrowth(a, b, t, p);
        assert TokensAllocated(a, p) <= Tokens(a[p].budget);
        if b[t].parent == Some(p) {
          SumInsert(ChildBudgets(a, p), t, Tokens(b[t].budget));
        }
      }
    }
  }

  // The parent's own limits are below the global ones.
  lemma ChildGuardsBound(a: map<Id, Task>, child: Task)
    requires ParentsFirst(a) && child.parent.Some? && child.parent.value in a && ChildGuards(a, child)
    requires ValidBudget(a[child.parent.value].budget)
    ensures child.root == Ancestor(a, child.parent.value) && Depth(a, child.parent.value) + 1 <= 16
    ensures |Subtasks(a, child.root)| < 1000
  {
    var p := child.parent.value;
    WalkFindsAncestor(a, p, [p], 0);
    var limits := a[p].budget;
    assert MaxDepth in limits ==> InLimits(MaxDepth, limits[MaxDepth]);
    assert MaxSubtasks in limits ==> InLimits(MaxSubtasks, limits[MaxSubtasks]);
  }

  lemma GrowthKeepsTree(a: map<Id, Task>, b: map<Id, Task>, t: Id, m: Id)
    requires Tree(a, t) && Grows(a, b, t) && ValidBudget(b[t].budget) && t < m
    requires if b[t].parent.None? then RootGuards(b, t) else ChildGuards(a, b[t])
    ensures Tree(b, m)
  {
    GrowthKeepsChains(a, b, t);
    if b[t].parent.Some? {
      ChildGuardsBound(a, b[t]);
    }
    GrowthKeepsNarrow(a, b, t);
    GrowthKeepsFunding(a, b, t);
    forall x | x in b
      ensures x < m && ValidBudget(b[x].budget) && b[x].root == Ancestor(b, x) && Depth(b, x) <= 16
    {
      if x in a {
        assert SameHead(a[x], b[x]);
      }
    }
  }

  lemma ForestStepKeepsTree(a: map<Id, Task>, b: map<Id, Task>, n: Id, m: Id)
    requires Tree(a, n) && ForestStep(a, b, n)
    requires if b.Keys == a.Keys then n <= m else n < m
    ensures Tree(b, m)
  {
    if b.Keys == a.Keys {
      KeepsChains(a, b);
      KeepsNarrow(a, b);
      KeepsFunding(a, b);
    } else {
      GrowthKeepsTree(a, b, n, m);
    }
  }
}
