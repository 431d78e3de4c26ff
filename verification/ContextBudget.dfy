// Choosing which messages of a conversation fit the model's context, and which tools are declared.
module ContextBudget {

  datatype Item = Item(role: string, content: string)

  // Bytes of a character in UTF-8.
  function Width(c: char): nat {
    if c < '\U{0080}' then 1 else if c < '\U{0800}' then 2 else if c < '\U{10000}' then 3 else 4
  }

  function Bytes(s: string): nat {
    if s == "" then 0 else Bytes(s[..|s| - 1]) + Width(s[|s| - 1])
  }

  // A third of the bytes, rounded up, and at least one.
  function EstimateTokens(s: string): nat {
    if (Bytes(s) + 2) / 3 < 1 then 1 else (Bytes(s) + 2) / 3
  }

  const MESSAGE_OVERHEAD: nat := 8
  const LEAST_TAIL: nat := 32

  function Cost(item: Item): nat {
    EstimateTokens(item.content) + MESSAGE_OVERHEAD
  }

  function Max(a: int, b: int): int {
    if a < b then b else a
  }

  function Min(a: int, b: int): int {
    if a < b then a else b
  }

  function InputBudget(contextWindow: int, maxOutputTokens: int, toolTokens: int): (b: nat)
    ensures b >= 512
  {
    Max(512, Max(2048, contextWindow) - maxOutputTokens - toolTokens)
  }

  // ---------------------------------------------------------------- the choice, from the newest message back

  datatype Choice = Choice(kept: seq<Item>, used: nat, dropped: nat)

  // What is left of the newest message when it does not fit: its last 3 characters per free token.
  function Remaining(budget: nat, used: nat): nat {
    Max(LEAST_TAIL, budget - used - MESSAGE_OVERHEAD)
  }

  function Tail(content: string, remaining: nat): string {
    if |content| <= remaining * 3 then content else content[|content| - remaining * 3..]
  }

  function Truncated(item: Item, budget: nat, used: nat): Item {
    item.(content := Tail(item.content, Remaining(budget, used)))
  }

  // One message: whether it is kept, as what, and the total afterwards. The newest is always kept.
  predicate Keeps(item: Item, budget: nat, used: nat, newest: bool) {
    newest || used + Cost(item) <= budget
  }

  function Shown(item: Item, budget: nat, used: nat): Item {
    if used + Cost(item) <= budget then item else Truncated(item, budget, used)
  }

  function Next(item: Item, budget: nat, used: nat, newest: bool): nat {
    if used + Cost(item) <= budget then used + Cost(item)
    else if newest then used + Min(Cost(item), Remaining(budget, used) + MESSAGE_OVERHEAD)
    else used
  }

  function Choose(history: seq<Item>, budget: nat, used: nat, newest: bool): Choice {
    if history == [] then Choice([], used, 0)
    else
      var item := history[|history| - 1];
      var rest := Choose(history[..|history| - 1], budget, Next(item, budget, used, newest), false);
      if Keeps(item, budget, used, newest) then rest.(kept := rest.kept + [Shown(item, budget, used)])
      else rest.(dropped := rest.dropped + 1)
  }

  // The positions of the kept messages.
  function Kept(history: seq<Item>, budget: nat, used: nat, newest: bool): seq<nat> {
    if history == [] then []
    else
      var item := history[|history| - 1];
      var rest := Kept(history[..|history| - 1], budget, Next(item, budget, used, newest), false);
      if Keeps(item, budget, used, newest) then rest + [|history| - 1] else rest
  }

  // ---------------------------------------------------------------- the loop

  lemma Prepend(rest: Choice, item: Item, kept: seq<Item>)
    ensures (rest.kept + [item]) + kept == rest.kept + ([item] + kept)
  {
  }

  method PrepareHistory(history: seq<Item>, budget: nat, prefix: nat) returns (kept: seq<Item>, used: nat, dropped: nat)
    ensures Choice(kept, used, dropped) == Choose(history, budget, prefix, true)
  {
    hide Cost;
    used, kept, dropped := prefix, [], 0;
    var index := 0;
    assert history[..|history|] == history;
    while index < |history|
      invariant 0 <= index <= |history|
      invariant var rest := Choose(history[..|history| - index], budget, used, index == 0);
                Choose(history, budget, prefix, true) == Choice(rest.kept + kept, rest.used, rest.dropped + dropped)
    {
      var item := history[|history| - index - 1];
      var cost := Cost(item);
      assert history[..|history| - index][..|history| - index - 1] == history[..|history| - index - 1];
      ghost var rest := Choose(history[..|history| - index - 1], budget, Next(item, budget, used, index == 0), false);
      Prepend(rest, Shown(item, budget, used), kept);
      if used + cost > budget {
        if index == 0 {
          var remaining := Remaining(budget, used);
          kept := [item.(content := Tail(item.content, remaining))] + kept;
          used := used + Min(cost, remaining + MESSAGE_OVERHEAD);
        } else {
          dropped := dropped + 1;
        }
      } else {
        kept := [item] + kept;
        used := used + cost;
      }
      index := index + 1;
    }
    assert history[..0] == [];
  }

  // ---------------------------------------------------------------- what is chosen

  lemma {:induction false} UsedGrows(history: seq<Item>, budget: nat, used: nat, newest: bool)
    ensures used <= Choose(history, budget, used, newest).used
    ensures Choose(history, budget, used, newest).used <= Max(budget, used + if newest then LEAST_TAIL + MESSAGE_OVERHEAD else 0)
  {
    if history == [] {
    } else {
      var item := history[|history| - 1];
      UsedGrows(history[..|history| - 1], budget, Next(item, budget, used, newest), false);
    }
  }

  predicate Rising(idx: seq<nat>) {
    forall i, j :: 0 <= i < j < |idx| ==> idx[i] < idx[j]
  }

  // The kept messages sit at rising positions and, but for the newest, are unchanged.
  ghost predicate Subsequence(history: seq<Item>, kept: seq<Item>, idx: seq<nat>, newest: bool) {
    && |idx| == |kept| && Rising(idx)
    && (forall k :: 0 <= k < |idx| ==> idx[k] < |history|)
    && (forall k :: 0 <= k < |idx| && !(newest && idx[k] == |history| - 1) ==> kept[k] == history[idx[k]])
  }

  lemma SubsequenceGrows(older: seq<Item>, item: Item, kept: seq<Item>, idx: seq<nat>, shown: Item, newest: bool)
    requires Subsequence(older, kept, idx, false) && (newest || shown == item)
    ensures Subsequence(older + [item], kept, idx, newest)
    ensures Subsequence(older + [item], kept + [shown], idx + [|older|], newest)
  {
  }

  lemma {:induction false} KeptIsSubsequence(history: seq<Item>, budget: nat, used: nat, newest: bool)
    ensures Subsequence(history, Choose(history, budget, used, newest).kept, Kept(history, budget, used, newest), newest)
    ensures |Choose(history, budget, used, newest).kept| + Choose(history, budget, used, newest).dropped == |history|
  {
    hide Subsequence;
    if history == [] {
      assert Subsequence([], [], [], newest) by { NothingKept(newest); }
    } else {
      var older, item := history[..|history| - 1], history[|history| - 1];
      var next := Next(item, budget, used, newest);
      KeptIsSubsequence(older, budget, next, false);
      assert older + [item] == history;
      SubsequenceGrows(older, item, Choose(older, budget, next, false).kept, Kept(older, budget, next, false), 
                       if newest then Shown(item, budget, used) else item, newest);
    }
  }

  lemma NothingKept(newest: bool)
    ensures Subsequence([], [], [], newest)
  {
  }

  // A suffix of a text.
  predicate IsTail(t: string, s: string) {
    |t| <= |s| && t == s[|s| - |t|..]
  }

  lemma NewestIsKept(history: seq<Item>, budget: nat, used: nat)
    requires history != []
    ensures var kept, idx := Choose(history, budget, used, true).kept, Kept(history, budget, used, true);
            && kept != [] && idx != [] && idx[|idx| - 1] == |history| - 1
            && kept[|kept| - 1].role == history[|history| - 1].role
            && IsTail(kept[|kept| - 1].content, history[|history| - 1].content)
  {
  }

  lemma {:induction false} DroppedOverflows(history: seq<Item>, budget: nat, used: nat, newest: bool, i: nat)
    requires i < |history| && i !in Kept(history, budget, used, newest)
    ensures Choose(history, budget, used, newest).used + Cost(history[i]) > budget
  {
    var older, item := history[..|history| - 1], history[|history| - 1];
    var next := Next(item, budget, used, newest);
    var rest := Kept(older, budget, next, false);
    UsedGrows(older, budget, next, false);
    assert |older| in rest + [|older|];
    assert forall k :: k in rest ==> k in rest + [|older|];
    if i < |older| {
      DroppedOverflows(older, budget, next, false, i);
    }
  }

  // The context keeps, in order, the newest message or the end of it and every older message that
  // still fits; it accounts for every message; its estimate stays within the budget, or exceeds the
  // prefix by at most 40; and every message left out would still overflow the final estimate.
  lemma ContextIsWellChosen(history: seq<Item>, budget: nat, prefix: nat)
    ensures var choice, idx := Choose(history, budget, prefix, true), Kept(history, budget, prefix, true);
            && |choice.kept| + choice.dropped == |history|
            && choice.used <= Max(budget, prefix + 40)
            && |idx| == |choice.kept| && Rising(idx) && (forall k :: 0 <= k < |idx| ==> idx[k] < |history|)
            && (forall k :: 0 <= k < |idx| && idx[k] < |history| - 1 ==> choice.kept[k] == history[idx[k]])
            && (history != [] ==>
                  && idx != [] && idx[|idx| - 1] == |history| - 1
                  && IsTail(choice.kept[|idx| - 1].content, history[|history| - 1].content))
            && (forall i :: 0 <= i < |history| && i !in idx ==> choice.used + Cost(history[i]) > budget)
  {
    UsedGrows(history, budget, prefix, true);
    KeptIsSubsequence(history, budget, prefix, true);
    if history != [] {
      NewestIsKept(history, budget, prefix);
    }
    forall i | 0 <= i < |history| && i !in Kept(history, budget, prefix, true)
      ensures Choose(history, budget, prefix, true).used + Cost(history[i]) > budget
    {
      DroppedOverflows(history, budget, prefix, true, i);
    }
  }

  // With a prefix that leaves room for the newest message, and a window that leaves room for input,
  // the estimate, the answer and the declared tools together fit the context window.
  lemma ContextFitsWindow(history: seq<Item>, prefix: nat, contextWindow: int, maxOutputTokens: int, toolTokens: int)
    requires prefix + 40 <= InputBudget(contextWindow, maxOutputTokens, toolTokens)
    ensures var window, budget := Max(2048, contextWindow), InputBudget(contextWindow, maxOutputTokens, toolTokens);
            var used := Choose(history, budget, prefix, true).used;
            && used <= budget
            && (maxOutputTokens + toolTokens <= window - 512 ==> used + maxOutputTokens + toolTokens <= window)
  {
    UsedGrows(history, InputBudget(contextWindow, maxOutputTokens, toolTokens), prefix, true);
  }

  // ---------------------------------------------------------------- how honest the estimate is

  function Total(items: seq<Item>): nat {
    if items == [] then 0 else Total(items[..|items| - 1]) + Cost(items[|items| - 1])
  }

  lemma TotalAppends(items: seq<Item>, item: Item)
    ensures Total(items + [item]) == Total(items) + Cost(item)
  {
    assert (items + [item])[..|items|] == items;
  }

  lemma {:induction false} UsedIsTotal(history: seq<Item>, budget: nat, used: nat)
    ensures var choice := Choose(history, budget, used, false); choice.used == used + Total(choice.kept)
  {
    if history == [] {
    } else {
      var item := history[|history| - 1];
      var next := Next(item, budget, used, false);
      UsedIsTotal(history[..|history| - 1], budget, next);
      TotalAppends(Choose(history[..|history| - 1], budget, next, false).kept, item);
    }
  }

  lemma {:induction false} TailBytes(s: string, t: string)
    requires IsTail(t, s)
    ensures Bytes(t) <= Bytes(s) && |t| <= Bytes(t)
  {
    if t == "" {
    } else {
      assert s[..|s| - 1][|s| - |t|..] == t[..|t| - 1];
      TailBytes(s[..|s| - 1], t[..|t| - 1]);
    }
  }

  // The manifest's estimate covers what is sent exactly when the newest message fits, or the tail kept
  // of it has at most 3 bytes per token it was given; characters of several bytes can break that.
  lemma EstimateCoversIff(history: seq<Item>, budget: nat, prefix: nat)
    requires history != []
    ensures var choice, item := Choose(history, budget, prefix, true), history[|history| - 1];
            prefix + Total(choice.kept) <= choice.used <==>
              prefix + Cost(item) <= budget ||
              Bytes(Tail(item.content, Remaining(budget, prefix))) <= 3 * Remaining(budget, prefix)
  {
    hide Bytes, Cost, Choose, Total;
    var older, item := history[..|history| - 1], history[|history| - 1];
    var next := Next(item, budget, prefix, true);
    ChooseNewest(history, budget, prefix);
    UsedIsTotal(older, budget, next);
    TotalAppends(Choose(older, budget, next, false).kept, Shown(item, budget, prefix));
    CutCost(item.content, Remaining(budget, prefix));
    CostOf(item);
    CostOf(Truncated(item, budget, prefix));
  }

  lemma ChooseNewest(history: seq<Item>, budget: nat, used: nat)
    requires history != []
    ensures var item := history[|history| - 1];
            var rest := Choose(history[..|history| - 1], budget, Next(item, budget, used, true), false);
            Choose(history, budget, used, true) == rest.(kept := rest.kept + [Shown(item, budget, used)])
  {
  }

  lemma CostOf(item: Item)
    ensures Cost(item) == EstimateTokens(item.content) + MESSAGE_OVERHEAD
  {
  }

  // The tail costs at most what it was given exactly when its bytes fit.
  lemma CutCost(content: string, remaining: nat)
    requires remaining >= 1
    ensures var cost := EstimateTokens(Tail(content, remaining));
            cost <= Min(EstimateTokens(content), remaining) <==> Bytes(Tail(content, remaining)) <= 3 * remaining
  {
    TailBytes(content, Tail(content, remaining));
  }

  // Ninety-seven two-byte characters in a full context: 32 tokens are counted, 64 are sent.
  lemma {:induction false} BytesOf(c: char, n: nat)
    ensures Bytes(seq(n, _ => c)) == n * Width(c)
  {
    if n == 0 {
    } else {
      var s := seq(n, _ => c);
      assert s[..n - 1] == seq(n - 1, _ => c);
      BytesOf(c, n - 1);
    }
  }

  lemma EstimateCanFallShort()
    ensures var history := [Item("user", seq(97, _ => '\U{00E9}'))];
            var choice := Choose(history, 512, 512, true);
            choice.used == 512 + 40 && 512 + Total(choice.kept) == 512 + 72
  {
    var text := seq(97, _ => '\U{00E9}');
    var item := Item("user", text);
    BytesOf('\U{00E9}', 97);
    BytesOf('\U{00E9}', 96);
    assert Tail(text, 32) == seq(96, _ => '\U{00E9}');
    var cut := Truncated(item, 512, 512);
    assert [item][..0] == [] && [cut][..0] == [];
    assert Choose([], 512, 552, false) == Choice([], 552, 0);
    assert Choose([item], 512, 512, true).kept == [] + [cut] == [cut];
    assert Total([cut]) == Total([]) + Cost(cut);
  }

  // ---------------------------------------------------------------- declared tools

  // A tool's declaration costs some tokens; tools that write without an approval gate are not exposed.
  datatype Tool = Tool(name: string, tokens: nat, safeMethod: bool, writing: bool, confirmed: bool, autonomous: bool)

  predicate Exposed(t: Tool) {
    t.safeMethod || !t.writing || t.confirmed || t.autonomous
  }

  function Declared(tools: seq<Tool>, budget: int): seq<Tool> {
    if tools == [] then []
    else
      var rest, t := Declared(tools[..|tools| - 1], budget), tools[|tools| - 1];
      if Exposed(t) && t.tokens <= budget && Tokens(rest) + t.tokens <= budget then rest + [t] else rest
  }

  function Tokens(tools: seq<Tool>): nat {
    if tools == [] then 0 else Tokens(tools[..|tools| - 1]) + tools[|tools| - 1].tokens
  }

  method ToolDeclarations(tools: seq<Tool>, budget: int) returns (declarations: seq<Tool>)
    ensures declarations == Declared(tools, budget)
  {
    declarations := [];
    var used := 0;
    for i := 0 to |tools|
      invariant declarations == Declared(tools[..i], budget) && used == Tokens(declarations)
    {
      var tool := tools[i];
      assert tools[..i + 1][..i] == tools[..i];
      if !Exposed(tool) {
        continue;
      }
      if declarations != [] && used + tool.tokens > budget {
        continue;
      }
      if tool.tokens > budget {
        continue;
      }
      assert (declarations + [tool])[..|declarations|] == declarations;
      declarations := declarations + [tool];
      used := used + tool.tokens;
    }
    assert tools[..|tools|] == tools;
  }

  // The declarations fit the budget, no ungated write tool is among them, and an exposed tool that is
  // missing would overflow what is declared.
  lemma {:induction false} DeclarationsFit(tools: seq<Tool>, budget: int)
    ensures Declared(tools, budget) != [] ==> Tokens(Declared(tools, budget)) <= budget
    ensures forall t :: t in Declared(tools, budget) ==> t in tools && Exposed(t)
    ensures forall t :: t in tools && Exposed(t) && t !in Declared(tools, budget) ==>
              Tokens(Declared(tools, budget)) + t.tokens > budget
  {
    if tools == [] {
    } else {
      var front, last := tools[..|tools| - 1], tools[|tools| - 1];
      DeclarationsFit(front, budget);
      var rest := Declared(front, budget);
      assert (rest + [last])[..|rest|] == rest;
      assert forall t :: t in tools <==> t in front || t == last;
    }
  }
}
