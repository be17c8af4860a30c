/** The bounded conversation context: which earlier turns and which artifact references a run gets to
    see. Sizes of rendered payloads are parameters. */
module HistorySelection {
  import opened Foundation

  // ----- budgets -----

  function BoundedChars(maxChars: int): (n: nat) {
    if maxChars < 4000 then 4000 else if maxChars > 256000 then 256000 else maxChars
  }

  function AtLeast(floor: nat, share: real): (n: nat) {
    if share.Floor < floor then floor else share.Floor
  }

  function HistoryBudget(bounded: nat): (n: nat) { AtLeast(1000, bounded as real * 0.55) }
  function SummaryBudget(bounded: nat): (n: nat) { AtLeast(1000, bounded as real * 0.25) }
  function ArtifactBudget(bounded: nat): (n: nat) { AtLeast(500, bounded as real * 0.15) }

  /** The size is clamped to 4000 to 256000; the parts are 55, 25 and 15 percent of it, rounded down (their
      minimum sizes never take effect), and together never ask for more than the whole. */
  lemma BudgetsFit(maxChars: int)
    ensures var bounded := BoundedChars(maxChars);
      && 4000 <= bounded <= 256000 && (4000 <= maxChars <= 256000 ==> bounded == maxChars)
      && (maxChars < 4000 ==> bounded == 4000) && (maxChars > 256000 ==> bounded == 256000)
      && 100 * HistoryBudget(bounded) <= 55 * bounded < 100 * HistoryBudget(bounded) + 100
      && 100 * SummaryBudget(bounded) <= 25 * bounded < 100 * SummaryBudget(bounded) + 100
      && 100 * ArtifactBudget(bounded) <= 15 * bounded < 100 * ArtifactBudget(bounded) + 100
      && HistoryBudget(bounded) + SummaryBudget(bounded) + ArtifactBudget(bounded) <= bounded
  {
    var b := BoundedChars(maxChars) as real;
    assert b >= 4000.0;
    assert b * 0.55 + b * 0.25 + b * 0.15 == b * 0.95;
    assert (b * 0.55).Floor as real <= b * 0.55 && (b * 0.25).Floor as real <= b * 0.25 && (b * 0.15).Floor as real <= b * 0.15;
    assert (b * 0.55) >= 2200.0 && (b * 0.25) >= 1000.0 && (b * 0.15) >= 600.0;
  }

  // ----- earlier turns -----

  /** What a turn counts for: the newest one is counted shortened when it alone is too big. */
  function Counted<T>(newestFirst: seq<T>, i: nat, budget: nat, size: T -> nat, shortened: T -> nat): (n: nat)
    requires i < |newestFirst|
  {
    if i == 0 && size(newestFirst[0]) > budget then shortened(newestFirst[0]) else size(newestFirst[i])
  }

  /** What the newest `n` turns count for together. */
  function Consumed<T>(newestFirst: seq<T>, n: nat, budget: nat, size: T -> nat, shortened: T -> nat): (total: nat)
    requires n <= |newestFirst|
  {
    if n == 0 then 0
    else Consumed(newestFirst, n - 1, budget, size, shortened) + Counted(newestFirst, n - 1, budget, size, shortened)
  }

  function FullSize<T>(turns: seq<T>, size: T -> nat): (total: nat) {
    if turns == [] then 0 else size(turns[0]) + FullSize(turns[1..], size)
  }

  /** The newest `n` turns, oldest first. */
  function Chronological<T>(newestFirst: seq<T>, n: nat): (turns: seq<T>)
    requires n <= |newestFirst|
    ensures |turns| == n
    ensures forall i :: 0 <= i < n ==> turns[i] == newestFirst[n - 1 - i]
  {
    seq(n, i requires 0 <= i < n => newestFirst[n - 1 - i])
  }

  /** Everything counts in full but the newest turn, which counts shortened when it alone is too big. */
  lemma {:induction false} ConsumedExactly<T>(newestFirst: seq<T>, n: nat, budget: nat, size: T -> nat, shortened: T -> nat)
    requires 0 < n <= |newestFirst|
    ensures Consumed(newestFirst, n, budget, size, shortened)
         == (if size(newestFirst[0]) > budget then shortened(newestFirst[0]) else size(newestFirst[0])) + FullSize(newestFirst[1..n], size)
    decreases n
  {
    if n > 1 {
      ConsumedExactly(newestFirst, n - 1, budget, size, shortened);
      assert newestFirst[1..n] == newestFirst[1..n - 1] + [newestFirst[n - 1]];
      FullSizeMore(newestFirst[1..n - 1], newestFirst[n - 1], size);
    }
  }

  lemma {:induction false} FullSizeMore<T>(turns: seq<T>, turn: T, size: T -> nat)
    ensures FullSize(turns + [turn], size) == FullSize(turns, size) + size(turn)
    decreases |turns|
  {
    if turns != [] {
      FullSizeMore(turns[1..], turn, size);
      assert (turns + [turn])[1..] == turns[1..] + [turn];
    }
  }

  lemma {:induction false} ConsumedGrows<T>(newestFirst: seq<T>, m: nat, n: nat, budget: nat, size: T -> nat, shortened: T -> nat)
    requires m <= n <= |newestFirst|
    ensures Consumed(newestFirst, m, budget, size, shortened) <= Consumed(newestFirst, n, budget, size, shortened)
    decreases n
  {
    if m < n { ConsumedGrows(newestFirst, m, n - 1, budget, size, shortened); }
  }

  /** When the newest turn fits whole, what is counted is the full size of what is returned. */
  lemma {:induction false} ConsumedIsFullSize<T>(newestFirst: seq<T>, n: nat, budget: nat, size: T -> nat, shortened: T -> nat)
    requires n <= |newestFirst| && (n > 0 ==> size(newestFirst[0]) <= budget)
    ensures Consumed(newestFirst, n, budget, size, shortened) == FullSize(Chronological(newestFirst, n), size)
    decreases n
  {
    if n > 0 {
      ConsumedIsFullSize(newestFirst, n - 1, budget, size, shortened);
      assert Chronological(newestFirst, n)[1..] == Chronological(newestFirst, n - 1);
    }
  }

  /** `_select_recent_turns`: one contiguous stretch of the newest turns, oldest first; nothing lost
      from the count; never empty unless the input is; and the longest one that fits: beyond the
      newest turn, taking m turns is possible exactly when they count for no more than the budget.
      If the newest turn fits whole, the full sizes returned sum to at most the budget. */
  method SelectRecentTurns<T>(newestFirst: seq<T>, budget: nat, size: T -> nat, shortened: T -> nat)
    returns (selected: seq<T>, omitted: nat)
    ensures |selected| + omitted == |newestFirst|
    ensures selected == Chronological(newestFirst, |selected|)
    ensures newestFirst != [] ==> selected != []
    ensures forall m: nat {:trigger Consumed(newestFirst, m, budget, size, shortened)} :: 2 <= m <= |newestFirst| ==>
      (m <= |selected| <==> Consumed(newestFirst, m, budget, size, shortened) <= budget)
    ensures newestFirst != [] && size(newestFirst[0]) <= budget ==> FullSize(selected, size) <= budget
  {
    var taken: seq<T> := [];
    var consumed := 0;
    omitted := 0;
    var index := 0;
    while index < |newestFirst|
      invariant index <= |newestFirst| && taken == newestFirst[..index]
      invariant consumed == Consumed(newestFirst, index, budget, size, shortened)
      invariant index > 1 || (index == 1 && size(newestFirst[0]) <= budget) ==> consumed <= budget
    {
      var turn := newestFirst[index];
      var cost := size(turn);
      if taken != [] && consumed + cost > budget {
        omitted := |newestFirst| - index;
        break;
      }
      if taken == [] && cost > budget { cost := shortened(turn); }
      consumed := consumed + cost;
      taken := taken + [turn];
      index := index + 1;
    }
    selected := Reverse(taken);
    forall m: nat | 2 <= m <= |newestFirst|
      ensures m <= |selected| <==> Consumed(newestFirst, m, budget, size, shortened) <= budget
    {
      if m <= index {
        ConsumedGrows(newestFirst, m, index, budget, size, shortened);
      } else {
        ConsumedGrows(newestFirst, index + 1, m, budget, size, shortened);
      }
    }
    if newestFirst != [] && size(newestFirst[0]) <= budget {
      ConsumedIsFullSize(newestFirst, |selected|, budget, size, shortened);
    }
  }

  function Reverse<T>(s: seq<T>): (r: seq<T>) {
    seq(|s|, i requires 0 <= i < |s| => s[|s| - 1 - i])
  }

  // ----- artifact references -----

  datatype Reference = Reference(id: string, summary: Option<string>)

  predicate Mentions(raw: seq<Reference>, id: string) {
    exists i :: 0 <= i < |raw| && raw[i].id == id
  }

  /** Position of the first and of the last mention of an id. */
  function FirstMention(raw: seq<Reference>, id: string): (i: nat)
    requires Mentions(raw, id)
    ensures i < |raw| && raw[i].id == id && forall j :: 0 <= j < i ==> raw[j].id != id
  {
    if raw[0].id == id then 0
    else
      var k :| 0 <= k < |raw| && raw[k].id == id;
      assert raw[1..][k - 1].id == id;
      var i := FirstMention(raw[1..], id);
      assert forall j :: 0 < j < i + 1 ==> raw[j] == raw[1..][j - 1];
      i + 1
  }

  function LastMention(raw: seq<Reference>, id: string): (i: nat)
    requires Mentions(raw, id)
    ensures i < |raw| && raw[i].id == id && forall j :: i < j < |raw| ==> raw[j].id != id
  {
    var n := |raw| - 1;
    if raw[n].id == id then n
    else
      var k :| 0 <= k < |raw| && raw[k].id == id;
      assert raw[..n][k].id == id;
      LastMention(raw[..n], id)
  }

  ghost predicate Known(seen: seq<Reference>, order: seq<string>, values: map<string, Reference>) {
    && (forall id :: id in values <==> Mentions(seen, id))
    && (forall id :: id in values <==> id in order)
  }

  /** Each id has its latest value. */
  ghost predicate Latest(seen: seq<Reference>, values: map<string, Reference>) {
    forall id :: id in values ==> Mentions(seen, id) && values[id] == seen[LastMention(seen, id)]
  }

  /** Ids stand in order of first mention. */
  ghost predicate Ordered(seen: seq<Reference>, order: seq<string>) {
    && (forall i :: 0 <= i < |order| ==> Mentions(seen, order[i]))
    && (forall i, j :: 0 <= i < j < |order| ==> FirstMention(seen, order[i]) < FirstMention(seen, order[j]))
  }

  /** Ids listed in order of first mention, each with its latest value. */
  ghost predicate Collected(seen: seq<Reference>, order: seq<string>, values: map<string, Reference>) {
    Known(seen, order, values) && Latest(seen, values) && Ordered(seen, order)
  }

  lemma CollectKnown(seen: seq<Reference>, r: Reference, order: seq<string>, values: map<string, Reference>)
    requires Collected(seen, order, values) && r.id in values
    ensures Collected(seen + [r], order, values[r.id := r])
  {
    hide Known, Latest, Ordered;
    KnownMore(seen, r, order, order, values);
    LatestMore(seen, r, order, values);
    OrderedMore(seen, r, order);
  }

  lemma CollectNew(seen: seq<Reference>, r: Reference, order: seq<string>, values: map<string, Reference>)
    requires Collected(seen, order, values) && r.id !in values
    ensures Collected(seen + [r], order + [r.id], values[r.id := r])
  {
    hide Known, Latest, Ordered, Mentions;
    assert forall id :: id in order + [r.id] <==> id in order || id == r.id;
    KnownMore(seen, r, order, order + [r.id], values);
    LatestMore(seen, r, order, values);
    OrderedMore(seen, r, order);
    assert !Mentions(seen, r.id) by { NotKnown(seen, order, values, r.id); }
    OrderedNew(seen, r, order);
  }

  lemma NotKnown(seen: seq<Reference>, order: seq<string>, values: map<string, Reference>, id: string)
    requires Known(seen, order, values) && id !in values
    ensures !Mentions(seen, id)
  {
    hide Mentions;
  }

  lemma KnownMore(seen: seq<Reference>, r: Reference, order: seq<string>, more: seq<string>, values: map<string, Reference>)
    requires Known(seen, order, values)
    requires (more == order && r.id in values) || (forall id :: id in more <==> id in order || id == r.id)
    ensures Known(seen + [r], more, values[r.id := r])
  {
    hide Mentions;
    forall id ensures Mentions(seen + [r], id) <==> Mentions(seen, id) || id == r.id { MentionMore(seen, r, id); }
  }

  lemma LatestMore(seen: seq<Reference>, r: Reference, order: seq<string>, values: map<string, Reference>)
    requires Known(seen, order, values) && Latest(seen, values)
    ensures Latest(seen + [r], values[r.id := r])
  {
    hide Mentions, FirstMention, LastMention;
    forall id | id in values[r.id := r]
      ensures Mentions(seen + [r], id) && values[r.id := r][id] == (seen + [r])[LastMention(seen + [r], id)]
    {
      MentionMore(seen, r, id);
      MentionPlaces(seen, r, id);
    }
  }

  /** First mentions do not move. */
  lemma OrderedMore(seen: seq<Reference>, r: Reference, order: seq<string>)
    requires Ordered(seen, order)
    ensures Ordered(seen + [r], order)
  {
    hide Mentions, FirstMention, LastMention;
    forall i | 0 <= i < |order|
      ensures Mentions(seen + [r], order[i]) && Mentions(seen, order[i])
      ensures FirstMention(seen + [r], order[i]) == FirstMention(seen, order[i])
    {
      MentionMore(seen, r, order[i]);
      MentionPlaces(seen, r, order[i]);
    }
  }

  /** The first mention of a new id comes last. */
  lemma OrderedNew(seen: seq<Reference>, r: Reference, order: seq<string>)
    requires Ordered(seen, order) && Ordered(seen + [r], order) && !Mentions(seen, r.id)
    ensures Ordered(seen + [r], order + [r.id])
  {
    hide Mentions, FirstMention, LastMention;
    MentionMore(seen, r, r.id);
    MentionPlaces(seen, r, r.id);
    forall i | 0 <= i < |order|
      ensures Mentions(seen + [r], order[i]) && FirstMention(seen + [r], order[i]) < |seen|
    {
      MentionPlaces(seen, r, order[i]);
    }
  }

  /** Building a dict keyed by id and listing its values: every id once, in order of first mention,
      with the value of the last mention. */
  method Deduplicate(raw: seq<Reference>) returns (kept: seq<Reference>)
    ensures forall id :: Mentions(kept, id) <==> Mentions(raw, id)
    ensures forall i :: 0 <= i < |kept| ==> Mentions(raw, kept[i].id) && kept[i] == raw[LastMention(raw, kept[i].id)]
    ensures forall i, j :: 0 <= i < j < |kept| ==>
      Mentions(raw, kept[i].id) && Mentions(raw, kept[j].id)
      && FirstMention(raw, kept[i].id) < FirstMention(raw, kept[j].id)
  {
    var order: seq<string>, values: map<string, Reference> := [], map[];
    assert Collected([], order, values);
    hide Collected;
    for n := 0 to |raw|
      invariant Collected(raw[..n], order, values)
    {
      var r := raw[n];
      assert raw[..n + 1] == raw[..n] + [r];
      if r.id in values {
        CollectKnown(raw[..n], r, order, values);
      } else {
        CollectNew(raw[..n], r, order, values);
        order := order + [r.id];
      }
      values := values[r.id := r];
    }
    assert raw[..|raw|] == raw;
    OrderKnown(raw, order, values);
    kept := seq(|order|, i requires 0 <= i < |order| && order[i] in values => values[order[i]]);
    ListedValues(raw, order, values, kept);
  }

  lemma OrderKnown(raw: seq<Reference>, order: seq<string>, values: map<string, Reference>)
    requires Collected(raw, order, values)
    ensures forall i :: 0 <= i < |order| ==> order[i] in values
  {
    hide Mentions, Latest, Ordered;
  }

  lemma ListedValues(raw: seq<Reference>, order: seq<string>, values: map<string, Reference>, kept: seq<Reference>)
    requires Collected(raw, order, values) && |kept| == |order|
    requires forall i :: 0 <= i < |order| ==> order[i] in values && kept[i] == values[order[i]]
    ensures forall id :: Mentions(kept, id) <==> Mentions(raw, id)
    ensures forall i :: 0 <= i < |kept| ==>
      kept[i].id == order[i] && Mentions(raw, kept[i].id) && kept[i] == raw[LastMention(raw, kept[i].id)]
    ensures forall i, j :: 0 <= i < j < |kept| ==>
      Mentions(raw, kept[i].id) && Mentions(raw, kept[j].id)
      && FirstMention(raw, kept[i].id) < FirstMention(raw, kept[j].id)
  {
    hide FirstMention, LastMention;
    forall i | 0 <= i < |kept|
      ensures kept[i].id == order[i] && Mentions(raw, order[i]) && kept[i] == raw[LastMention(raw, order[i])]
    {
      assert order[i] in values;
    }
    forall id ensures Mentions(kept, id) <==> Mentions(raw, id) {
      if Mentions(raw, id) {
        assert id in order;
        var i :| 0 <= i < |order| && order[i] == id;
        assert kept[i].id == id;
      }
    }
    hide Mentions;
  }

  lemma MentionMore(seen: seq<Reference>, r: Reference, id: string)
    ensures Mentions(seen + [r], id) <==> Mentions(seen, id) || id == r.id
  {
    var more := seen + [r];
    if Mentions(seen, id) {
      var i :| 0 <= i < |seen| && seen[i].id == id;
      assert more[i].id == id;
    }
    if id == r.id { assert more[|seen|].id == id; }
  }

  lemma MentionPlaces(seen: seq<Reference>, r: Reference, id: string)
    requires Mentions(seen + [r], id)
    ensures Mentions(seen, id) ==>
      FirstMention(seen + [r], id) == FirstMention(seen, id)
      && LastMention(seen + [r], id) == if id == r.id then |seen| else LastMention(seen, id)
    ensures id == r.id ==> LastMention(seen + [r], id) == |seen|
    ensures id == r.id && !Mentions(seen, id) ==> FirstMention(seen + [r], id) == |seen|
  {
    var more := seen + [r];
    assert more[|seen|] == r && forall i :: 0 <= i < |seen| ==> more[i] == seen[i];
    var first := FirstMention(more, id);
    if Mentions(seen, id) {
      assert more[FirstMention(seen, id)].id == id && more[LastMention(seen, id)].id == id;
    }
    if first < |seen| { assert seen[first].id == id; }
  }

  /** The reference as it enters the context: its summary cut to what is left of the budget. */
  function Trim(r: Reference, left: nat): (t: Reference) {
    match r.summary
    case None => r
    case Some(text) => r.(summary := Some(if |text| <= left then text else text[..left]))
  }

  function Left(budget: nat, used: nat): (n: nat) { if used < budget then budget - used else 0 }

  /** A reference keeps its id, and of its summary as many leading characters as the budget leaves. */
  lemma TrimExactly(r: Reference, budget: nat, used: nat)
    ensures var t, left := Trim(r, Left(budget, used)), budget - used;
      && t.id == r.id && (t.summary.None? <==> r.summary.None?)
      && (r.summary.Some? ==>
            && t.summary.value <= r.summary.value
            && |t.summary.value| == if left <= 0 then 0 else if |r.summary.value| <= left then |r.summary.value| else left)
  {}

  function TotalSize(kept: seq<Reference>, size: Reference -> nat): (total: nat) {
    if kept == [] then 0 else TotalSize(kept[..|kept| - 1], size) + size(kept[|kept| - 1])
  }

  /** The bounded loop over artifact references: the longest prefix that fits, each summary cut to what
      the references before it left over; the first reference always goes in. */
  method BoundReferences(refs: seq<Reference>, budget: nat, size: Reference -> nat) returns (kept: seq<Reference>)
    ensures |kept| <= |refs| && (refs != [] ==> kept != [])
    ensures forall i :: 0 <= i < |kept| ==> kept[i] == Trim(refs[i], Left(budget, TotalSize(kept[..i], size)))
    ensures kept != [] && size(kept[0]) <= budget ==> TotalSize(kept, size) <= budget
    ensures |kept| < |refs| ==>
      TotalSize(kept, size) + size(Trim(refs[|kept|], Left(budget, TotalSize(kept, size)))) > budget
  {
    kept := [];
    var used := 0;
    var n := 0;
    while n < |refs|
      invariant n == |kept| <= |refs| && used == TotalSize(kept, size)
      invariant forall i :: 0 <= i < |kept| ==> kept[i] == Trim(refs[i], Left(budget, TotalSize(kept[..i], size)))
      invariant kept != [] && size(kept[0]) <= budget ==> used <= budget
    {
      var bounded := Trim(refs[n], Left(budget, used));
      var cost := size(bounded);
      if kept != [] && used + cost > budget { break; }
      ghost var before := kept;
      kept := kept + [bounded];
      used := used + cost;
      n := n + 1;
      assert kept[..|kept| - 1] == before;
      assert forall i :: 0 <= i < |before| ==> kept[..i] == before[..i];
    }
  }
}
