/**
 * Priority actions of the three-stage optimizer and their global ordering.
 *
 * Each stage optimizer emits a short list of actions; the system analysis tags every
 * action with its stage, appends them in stage order and sorts the list in place with
 * `list.sort(key=priority rank)`, which is stable. Here the stable sort is specified by
 * `ByPriority` (the actions of rank 0, then of rank 1, ..., each group in input order),
 * `SortByPriority` is the in-place sort on an array, and the lemmas show that
 * `ByPriority` is sorted, a permutation and stable, and that it is the only sequence
 * with those properties.
 */
module Actions {

  import opened Shared

  datatype Priority = Critical | High | Medium | Low

  /**
   * `priority_order` of the analysis: CRITICAL 0, HIGH 1, MEDIUM 2, LOW 3. The default
   * rank 4 for an unknown priority string cannot arise: every emitted action carries one
   * of these four.
   */
  function Rank(p: Priority): (r: nat)
    ensures r <= 3
    ensures r == 0 <==> p == Critical
  {
    match p
    case Critical => 0
    case High => 1
    case Medium => 2
    case Low => 3
  }

  datatype Stage = Primary | Secondary | Tertiary

  /** What an action asks for; one constructor per `actions.append` site of the optimizers. */
  datatype ActionKind =
    | AdjustCoagulant   // increase or decrease the coagulant dose
    | AdjustMixer       // move the coagulation mixer speed
    | MonitorTurbidity  // high influent turbidity: monitor more often
    | IncreaseAeration  // dissolved oxygen too low
    | ReduceAeration    // dissolved oxygen high: save energy
    | RaiseSrt          // high organic load: raise sludge retention time
    | ReduceWasFlow     // biomass (MLSS) too low: reduce waste sludge flow
    | AdjustChlorine    // increase or decrease the chlorine dose
    | BoostUv           // high pathogen count: raise UV intensity
    | CheckSecondary    // high nitrogen: investigate the secondary stage

  /** Position of the append site in program order, primary stage first. */
  function Ordinal(k: ActionKind): nat
  {
    match k
    case AdjustCoagulant => 0
    case AdjustMixer => 1
    case MonitorTurbidity => 2
    case IncreaseAeration => 3
    case ReduceAeration => 4
    case RaiseSrt => 5
    case ReduceWasFlow => 6
    case AdjustChlorine => 7
    case BoostUv => 8
    case CheckSecondary => 9
  }

  /** The stage whose optimizer emits actions of this kind. */
  function StageOf(k: ActionKind): Stage
  {
    if Ordinal(k) < 3 then Primary else if Ordinal(k) < 7 then Secondary else Tertiary
  }

  /**
   * One priority action. The action, reason and estimated-time texts are not modelled;
   * `current` and `target` are the numbers the texts quote (an increase is target > current).
   */
  datatype Action = Action(priority: Priority, kind: ActionKind, current: real, target: real)

  /** An action after the analysis has set its `stage` field. */
  datatype StagedAction = StagedAction(stage: Stage, action: Action)

  function RankOf(x: StagedAction): nat
  {
    Rank(x.action.priority)
  }

  /** The last action of kind `k` in the list, if there is one. */
  function ActionOf(acts: seq<Action>, k: ActionKind): Option<Action>
  {
    if acts == [] then None
    else if acts[|acts| - 1].kind == k then Some(acts[|acts| - 1])
    else ActionOf(acts[..|acts| - 1], k)
  }

  lemma ActionOfAppend(acts: seq<Action>, a: Action)
    ensures forall k :: ActionOf(acts + [a], k) == if a.kind == k then Some(a) else ActionOf(acts, k)
  {
    assert (acts + [a])[..|acts|] == acts;
  }

  /** Every kind in the list is found; when no kind repeats, it is found at its own place. */
  lemma {:induction false} ActionOfIndex(acts: seq<Action>, i: int)
    requires 0 <= i < |acts|
    requires forall p, q :: 0 <= p < q < |acts| ==> acts[p].kind != acts[q].kind
    ensures ActionOf(acts, acts[i].kind) == Some(acts[i])
  {
    var n := |acts| - 1;
    if i < n {
      assert acts[n].kind != acts[i].kind;
      ActionOfIndex(acts[..n], i);
    }
  }

  /** The shape of one optimizer's list: at most three actions, all of that stage, in program order. */
  predicate StageEmission(acts: seq<Action>, s: Stage)
  {
    && |acts| <= 3
    && (forall i :: 0 <= i < |acts| ==> StageOf(acts[i].kind) == s)
    && (forall i, j :: 0 <= i < j < |acts| ==> Ordinal(acts[i].kind) < Ordinal(acts[j].kind))
  }

  /**
   * One `actions.append` of an optimizer: an action of stage `s` whose append site follows
   * that of the last action in the list keeps the list's shape, and from then on it is
   * the action of its kind.
   */
  lemma EmitNext(acts: seq<Action>, a: Action, s: Stage)
    requires StageEmission(acts, s) && |acts| < 3 && StageOf(a.kind) == s
    requires acts == [] || Ordinal(acts[|acts| - 1].kind) < Ordinal(a.kind)
    ensures StageEmission(acts + [a], s)
    ensures forall k :: ActionOf(acts + [a], k) == if a.kind == k then Some(a) else ActionOf(acts, k)
  {
    ActionOfAppend(acts, a);
  }

  /**
   * `if cond: actions.append(a)`, one guarded append of an optimizer, with what it keeps of
   * the list's shape and how it changes the action of each kind.
   */
  method AppendIf(acts: seq<Action>, cond: bool, a: Action, s: Stage) returns (r: seq<Action>)
    requires StageEmission(acts, s) && |acts| < 3 && StageOf(a.kind) == s
    requires acts == [] || Ordinal(acts[|acts| - 1].kind) < Ordinal(a.kind)
    ensures |r| == if cond then |acts| + 1 else |acts|
    ensures StageEmission(r, s)
    ensures r == [] || Ordinal(r[|r| - 1].kind) <= Ordinal(a.kind)
    ensures forall k :: ActionOf(r, k) == if cond && a.kind == k then Some(a) else ActionOf(acts, k)
  {
    r := acts;
    if cond {
      EmitNext(acts, a, s);
      r := acts + [a];
    }
  }

  /** Some action of the list is CRITICAL (looked for from the end, like `ActionOf`). */
  predicate HasCritical(acts: seq<Action>)
  {
    acts != [] && (acts[|acts| - 1].priority == Critical || HasCritical(acts[..|acts| - 1]))
  }

  /** Appending an action adds a CRITICAL one exactly when the new action is CRITICAL. */
  lemma CriticalAppend(acts: seq<Action>, a: Action)
    ensures HasCritical(acts + [a]) <==> HasCritical(acts) || a.priority == Critical
  {
    assert (acts + [a])[..|acts|] == acts;
  }

  /** `HasCritical` holds exactly when some position of the list holds a CRITICAL action. */
  lemma {:induction false} CriticalAt(acts: seq<Action>)
    ensures HasCritical(acts) <==> exists i :: 0 <= i < |acts| && acts[i].priority == Critical
  {
    if acts != [] {
      var n := |acts| - 1;
      CriticalAt(acts[..n]);
      if HasCritical(acts[..n]) {
        var i :| 0 <= i < n && acts[..n][i].priority == Critical;
        assert acts[i] == acts[..n][i];
      }
      if exists i :: 0 <= i < |acts| && acts[i].priority == Critical {
        var i :| 0 <= i < |acts| && acts[i].priority == Critical;
        if i < n {
          assert acts[..n][i] == acts[i];
        }
      }
    }
  }

  /**
   * An optimizer's list holds a CRITICAL action exactly when one of its stage's kinds
   * has a CRITICAL action.
   */
  lemma CriticalByKind(acts: seq<Action>, s: Stage)
    requires StageEmission(acts, s)
    ensures HasCritical(acts)
        <==> exists k :: StageOf(k) == s && ActionOf(acts, k).Some? && ActionOf(acts, k).value.priority == Critical
  {
    CriticalAt(acts);
    if HasCritical(acts) {
      var i :| 0 <= i < |acts| && acts[i].priority == Critical;
      ActionOfIndex(acts, i);
    }
    if exists k :: StageOf(k) == s && ActionOf(acts, k).Some? && ActionOf(acts, k).value.priority == Critical {
      var k :| StageOf(k) == s && ActionOf(acts, k).Some? && ActionOf(acts, k).value.priority == Critical;
      ActionOfFound(acts, k);
      var i :| 0 <= i < |acts| && acts[i] == ActionOf(acts, k).value;
    }
  }

  /** Actions appear in the order in which the optimizers emitted them. */
  predicate EmissionOrdered(s: seq<StagedAction>)
  {
    forall i, j :: 0 <= i < j < |s| ==> Ordinal(s[i].action.kind) < Ordinal(s[j].action.kind)
  }

  predicate SortedByRank(s: seq<StagedAction>)
  {
    forall i, j :: 0 <= i < j < |s| ==> RankOf(s[i]) <= RankOf(s[j])
  }

  /** The subsequence of actions of rank `k`, in their original order. */
  function WithRank(s: seq<StagedAction>, k: nat): (r: seq<StagedAction>)
    ensures |r| <= |s|
  {
    if s == [] then []
    else (if RankOf(s[0]) == k then [s[0]] else []) + WithRank(s[1..], k)
  }

  /** The actions of rank k are actions of the list, and all of rank k. */
  lemma {:induction false} WithRankMembers(s: seq<StagedAction>, k: nat)
    ensures forall x :: x in WithRank(s, k) ==> x in s && RankOf(x) == k
  {
    if s != [] {
      WithRankMembers(s[1..], k);
      forall x | x in WithRank(s, k) ensures x in s && RankOf(x) == k {
        if x != s[0] {
          assert x in WithRank(s[1..], k);
          assert x in s[1..];
        }
      }
    }
  }

  /** Equal-rank actions occur in the same relative order in both sequences. */
  ghost predicate SameRankOrder(s: seq<StagedAction>, t: seq<StagedAction>)
  {
    forall k: nat :: WithRank(s, k) == WithRank(t, k)
  }

  /** The actions of rank m, then those of rank m + 1, ..., up to rank 3. */
  function FromRank(s: seq<StagedAction>, m: nat): seq<StagedAction>
    decreases 4 - m
  {
    if m > 3 then [] else WithRank(s, m) + FromRank(s, m + 1)
  }

  /** The result of a stable sort by priority rank. */
  function ByPriority(s: seq<StagedAction>): seq<StagedAction>
  {
    FromRank(s, 0)
  }

  // ---------------------------------------------------------------------------------
  // Lemmas about WithRank

  lemma {:induction false} WithRankAppend(a: seq<StagedAction>, b: seq<StagedAction>, k: nat)
    ensures WithRank(a + b, k) == WithRank(a, k) + WithRank(b, k)
  {
    if a == [] {
      assert a + b == b;
    } else {
      var head := if RankOf(a[0]) == k then [a[0]] else [];
      assert (a + b)[0] == a[0];
      assert (a + b)[1..] == a[1..] + b;
      WithRankAppend(a[1..], b, k);
      assert WithRank(a + b, k) == head + WithRank(a[1..] + b, k);
      assert WithRank(a, k) == head + WithRank(a[1..], k);
    }
  }

  lemma WithRankCons(x: StagedAction, t: seq<StagedAction>, k: nat)
    ensures WithRank([x] + t, k) == (if RankOf(x) == k then [x] else []) + WithRank(t, k)
  {
    assert ([x] + t)[0] == x;
    assert ([x] + t)[1..] == t;
  }

  lemma WithRankNone(s: seq<StagedAction>, k: nat)
    requires forall x :: x in s ==> RankOf(x) != k
    ensures WithRank(s, k) == []
  {
  }

  lemma {:induction false} WithRankTwice(s: seq<StagedAction>, j: nat, k: nat)
    ensures WithRank(WithRank(s, j), k) == if j == k then WithRank(s, k) else []
  {
    if s != [] {
      WithRankTwice(s[1..], j, k);
      var head := if RankOf(s[0]) == j then [s[0]] else [];
      WithRankAppend(head, WithRank(s[1..], j), k);
      if RankOf(s[0]) == j {
        WithRankCons(s[0], [], k);
        assert [s[0]] + [] == [s[0]];
      }
    }
  }

  lemma WithRankPairSwap(x: StagedAction, y: StagedAction, k: nat)
    requires RankOf(x) != RankOf(y)
    ensures WithRank([x, y], k) == WithRank([y, x], k)
  {
    assert [x, y] == [x] + [y] && [y, x] == [y] + [x];
    WithRankCons(x, [y], k);
    WithRankCons(y, [x], k);
    WithRankCons(x, [], k);
    WithRankCons(y, [], k);
    assert [x] + [] == [x] && [y] + [] == [y];
  }

  lemma WithRankReplaceMiddle(pre: seq<StagedAction>, m1: seq<StagedAction>, m2: seq<StagedAction>,
                              post: seq<StagedAction>, k: nat)
    requires WithRank(m1, k) == WithRank(m2, k)
    ensures WithRank(pre + m1 + post, k) == WithRank(pre + m2 + post, k)
  {
    WithRankAppend(pre + m1, post, k);
    WithRankAppend(pre, m1, k);
    WithRankAppend(pre + m2, post, k);
    WithRankAppend(pre, m2, k);
  }

  /** Swapping two neighbours of different rank keeps every rank's subsequence. */
  lemma SwapKeepsRankOrder(s: seq<StagedAction>, j: int)
    requires 0 < j < |s|
    requires RankOf(s[j - 1]) != RankOf(s[j])
    ensures SameRankOrder(s[j - 1 := s[j]][j := s[j - 1]], s)
  {
    var t := s[j - 1 := s[j]][j := s[j - 1]];
    var pre, post := s[..j - 1], s[j + 1..];
    assert s == pre + [s[j - 1], s[j]] + post;
    assert t == pre + [s[j], s[j - 1]] + post;
    forall k: nat
      ensures WithRank(t, k) == WithRank(s, k)
    {
      WithRankPairSwap(s[j], s[j - 1], k);
      WithRankReplaceMiddle(pre, [s[j], s[j - 1]], [s[j - 1], s[j]], post, k);
    }
  }

  // ---------------------------------------------------------------------------------
  // Lemmas about FromRank and ByPriority

  lemma {:induction false} FromRankNil(m: nat)
    ensures FromRank([], m) == []
    decreases 4 - m
  {
    if m <= 3 {
      FromRankNil(m + 1);
    }
  }

  lemma {:induction false} FromRankSkip(x: StagedAction, t: seq<StagedAction>, m: nat)
    requires RankOf(x) < m
    ensures FromRank([x] + t, m) == FromRank(t, m)
    decreases 4 - m
  {
    if m <= 3 {
      WithRankCons(x, t, m);
      assert WithRank([x] + t, m) == [] + WithRank(t, m) == WithRank(t, m);
      FromRankSkip(x, t, m + 1);
      assert FromRank([x] + t, m) == WithRank(t, m) + FromRank(t, m + 1);
    }
  }

  /** An action of rank m in front goes first among the actions of rank m and above. */
  lemma FromRankHead(x: StagedAction, t: seq<StagedAction>)
    ensures FromRank([x] + t, RankOf(x)) == [x] + FromRank(t, RankOf(x))
  {
    var m := RankOf(x);
    WithRankCons(x, t, m);
    FromRankSkip(x, t, m + 1);
    calc {
      FromRank([x] + t, m);
      WithRank([x] + t, m) + FromRank([x] + t, m + 1);
      ([x] + WithRank(t, m)) + FromRank(t, m + 1);
      [x] + (WithRank(t, m) + FromRank(t, m + 1));
    }
  }

  lemma {:induction false} FromRankCons(x: StagedAction, t: seq<StagedAction>, m: nat)
    requires m <= RankOf(x)
    requires forall y :: y in t ==> RankOf(x) <= RankOf(y)
    ensures FromRank([x] + t, m) == [x] + FromRank(t, RankOf(x))
    decreases RankOf(x) - m
  {
    if m == RankOf(x) {
      FromRankHead(x, t);
    } else {
      WithRankCons(x, t, m);
      WithRankNone(t, m);
      FromRankCons(x, t, m + 1);
      assert FromRank([x] + t, m) == [] + FromRank([x] + t, m + 1);
    }
  }

  lemma {:induction false} SortedIsFromRank(t: seq<StagedAction>, m: nat)
    requires SortedByRank(t)
    requires forall y :: y in t ==> m <= RankOf(y)
    ensures t == FromRank(t, m)
    decreases |t|
  {
    if t == [] {
      FromRankNil(m);
    } else {
      var x, rest := t[0], t[1..];
      assert t == [x] + rest;
      assert forall y :: y in rest ==> RankOf(x) <= RankOf(y) by {
        forall y | y in rest ensures RankOf(x) <= RankOf(y) {
          var i :| 0 <= i < |rest| && rest[i] == y;
          assert t[i + 1] == y;
        }
      }
      FromRankCons(x, rest, m);
      SortedIsFromRank(rest, RankOf(x));
    }
  }

  lemma {:induction false} SameRankOrderFromRank(s: seq<StagedAction>, t: seq<StagedAction>, m: nat)
    requires SameRankOrder(s, t)
    ensures FromRank(s, m) == FromRank(t, m)
    decreases 4 - m
  {
    if m <= 3 {
      SameRankOrderFromRank(s, t, m + 1);
    }
  }

  /**
   * Uniqueness of the stable sort: a sequence sorted by rank whose every rank class is the
   * input's rank class, in the input's order, is ByPriority of the input.
   */
  lemma SortedUnique(t: seq<StagedAction>, s: seq<StagedAction>)
    requires SortedByRank(t)
    requires SameRankOrder(t, s)
    ensures t == ByPriority(s)
  {
    SortedIsFromRank(t, 0);
    SameRankOrderFromRank(t, s, 0);
  }

  lemma {:induction false} WithRankFromRank(s: seq<StagedAction>, m: nat, k: nat)
    ensures WithRank(FromRank(s, m), k) == if m <= k then WithRank(s, k) else []
    decreases 4 - m
  {
    if m > 3 {
      if m <= k {
        WithRankNone(s, k);
      }
    } else {
      WithRankAppend(WithRank(s, m), FromRank(s, m + 1), k);
      WithRankTwice(s, m, k);
      WithRankFromRank(s, m + 1, k);
    }
  }

  /** Stability: ByPriority keeps the relative order of actions of equal rank. */
  lemma ByPriorityStable(s: seq<StagedAction>)
    ensures SameRankOrder(ByPriority(s), s)
  {
    forall k: nat
      ensures WithRank(ByPriority(s), k) == WithRank(s, k)
    {
      WithRankFromRank(s, 0, k);
    }
  }

  lemma {:induction false} FromRankSorted(s: seq<StagedAction>, m: nat)
    ensures SortedByRank(FromRank(s, m))
    ensures forall x :: x in FromRank(s, m) ==> m <= RankOf(x)
    decreases 4 - m
  {
    if m <= 3 {
      FromRankSorted(s, m + 1);
      WithRankMembers(s, m);
      var w, rest := WithRank(s, m), FromRank(s, m + 1);
      var all := w + rest;
      forall i, j | 0 <= i < j < |all|
        ensures RankOf(all[i]) <= RankOf(all[j])
      {
        if j < |w| {
          assert all[i] == w[i] && all[j] == w[j];
          assert w[i] in w && w[j] in w;
        } else if i < |w| {
          assert all[i] == w[i] && w[i] in w;
          assert all[j] == rest[j - |w|] && rest[j - |w|] in rest;
        } else {
          assert all[i] == rest[i - |w|] && all[j] == rest[j - |w|];
        }
      }
    }
  }

  /** ByPriority lists the actions in non-decreasing rank: CRITICAL first, LOW last. */
  lemma ByPrioritySorted(s: seq<StagedAction>)
    ensures SortedByRank(ByPriority(s))
  {
    FromRankSorted(s, 0);
  }

  /** The actions of rank at least m, gathered rank class by rank class. */
  function ClassesFrom(s: seq<StagedAction>, m: nat): multiset<StagedAction>
    decreases 4 - m
  {
    if m > 3 then multiset{} else multiset(WithRank(s, m)) + ClassesFrom(s, m + 1)
  }

  lemma {:induction false} ClassesFromCons(x: StagedAction, t: seq<StagedAction>, m: nat)
    ensures ClassesFrom([x] + t, m)
         == (if m <= RankOf(x) then multiset{x} else multiset{}) + ClassesFrom(t, m)
    decreases 4 - m
  {
    if m <= 3 {
      WithRankCons(x, t, m);
      ClassesFromCons(x, t, m + 1);
    }
  }

  /** Every action falls in exactly one rank class. */
  lemma {:induction false} ClassesCover(s: seq<StagedAction>)
    ensures ClassesFrom(s, 0) == multiset(s)
    decreases |s|
  {
    if s == [] {
      assert ClassesFrom(s, 4) == multiset{};
    } else {
      assert s == [s[0]] + s[1..];
      ClassesFromCons(s[0], s[1..], 0);
      ClassesCover(s[1..]);
    }
  }

  lemma {:induction false} FromRankClasses(s: seq<StagedAction>, m: nat)
    ensures multiset(FromRank(s, m)) == ClassesFrom(s, m)
    decreases 4 - m
  {
    if m <= 3 {
      FromRankClasses(s, m + 1);
    }
  }

  /** ByPriority is a permutation of its input: no action is lost or duplicated. */
  lemma ByPriorityPermutes(s: seq<StagedAction>)
    ensures multiset(ByPriority(s)) == multiset(s)
    ensures |ByPriority(s)| == |s|
  {
    FromRankClasses(s, 0);
    ClassesCover(s);
    assert |multiset(ByPriority(s))| == |ByPriority(s)|;
  }

  /** A subsequence of an emission-ordered list is emission-ordered. */
  lemma {:induction false} WithRankKeepsEmissionOrder(s: seq<StagedAction>, k: nat)
    requires EmissionOrdered(s)
    ensures EmissionOrdered(WithRank(s, k))
  {
    if s != [] {
      var rest := s[1..];
      assert EmissionOrdered(rest) by {
        forall i, j | 0 <= i < j < |rest|
          ensures Ordinal(rest[i].action.kind) < Ordinal(rest[j].action.kind)
        {
          assert rest[i] == s[i + 1] && rest[j] == s[j + 1];
        }
      }
      WithRankKeepsEmissionOrder(rest, k);
      WithRankMembers(rest, k);
      var w := WithRank(rest, k);
      if RankOf(s[0]) == k {
        var all := [s[0]] + w;
        forall i, j | 0 <= i < j < |all|
          ensures Ordinal(all[i].action.kind) < Ordinal(all[j].action.kind)
        {
          if i == 0 {
            assert all[j] == w[j - 1] && w[j - 1] in w;
            var q :| 0 <= q < |rest| && rest[q] == w[j - 1];
            assert s[q + 1] == rest[q];
          } else {
            assert all[i] == w[i - 1] && all[j] == w[j - 1];
          }
        }
      }
    }
  }

  /** The action of kind `k` found by ActionOf is in the list. */
  lemma {:induction false} ActionOfFound(acts: seq<Action>, k: ActionKind)
    requires ActionOf(acts, k).Some?
    ensures ActionOf(acts, k).value in acts && ActionOf(acts, k).value.kind == k
  {
    if acts[|acts| - 1].kind != k {
      ActionOfFound(acts[..|acts| - 1], k);
    }
  }

  /** A kind that no action of the list has is not found. */
  lemma {:induction false} ActionOfAbsent(acts: seq<Action>, k: ActionKind)
    requires forall i :: 0 <= i < |acts| ==> acts[i].kind != k
    ensures ActionOf(acts, k) == None
  {
    if acts != [] {
      ActionOfAbsent(acts[..|acts| - 1], k);
    }
  }

  /**
   * An optimizer's list is determined by the action it holds of each kind: two lists of
   * the same stage's shape that agree kind by kind are equal.
   */
  lemma {:induction false} EmissionDetermined(a: seq<Action>, b: seq<Action>, s: Stage)
    requires StageEmission(a, s) && StageEmission(b, s)
    requires forall k :: ActionOf(a, k) == ActionOf(b, k)
    ensures a == b
    decreases |a|
  {
    if a != [] || b != [] {
      BothNonEmpty(a, b);
      SameLast(a, b, s);
      var a', b' := a[..|a| - 1], b[..|b| - 1];
      SamePrefix(a, b, s, a', b');
      EmissionPrefix(a, s);
      EmissionPrefix(b, s);
      EmissionDetermined(a', b', s);
      assert a == a' + [a[|a| - 1]];
      assert b == b' + [b[|b| - 1]];
    }
  }

  /** Two lists that agree kind by kind are both empty or both not. */
  lemma BothNonEmpty(a: seq<Action>, b: seq<Action>)
    requires a != [] || b != []
    requires forall k :: ActionOf(a, k) == ActionOf(b, k)
    ensures a != [] && b != []
  {
    if a != [] {
      assert ActionOf(a, a[|a| - 1].kind).Some?;
    } else {
      assert ActionOf(b, b[|b| - 1].kind).Some?;
    }
  }

  /** Dropping the last action keeps a list's shape. */
  lemma EmissionPrefix(a: seq<Action>, s: Stage)
    requires StageEmission(a, s) && a != []
    ensures StageEmission(a[..|a| - 1], s)
  {
  }

  /** Two non-empty lists of one stage's shape that agree kind by kind end with the same action. */
  lemma SameLast(a: seq<Action>, b: seq<Action>, s: Stage)
    requires StageEmission(a, s) && StageEmission(b, s) && a != [] && b != []
    requires forall k :: ActionOf(a, k) == ActionOf(b, k)
    ensures a[|a| - 1] == b[|b| - 1]
  {
    var x, y := a[|a| - 1], b[|b| - 1];
    assert ActionOf(b, y.kind) == Some(y);
    ActionOfFound(a, y.kind);
    var i :| 0 <= i < |a| && a[i] == y;
    assert ActionOf(a, x.kind) == Some(x);
    ActionOfFound(b, x.kind);
    var j :| 0 <= j < |b| && b[j] == x;
    // the last action of a list has the latest append site
    assert forall p :: 0 <= p < |a| ==> Ordinal(a[p].kind) <= Ordinal(x.kind);
    assert forall p :: 0 <= p < |b| ==> Ordinal(b[p].kind) <= Ordinal(y.kind);
    assert Ordinal(a[i].kind) <= Ordinal(x.kind) && Ordinal(b[j].kind) <= Ordinal(y.kind);
    assert x.kind == y.kind;
  }

  /** Dropping the same last action from two lists that agree kind by kind leaves lists that agree. */
  lemma SamePrefix(a: seq<Action>, b: seq<Action>, s: Stage, a': seq<Action>, b': seq<Action>)
    requires StageEmission(a, s) && StageEmission(b, s) && a != [] && b != []
    requires forall k :: ActionOf(a, k) == ActionOf(b, k)
    requires a[|a| - 1] == b[|b| - 1]
    requires a' == a[..|a| - 1] && b' == b[..|b| - 1]
    ensures forall k :: ActionOf(a', k) == ActionOf(b', k)
  {
    var x := a[|a| - 1];
    forall k
      ensures ActionOf(a', k) == ActionOf(b', k)
    {
      if k == x.kind {
        assert forall p :: 0 <= p < |a'| ==> Ordinal(a[p].kind) < Ordinal(x.kind);
        assert forall p :: 0 <= p < |b'| ==> Ordinal(b[p].kind) < Ordinal(x.kind);
        ActionOfAbsent(a', k);
        ActionOfAbsent(b', k);
      } else {
        assert ActionOf(a', k) == ActionOf(a, k);
        assert ActionOf(b', k) == ActionOf(b, k);
      }
    }
  }

  /**
   * The inner loop's invariant while `s[j]`, the action being inserted, moves left: the
   * first i + 1 actions without it are in rank order, and it has a smaller rank than every
   * action it has passed.
   */
  predicate Inserting(s: seq<StagedAction>, i: int, j: int)
    requires 0 <= j <= i < |s|
  {
    && (forall p, q :: 0 <= p < q <= i && q != j ==> RankOf(s[p]) <= RankOf(s[q]))
    && (forall q :: j < q <= i ==> RankOf(s[j]) < RankOf(s[q]))
  }

  /** Before the inner loop, the sorted prefix gives its invariant. */
  lemma InsertionStart(s: seq<StagedAction>, i: int)
    requires 0 <= i < |s|
    requires SortedByRank(s[..i])
    ensures Inserting(s, i, i)
  {
    forall p, q | 0 <= p < q <= i && q != i ensures RankOf(s[p]) <= RankOf(s[q]) {
      assert s[..i][p] == s[p] && s[..i][q] == s[q];
    }
  }

  /** One swap of the inner loop keeps its invariant, one place further left. */
  lemma SwapStep(s: seq<StagedAction>, i: int, j: int)
    requires 0 < j <= i < |s|
    requires Inserting(s, i, j)
    requires RankOf(s[j]) < RankOf(s[j - 1])
    ensures Inserting(s[j - 1 := s[j]][j := s[j - 1]], i, j - 1)
  {
    var t := s[j - 1 := s[j]][j := s[j - 1]];
    forall p, q | 0 <= p < q <= i && q != j - 1 ensures RankOf(t[p]) <= RankOf(t[q]) {
      if q == j {
        if p < j - 1 {
          assert RankOf(s[p]) <= RankOf(s[j - 1]);
        }
      } else if p == j - 1 {
        assert RankOf(s[j]) < RankOf(s[q]);
      } else if p == j {
        assert RankOf(s[j - 1]) <= RankOf(s[q]);
      }
    }
  }

  /** When the inner loop stops, the first i + 1 actions are in rank order. */
  lemma InsertionStep(s: seq<StagedAction>, i: int, j: int)
    requires 0 <= j <= i < |s|
    requires Inserting(s, i, j)
    requires j == 0 || RankOf(s[j - 1]) <= RankOf(s[j])
    ensures SortedByRank(s[..i + 1])
  {
    forall p | 0 <= p < j ensures RankOf(s[p]) <= RankOf(s[j]) {
      if p < j - 1 {
        assert RankOf(s[p]) <= RankOf(s[j - 1]);
      }
    }
  }

  lemma SameRankOrderTrans(x: seq<StagedAction>, y: seq<StagedAction>, z: seq<StagedAction>)
    requires SameRankOrder(x, y) && SameRankOrder(y, z)
    ensures SameRankOrder(x, z)
  {
  }

  // ---------------------------------------------------------------------------------
  // The in-place sort

  /**
   * `all_actions.sort(key=lambda x: priority_order.get(x['priority'], 4))`: a stable
   * in-place sort, here an insertion sort that swaps neighbours of different rank only.
   */
  method SortByPriority(a: array<StagedAction>)
    modifies a
    ensures SortedByRank(a[..])
    ensures SameRankOrder(a[..], old(a[..]))
    ensures a[..] == ByPriority(old(a[..]))
  {
    var i := 0;
    while i < a.Length
      invariant 0 <= i <= a.Length
      invariant SortedByRank(a[..i])
      invariant SameRankOrder(a[..], old(a[..]))
    {
      InsertIntoPrefix(a, i);
      i := i + 1;
    }
    assert a[..i] == a[..];
    SortedUnique(a[..], old(a[..]));
  }

  /**
   * One pass of the insertion sort: moves `a[i]` left past the actions of greater rank,
   * so that the sorted prefix grows by one.
   */
  method InsertIntoPrefix(a: array<StagedAction>, i: int)
    requires 0 <= i < a.Length
    requires SortedByRank(a[..i])
    modifies a
    ensures SortedByRank(a[..i + 1])
    ensures SameRankOrder(a[..], old(a[..]))
    ensures a[i + 1..] == old(a[i + 1..])
  {
    InsertionStart(a[..], i);
    var j := i;
    while 0 < j && RankOf(a[j]) < RankOf(a[j - 1])
      invariant 0 <= j <= i
      invariant SameRankOrder(a[..], old(a[..]))
      invariant Inserting(a[..], i, j)
      invariant a[i + 1..] == old(a[i + 1..])
    {
      ghost var before := a[..];
      SwapStep(before, i, j);
      SwapKeepsRankOrder(before, j);
      a[j - 1], a[j] := a[j], a[j - 1];
      assert a[..] == before[j - 1 := before[j]][j := before[j - 1]];
      SameRankOrderTrans(a[..], before, old(a[..]));
      j := j - 1;
    }
    InsertionStep(a[..], i, j);
  }
}
