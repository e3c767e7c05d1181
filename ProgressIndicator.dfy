/** The escalation stepper (src/components/ui/progress-indicator.tsx): each of
    the five level ids is drawn completed, active or pending by comparing it
    with the current level, and a line under the steps is filled in proportion
    to the levels already passed. */
module ProgressIndicator {

  /** The ids of LEVELS, in display order. */
  const Levels: seq<int> := [1, 2, 3, 4, 5]

  datatype StepState = Completed | Active | Pending
  datatype StepIcon = CheckCircle | Clock | Circle

  /** The three flags computed per level. */
  predicate IsCompleted(id: int, current: int) { id < current }
  predicate IsActive(id: int, current: int) { id == current }
  predicate IsPending(id: int, current: int) { id > current }

  /** The one flag that holds, as a state. */
  function StateOf(id: int, current: int): (s: StepState)
    ensures s == Completed <==> IsCompleted(id, current)
    ensures s == Active <==> IsActive(id, current)
    ensures s == Pending <==> IsPending(id, current)
  {
    if IsCompleted(id, current) then Completed
    else if IsActive(id, current) then Active
    else Pending
  }

  /** Every id satisfies exactly one of the three flags. */
  lemma ExactlyOneFlag(id: int, current: int)
    ensures IsCompleted(id, current) || IsActive(id, current) || IsPending(id, current)
    ensures !(IsCompleted(id, current) && IsActive(id, current))
    ensures !(IsCompleted(id, current) && IsPending(id, current))
    ensures !(IsActive(id, current) && IsPending(id, current))
  {
  }

  /** The icon: `isCompleted ? CheckCircle : isActive ? Clock : Circle`. */
  function IconOf(id: int, current: int): StepIcon {
    if IsCompleted(id, current) then CheckCircle
    else if IsActive(id, current) then Clock
    else Circle
  }

  /** The sub-labels under a step, in render order: "Em andamento" when
      active, then "Concluído" when completed. */
  function SubLabels(id: int, current: int): seq<string> {
    (if IsActive(id, current) then ["Em andamento"] else [])
    + (if IsCompleted(id, current) then ["Concluído"] else [])
  }

  /** Completed steps show a check and "Concluído", the active one a clock and
      "Em andamento", pending ones a plain circle and no sub-label. */
  lemma StepPresentation(id: int, current: int)
    ensures StateOf(id, current) == Completed ==>
      IconOf(id, current) == CheckCircle && SubLabels(id, current) == ["Concluído"]
    ensures StateOf(id, current) == Active ==>
      IconOf(id, current) == Clock && SubLabels(id, current) == ["Em andamento"]
    ensures StateOf(id, current) == Pending ==>
      IconOf(id, current) == Circle && SubLabels(id, current) == []
  {
  }

  /** `LEVELS.map(...)`: the state of each listed id. */
  function Steps(ids: seq<int>, current: int): (r: seq<StepState>)
    ensures |r| == |ids|
    ensures forall i :: 0 <= i < |ids| ==> r[i] == StateOf(ids[i], current)
  {
    seq(|ids|, i requires 0 <= i < |ids| => StateOf(ids[i], current))
  }

  function Count(steps: seq<StepState>, s: StepState): nat {
    if steps == [] then 0
    else Count(steps[..|steps| - 1], s) + (if steps[|steps| - 1] == s then 1 else 0)
  }

  /** The ids 1, 2, ..., n. */
  function Ids(n: nat): (r: seq<int>)
    ensures |r| == n
    ensures forall i :: 0 <= i < n ==> r[i] == i + 1
  {
    seq(n, i => i + 1)
  }

  function Clamp(x: int, lo: int, hi: int): int
    requires lo <= hi
  {
    if x < lo then lo else if x > hi then hi else x
  }

  /** Over the ids 1..n, the steps before the current level are completed,
      the current one (if in range) is active, the rest pending. */
  lemma {:induction false} StepCounts(n: nat, current: int)
    ensures Count(Steps(Ids(n), current), Completed) == Clamp(current - 1, 0, n)
    ensures Count(Steps(Ids(n), current), Active) == if 1 <= current <= n then 1 else 0
    ensures Count(Steps(Ids(n), current), Pending) == Clamp(n - current, 0, n)
  {
    if n > 0 {
      var steps := Steps(Ids(n), current);
      assert steps[..n - 1] == Steps(Ids(n - 1), current);
      assert steps[n - 1] == StateOf(n, current);
      StepCounts(n - 1, current);
    }
  }

  /** For a current level in 1..5 exactly one step is active, current - 1 are
      completed and 5 - current are pending. */
  lemma LevelCounts(current: int)
    requires 1 <= current <= 5
    ensures var steps := Steps(Levels, current);
      && Count(steps, Active) == 1
      && Count(steps, Completed) == current - 1
      && Count(steps, Pending) == 5 - current
  {
    assert Levels == Ids(5);
    StepCounts(5, current);
  }

  /** Out of range, every step is pending (below 1) or completed (above 5). */
  lemma OutOfRangeCounts(current: int)
    requires current < 1 || current > 5
    ensures current < 1 ==> Count(Steps(Levels, current), Pending) == 5
    ensures current > 5 ==> Count(Steps(Levels, current), Completed) == 5
    ensures Count(Steps(Levels, current), Active) == 0
  {
    assert Levels == Ids(5);
    StepCounts(5, current);
  }

  /** The progress line's width in percent,
      `max(0, (current - 1) / (LEVELS.length - 1) * 100)`, computed exactly. */
  function LineWidth(current: int): (w: real)
    ensures w >= 0.0
    ensures current <= 1 ==> w == 0.0
    ensures current >= 1 ==> w == ((current - 1) * 25) as real
  {
    var raw := ((current - 1) as real) / ((|Levels| - 1) as real) * 100.0;
    if raw > 0.0 then raw else 0.0
  }

  /** The line is empty at level 1, full at level 5, and has no upper clamp:
      a level beyond 5 overshoots 100%. */
  lemma LineWidthEnds()
    ensures LineWidth(1) == 0.0 && LineWidth(5) == 100.0
    ensures LineWidth(6) == 125.0
  {
  }

  /** Each step forward lengthens the line by a quarter. */
  lemma LineWidthStep(current: int)
    requires current >= 1
    ensures LineWidth(current + 1) == LineWidth(current) + 25.0
  {
  }
}
