/**
 * The "loading overlay" reducer that both beer view models run on each
 * emission they collect, and the merge of two flows they collect from.
 */
module LoadingOverlay {
  import opened Wrappers
  import opened DataStates

  /**
   * One emission: a loading emission sets the flag on the current state and
   * keeps its data, error and empty marker; any other emission replaces it.
   */
  function Step<T>(current: DataState<T>, incoming: DataState<T>): (r: DataState<T>)
    ensures incoming.loading ==>
      r.loading && r.data == current.data && r.exception == current.exception && r.empty == current.empty
    ensures !incoming.loading ==> r == incoming
  {
    if incoming.loading then current.(loading := true) else incoming
  }

  /** The state after collecting `es` one by one, starting from `s`. */
  function Replay<T>(s: DataState<T>, es: seq<DataState<T>>): DataState<T>
    decreases |es|
  {
    if |es| == 0 then s else Step(Replay(s, es[..|es| - 1]), es[|es| - 1])
  }

  /** A second loading emission changes nothing. */
  lemma LoadingIdempotent<T>(s: DataState<T>, l: DataState<T>)
    requires l.loading
    ensures Step(Step(s, l), l) == Step(s, l)
  {
  }

  /** The index of the last emission that is not a loading marker, if any. */
  function LastReplacement<T>(es: seq<DataState<T>>): (k: Option<nat>)
    ensures k.Some? ==>
      k.value < |es| && !es[k.value].loading && forall j :: k.value < j < |es| ==> es[j].loading
    ensures k.None? ==> forall j :: 0 <= j < |es| ==> es[j].loading
    decreases |es|
  {
    if |es| == 0 then None
    else if !es[|es| - 1].loading then Some(|es| - 1)
    else
      var k := LastReplacement(es[..|es| - 1]);
      assert forall j :: 0 <= j < |es| - 1 ==> es[..|es| - 1][j] == es[j];
      k
  }

  /**
   * What a run of the reducer leaves: the last non-loading emission (with
   * the flag set if loading markers came after it), or the starting state
   * with the flag set if only loading markers came.
   */
  lemma {:induction false} ReplayResult<T>(s: DataState<T>, es: seq<DataState<T>>)
    ensures Replay(s, es) == match LastReplacement(es)
      case None => if |es| == 0 then s else s.(loading := true)
      case Some(k) => if k == |es| - 1 then es[k] else es[k].(loading := true)
  {
    if |es| > 0 && es[|es| - 1].loading {
      var front := es[..|es| - 1];
      ReplayResult(s, front);
      assert LastReplacement(es) == LastReplacement(front);
      match LastReplacement(front)
      case None =>
      case Some(k) => assert front[k] == es[k];
    }
  }

  /** Loading never erases: after loading markers only, data, error and empty are those of the start. */
  lemma LoadingKeepsData<T>(s: DataState<T>, es: seq<DataState<T>>)
    requires forall j :: 0 <= j < |es| ==> es[j].loading
    ensures Replay(s, es).data == s.data
    ensures Replay(s, es).exception == s.exception
    ensures Replay(s, es).empty == s.empty
  {
    ReplayResult(s, es);
  }

  /**
   * One interleaving of two flows, as `flattenMerge` delivers them: `pick`
   * says, emission by emission, which flow delivers next (`true` for `a`);
   * once one flow is done or `pick` runs out the rest follows in order.
   */
  function Merge<T>(a: seq<T>, b: seq<T>, pick: seq<bool>): (r: seq<T>)
    ensures |r| == |a| + |b|
    ensures multiset(r) == multiset(a) + multiset(b)
    decreases |a| + |b|
  {
    if |a| == 0 then b
    else if |b| == 0 || |pick| == 0 then a + b
    else if pick[0] then
      assert a == [a[0]] + a[1..];
      [a[0]] + Merge(a[1..], b, pick[1..])
    else
      assert b == [b[0]] + b[1..];
      [b[0]] + Merge(a, b[1..], pick[1..])
  }

  /** Which flow delivers each emission of `Merge(a, b, pick)` when `|a| == na` and `|b| == nb` (`true` for `a`). */
  function Sides(na: nat, nb: nat, pick: seq<bool>): (r: seq<bool>)
    ensures |r| == na + nb
    decreases na + nb
  {
    if na == 0 then seq(nb, _ => false)
    else if nb == 0 || |pick| == 0 then seq(na, _ => true) + seq(nb, _ => false)
    else if pick[0] then [true] + Sides(na - 1, nb, pick[1..])
    else [false] + Sides(na, nb - 1, pick[1..])
  }

  /** The elements of `r` at the positions where `sides` is `want`, in order. */
  function Select<T>(r: seq<T>, sides: seq<bool>, want: bool): seq<T>
    requires |r| == |sides|
    decreases |r|
  {
    if |r| == 0 then []
    else (if sides[0] == want then [r[0]] else []) + Select(r[1..], sides[1..], want)
  }

  lemma {:induction false} SelectAppend<T>(r1: seq<T>, s1: seq<bool>, r2: seq<T>, s2: seq<bool>, want: bool)
    requires |r1| == |s1| && |r2| == |s2|
    ensures Select(r1 + r2, s1 + s2, want) == Select(r1, s1, want) + Select(r2, s2, want)
    decreases |r1|
  {
    if |r1| == 0 {
      assert r1 + r2 == r2 && s1 + s2 == s2;
    } else {
      assert (r1 + r2)[0] == r1[0] && (s1 + s2)[0] == s1[0];
      assert (r1 + r2)[1..] == r1[1..] + r2;
      assert (s1 + s2)[1..] == s1[1..] + s2;
      SelectAppend(r1[1..], s1[1..], r2, s2, want);
    }
  }

  lemma {:induction false} SelectUniform<T>(r: seq<T>, side: bool, want: bool)
    ensures Select(r, seq(|r|, _ => side), want) == if side == want then r else []
    decreases |r|
  {
    if |r| > 0 {
      assert seq(|r|, _ => side)[1..] == seq(|r| - 1, _ => side);
      SelectUniform(r[1..], side, want);
    }
  }

  /** Once one flow is done or the schedule runs out, the rest of `a` then of `b` splits back into `a` and `b`. */
  lemma {:induction false} TailKeepsOrder<T>(a: seq<T>, b: seq<T>)
    ensures Select(a + b, seq(|a|, _ => true) + seq(|b|, _ => false), true) == a
    ensures Select(a + b, seq(|a|, _ => true) + seq(|b|, _ => false), false) == b
  {
    SelectAppend(a, seq(|a|, _ => true), b, seq(|b|, _ => false), true);
    SelectAppend(a, seq(|a|, _ => true), b, seq(|b|, _ => false), false);
    SelectUniform(a, true, true);
    SelectUniform(a, true, false);
    SelectUniform(b, false, true);
    SelectUniform(b, false, false);
  }

  /** Selecting after a first element: it is kept exactly when its side is the one wanted. */
  lemma SelectCons<T>(x: T, r: seq<T>, side: bool, sides: seq<bool>, want: bool)
    requires |r| == |sides|
    ensures Select([x] + r, [side] + sides, want) == (if side == want then [x] else []) + Select(r, sides, want)
  {
    assert ([x] + r)[1..] == r && ([side] + sides)[1..] == sides;
  }

  /** One scheduled step of `Merge` and of `Sides`: the picked flow delivers its head first. */
  lemma MergeStep<T>(a: seq<T>, b: seq<T>, pick: seq<bool>)
    requires |a| > 0 && |b| > 0 && |pick| > 0
    ensures pick[0] ==> Merge(a, b, pick) == [a[0]] + Merge(a[1..], b, pick[1..])
    ensures pick[0] ==> Sides(|a|, |b|, pick) == [true] + Sides(|a| - 1, |b|, pick[1..])
    ensures !pick[0] ==> Merge(a, b, pick) == [b[0]] + Merge(a, b[1..], pick[1..])
    ensures !pick[0] ==> Sides(|a|, |b|, pick) == [false] + Sides(|a|, |b| - 1, pick[1..])
  {
  }

  /**
   * `flattenMerge` keeps each flow's own order: the emissions that came from
   * `a` are exactly `a`, in order, and those that came from `b` are exactly `b`.
   */
  lemma {:induction false} MergeKeepsOrder<T>(a: seq<T>, b: seq<T>, pick: seq<bool>)
    ensures Select(Merge(a, b, pick), Sides(|a|, |b|, pick), true) == a
    ensures Select(Merge(a, b, pick), Sides(|a|, |b|, pick), false) == b
    decreases |a| + |b|
  {
    if |a| == 0 {
      SelectUniform(b, false, true);
      SelectUniform(b, false, false);
    } else if |b| == 0 || |pick| == 0 {
      TailKeepsOrder(a, b);
    } else if pick[0] {
      MergeStep(a, b, pick);
      MergeKeepsOrder(a[1..], b, pick[1..]);
      var m := Merge(a[1..], b, pick[1..]);
      var sd := Sides(|a| - 1, |b|, pick[1..]);
      SelectCons(a[0], m, true, sd, true);
      SelectCons(a[0], m, true, sd, false);
      assert a == [a[0]] + a[1..];
    } else {
      MergeStep(a, b, pick);
      MergeKeepsOrder(a, b[1..], pick[1..]);
      var m := Merge(a, b[1..], pick[1..]);
      var sd := Sides(|a|, |b| - 1, pick[1..]);
      SelectCons(b[0], m, false, sd, true);
      SelectCons(b[0], m, false, sd, false);
      assert b == [b[0]] + b[1..];
    }
  }
}
