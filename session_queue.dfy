/** The interleaved subject x repetition queue (core/session_queue.py).
    Repetition 1 holds every subject in order, then repetition 2, and so on;
    each item carries the stimulus list repeated shape_reps_per_subsession times. */
module SessionQueueModel {
  import opened Wrappers

  /** A queue entry's stimulus: a Shape enum member (whose `value` is `name`)
      or, in image mode, the raw name string. */
  datatype Stimulus = ShapeEnum(name: string) | RawName(name: string)

  /** One subject's full stimulus set for one repetition. Only `completed` changes. */
  datatype QueueItem = QueueItem(subject: string, rep: int, shapes: seq<Stimulus>, completed: bool)

  /** Python's `list * n`: n copies of s back to back, empty when n <= 0. */
  function Repeat<T>(s: seq<T>, n: int): (r: seq<T>)
    ensures n <= 0 ==> r == []
    ensures n > 0 ==> |r| == |s| * n
    decreases n
  {
    if n <= 0 then [] else s + Repeat(s, n - 1)
  }

  /** Element k of a repeated list is element k mod |s| of the original. */
  lemma {:induction false} RepeatAt<T>(s: seq<T>, n: int, k: int)
    requires 0 <= k < |Repeat(s, n)|
    ensures |s| > 0 && Repeat(s, n)[k] == s[k % |s|]
    decreases n
  {
    if k >= |s| {
      RepeatAt(s, n - 1, k - |s|);
      ModSubtract(k, |s|);
    }
  }

  /** Shape.from_string is applied in shape mode, the raw name is kept in image mode. */
  function ToStimuli(names: seq<string>, useRawNames: bool): (r: seq<Stimulus>)
    ensures |r| == |names|
    ensures forall i :: 0 <= i < |r| ==> r[i].name == names[i] && (r[i].RawName? <==> useRawNames)
  {
    seq(|names|, i requires 0 <= i < |names| =>
      if useRawNames then RawName(names[i]) else ShapeEnum(names[i]))
  }

  /** The stimulus list every queue item receives. */
  function Expanded(shapes: seq<string>, shapeReps: int, useRawNames: bool): seq<Stimulus> {
    Repeat(ToStimuli(shapes, useRawNames), shapeReps)
  }

  /** The k-th item of the interleaved queue over n = |subjects| subjects. */
  function ItemAt(subjects: seq<string>, k: nat, expanded: seq<Stimulus>): QueueItem
    requires |subjects| > 0
  {
    QueueItem(subjects[k % |subjects|], k / |subjects| + 1, expanded, false)
  }

  lemma DivModUnique(q: int, r: int, n: int)
    requires n > 0 && q >= 0 && 0 <= r < n
    ensures (q * n + r) / n == q && (q * n + r) % n == r
  {
    var a := q * n + r;
    var q', r' := a / n, a % n;
    assert (q' - q) * n == r - r';
    assert (q - q') * n == r' - r;
    MulMonotone(q' - q, n);
    MulMonotone(q - q', n);
  }

  lemma MulMonotone(x: int, n: int)
    requires n > 0
    ensures x >= 1 ==> x * n >= n
  {
    if x >= 1 {
      var y := x - 1;
      assert x * n == y * n + n;
      assert y * n >= 0;
    }
  }

  lemma ModSubtract(k: int, m: int)
    requires m > 0 && k >= m
    ensures (k - m) % m == k % m && (k - m) / m == k / m - 1
  {
    var q, r := k / m, k % m;
    assert k - m == (q - 1) * m + r;
    DivModUnique(q - 1, r, m);
  }

  /** The flat progress snapshot: the cursor and (subject, rep, completed) per item. */
  datatype ProgressEntry = ProgressEntry(subject: string, rep: int, completed: bool)
  datatype Progress = Progress(index: nat, items: seq<ProgressEntry>)

  /** The queue as a value: its items and its cursor. */
  datatype QueueState = QueueState(items: seq<QueueItem>, index: nat)

  /** The cursor never passes the end, and exactly the items before it are completed. */
  ghost predicate ValidState(q: QueueState) {
    && q.index <= |q.items|
    && forall k :: 0 <= k < |q.items| ==> (q.items[k].completed <==> k < q.index)
  }

  /** Two item lists hold the same work (subject, repetition, stimuli) in the same order. */
  ghost predicate SameWork(a: seq<QueueItem>, b: seq<QueueItem>) {
    && |a| == |b|
    && forall k :: 0 <= k < |a| ==>
         a[k].subject == b[k].subject && a[k].rep == b[k].rep && a[k].shapes == b[k].shapes
  }

  /** advance(): when not done, mark the current item completed and move the cursor by one. */
  function AdvanceState(q: QueueState): (r: QueueState)
    ensures q.index < |q.items| ==>
              && r.index == q.index + 1
              && |r.items| == |q.items|
              && r.items[q.index] == q.items[q.index].(completed := true)
              && forall k :: 0 <= k < |q.items| && k != q.index ==> r.items[k] == q.items[k]
    ensures q.index >= |q.items| ==> r == q
  {
    if q.index < |q.items| then
      QueueState(q.items[q.index := q.items[q.index].(completed := true)], q.index + 1)
    else q
  }

  /** reset_current(): when not done, clear the current item's completed flag; the cursor stays. */
  function ResetState(q: QueueState): (r: QueueState)
    ensures r.index == q.index && |r.items| == |q.items|
    ensures q.index < |q.items| ==> r.items[q.index] == q.items[q.index].(completed := false)
    ensures forall k :: 0 <= k < |q.items| && k != q.index ==> r.items[k] == q.items[k]
  {
    if q.index < |q.items| then
      QueueState(q.items[q.index := q.items[q.index].(completed := false)], q.index)
    else q
  }

  /** Advancing keeps the queue consistent and the work unchanged. */
  lemma AdvancePreserves(q: QueueState)
    requires ValidState(q)
    ensures ValidState(AdvanceState(q)) && SameWork(AdvanceState(q).items, q.items)
  {
  }

  /** On a consistent queue, reset_current changes nothing: the item at the
      cursor is never completed, since advance() marks an item and moves past it
      in one step. */
  lemma ResetCurrentIsNoOp(q: QueueState)
    requires ValidState(q)
    ensures ResetState(q) == q
  {
    if q.index < |q.items| {
      assert q.items[q.index].(completed := false) == q.items[q.index];
      assert q.items[q.index := q.items[q.index]] == q.items;
    }
  }

  /** n successive advance() calls. */
  function AdvanceTimes(q: QueueState, n: nat): QueueState
    decreases n
  {
    if n == 0 then q else AdvanceTimes(AdvanceState(q), n - 1)
  }

  /** After n advances the cursor has moved by n, stopping at the end, and the
      queue is still consistent with unchanged work. */
  lemma {:induction false} AdvanceTimesSpec(q: QueueState, n: nat)
    requires ValidState(q)
    ensures var r := AdvanceTimes(q, n);
      && ValidState(r)
      && SameWork(r.items, q.items)
      && r.index == if q.index + n <= |q.items| then q.index + n else |q.items|
    decreases n
  {
    if n > 0 {
      AdvancePreserves(q);
      AdvanceTimesSpec(AdvanceState(q), n - 1);
    }
  }

  /** From a fresh queue, `total` advances finish it with every item completed. */
  lemma AdvanceAllCompletes(q: QueueState)
    requires q.index == 0
    requires forall k :: 0 <= k < |q.items| ==> !q.items[k].completed
    ensures var r := AdvanceTimes(q, |q.items|);
      && r.index == |r.items| == |q.items|
      && forall k :: 0 <= k < |r.items| ==> r.items[k].completed
  {
    AdvanceTimesSpec(q, |q.items|);
  }

  class SessionQueue {
    var items: seq<QueueItem>
    var index: nat

    ghost predicate Valid()
      reads this
    {
      ValidState(State())
    }

    function State(): QueueState
      reads this
    {
      QueueState(items, index)
    }

    /** __init__: for rep in 1..repetitions, for each subject, append an item. */
    constructor (subjects: seq<string>, repetitions: int, shapes: seq<string>,
                 shapeReps: int, useRawNames: bool)
      ensures Valid() && index == 0
      ensures |items| == |subjects| * (if repetitions > 0 then repetitions else 0)
      ensures |subjects| > 0 ==> forall k :: 0 <= k < |items| ==>
                items[k] == ItemAt(subjects, k, Expanded(shapes, shapeReps, useRawNames))
    {
      var expanded := Expanded(shapes, shapeReps, useRawNames);
      var n := |subjects|;
      var acc: seq<QueueItem> := [];
      var rep := 1;
      while rep <= repetitions
        invariant 1 <= rep <= if repetitions >= 1 then repetitions + 1 else 1
        invariant |acc| == (rep - 1) * n
        invariant n > 0 ==> forall k :: 0 <= k < |acc| ==> acc[k] == ItemAt(subjects, k, expanded)
      {
        for j := 0 to n
          invariant |acc| == (rep - 1) * n + j
          invariant n > 0 ==> forall k :: 0 <= k < |acc| ==> acc[k] == ItemAt(subjects, k, expanded)
        {
          DivModUnique(rep - 1, j, n);
          acc := acc + [QueueItem(subjects[j], rep, expanded, false)];
        }
        assert |acc| == rep * n;
        rep := rep + 1;
      }
      assert repetitions >= 1 ==> |acc| == n * repetitions;
      assert repetitions < 1 ==> |acc| == 0;
      items := acc;
      index := 0;
    }

    function IsDone(): bool
      reads this
    {
      index >= |items|
    }

    /** current: the item at the cursor, or None once the queue is exhausted. */
    function Current(): (r: Option<QueueItem>)
      reads this
      ensures r.None? <==> IsDone()
      ensures r.Some? ==> index < |items| && r.value == items[index]
    {
      if index < |items| then Some(items[index]) else None
    }

    /** advance(): complete the current item, move the cursor, return the new current. */
    method Advance() returns (next: Option<QueueItem>)
      requires Valid()
      modifies this
      ensures Valid() && SameWork(items, old(items))
      ensures State() == AdvanceState(old(State()))
      ensures next == Current()
    {
      AdvancePreserves(State());
      if index < |items| {
        items := items[index := items[index].(completed := true)];
        index := index + 1;
      }
      next := Current();
    }

    /** reset_current(): clear the current item's completed flag for a retry. */
    method ResetCurrent()
      requires Valid()
      modifies this
      ensures Valid() && SameWork(items, old(items))
      ensures State() == ResetState(old(State()))
    {
      ResetCurrentIsNoOp(State());
      if index < |items| {
        items := items[index := items[index].(completed := false)];
      }
    }

    /** to_progress_dict(): the cursor and a same-order projection of every item. */
    function ToProgress(): (p: Progress)
      reads this
      ensures p.index == index && |p.items| == |items|
      ensures forall k :: 0 <= k < |items| ==>
                p.items[k] == ProgressEntry(items[k].subject, items[k].rep, items[k].completed)
    {
      var its := items;
      Progress(index, seq(|its|, k requires 0 <= k < |its| =>
        ProgressEntry(its[k].subject, its[k].rep, its[k].completed)))
    }
  }
}
