/** What can be observed after going back to a checkpoint. */
module ArenaUndo {
  import opened Alignment
  import opened ArenaState
  import opened ArenaRuns
  import opened ArenaReplay
  import opened Options

  // ----- operation sequences -----

  ghost predicate Possible(r: Run, ops: seq<Op>)
    decreases ops
  {
    ops == [] || (Allowed(r, ops[0]) && Possible(Step(r, ops[0]).0, ops[1..]))
  }

  function After(r: Run, ops: seq<Op>): Run
    requires Possible(r, ops)
    decreases ops
  {
    if ops == [] then r else After(Step(r, ops[0]).0, ops[1..])
  }

  /** An answer without the name of the chunk. */
  function Nameless(a: Answer): Answer {
    match a
    case Allocated(Granted(p, g)) => Allocated(Granted(Place(0, p.start), g))
    case _ => a
  }

  function Answers(r: Run, ops: seq<Op>): seq<Answer>
    requires Possible(r, ops)
    decreases ops
  {
    if ops == [] then [] else [Nameless(Step(r, ops[0]).1)] + Answers(Step(r, ops[0]).0, ops[1..])
  }

  /** Two arenas whose chunks on the way to the current one are the same but
      for their names. */
  ghost predicate SameButNames(r: Run, q: Run) {
    && |r.path| == |q.path|
    && (forall p :: 0 <= p < |r.path| ==> r.path[p] < |r.st.chunks| && q.path[p] < |q.st.chunks|
                                          && r.st.chunks[r.path[p]] == q.st.chunks[q.path[p]])
    && r.st.allocationCount == q.st.allocationCount
    && |r.marks| == |q.marks|
    && |r.st.checkpoints| == |q.st.checkpoints|
  }

  lemma AllowedIff(r: Run, s: Ideal, op: Op)
    requires Coupled(r, s)
    ensures Allowed(r, op) <==> IdealAllowed(s, op)
  {
    match op {
      case Rewind(k) =>
        if k < |r.marks| {
          RewindCoupled(r, s, k, |s.stack|);
        }
      case Pop => PopCoupled(r, s);
      case _ =>
    }
  }

  lemma SameNameless(a: Answer, b: Answer, c: Answer, path: seq<nat>, path': seq<nat>)
    requires SameAnswer(a, c, path) && SameAnswer(b, c, path')
    ensures Nameless(a) == Nameless(b)
  {
  }

  /** One operation on two arenas coupled to the same ideal arena. */
  lemma IndistinguishableStep(r: Run, q: Run, s: Ideal, op: Op)
    requires Coupled(r, s) && Coupled(q, s)
    ensures Allowed(r, op) <==> Allowed(q, op)
    ensures Allowed(r, op) ==>
              && IdealAllowed(s, op)
              && Coupled(Step(r, op).0, IdealStep(s, op).0) && Coupled(Step(q, op).0, IdealStep(s, op).0)
              && Nameless(Step(r, op).1) == Nameless(Step(q, op).1)
  {
    AllowedIff(r, s, op);
    AllowedIff(q, s, op);
    if Allowed(r, op) {
      StepCoupled(r, s, op);
      StepCoupled(q, s, op);
      SameNameless(Step(r, op).1, Step(q, op).1, IdealStep(s, op).1, Step(r, op).0.path, Step(q, op).0.path);
    }
  }

  /** Arenas coupled to the same ideal arena cannot be told apart. */
  lemma {:induction false} Indistinguishable(r: Run, q: Run, s: Ideal, ops: seq<Op>)
    requires Coupled(r, s) && Coupled(q, s)
    ensures Possible(r, ops) <==> Possible(q, ops)
    ensures Possible(r, ops) ==>
              Answers(r, ops) == Answers(q, ops) && SameButNames(After(r, ops), After(q, ops))
    decreases ops
  {
    if ops == [] {
      CoupledAreSame(r, q, s);
    } else {
      IndistinguishableStep(r, q, s, ops[0]);
      if Allowed(r, ops[0]) {
        Indistinguishable(Step(r, ops[0]).0, Step(q, ops[0]).0, IdealStep(s, ops[0]).0, ops[1..]);
      }
    }
  }

  lemma CoupledAreSame(r: Run, q: Run, s: Ideal)
    requires Coupled(r, s) && Coupled(q, s)
    ensures SameButNames(r, q)
  {
  }

  // ----- going back -----

  /** Operations that never give up checkpoint `k`. */
  ghost predicate Above(r: Run, ops: seq<Op>, k: nat)
    decreases ops
  {
    ops == [] ||
      (&& Allowed(r, ops[0])
       && |Step(r, ops[0]).0.marks| > k
       && Above(Step(r, ops[0]).0, ops[1..], k))
  }

  /** The checkpoint stack is cleared on the way. */
  ghost predicate Clears(ops: seq<Op>) {
    exists i :: 0 <= i < |ops| && ops[i].Clear?
  }

  lemma ClearsFirst(ops: seq<Op>)
    requires ops != []
    ensures Clears(ops) <==> ops[0].Clear? || Clears(ops[1..])
  {
    if i :| 0 <= i < |ops| && ops[i].Clear? {
      if i > 0 {
        assert ops[1..][i - 1].Clear?;
      }
    }
    if Clears(ops[1..]) {
      var j :| 0 <= j < |ops[1..]| && ops[1..][j].Clear?;
      assert ops[j + 1].Clear?;
    }
  }

  lemma {:induction false} AboveIsPossible(r: Run, ops: seq<Op>, k: nat)
    requires Above(r, ops, k)
    ensures Possible(r, ops)
    decreases ops
  {
    if ops != [] {
      AboveIsPossible(Step(r, ops[0]).0, ops[1..], k);
    }
  }

  lemma {:induction false} BelowInTwice(stack: seq<nat>, j: nat, k: nat)
    requires k <= j
    ensures BelowIn(BelowIn(stack, j), k) == BelowIn(stack, k)
  {
    if stack != [] {
      var n := |stack| - 1;
      BelowInTwice(stack[..n], j, k);
      if stack[n] < j {
        BelowInAppend(BelowIn(stack[..n], j), stack[n], k);
      } else {
        assert BelowIn(stack, j) == BelowIn(stack[..n], j);
        assert BelowIn(stack, k) == BelowIn(stack[..n], k);
      }
    }
  }

  lemma BelowInAppend(stack: seq<nat>, p: nat, k: nat)
    ensures BelowIn(stack + [p], k) == BelowIn(stack, k) + if p < k then [p] else []
  {
    assert (stack + [p])[..|stack|] == stack;
  }

  lemma {:induction false} BelowInAll(stack: seq<nat>, k: nat)
    requires forall j :: 0 <= j < |stack| ==> stack[j] < k
    ensures BelowIn(stack, k) == stack
  {
    if stack != [] {
      BelowInAll(stack[..|stack| - 1], k);
      assert stack[..|stack| - 1] + [stack[|stack| - 1]] == stack;
    }
  }

  /** What mark `k` of `s` would restore is the same in `s'`. */
  ghost predicate SameBelow(s: Ideal, s': Ideal, k: nat) {
    && k < |s.marks| && k < |s'.marks|
    && s'.marks[..k + 1] == s.marks[..k + 1]
    && BelowIn(s'.stack, k) == BelowIn(s.stack, k)
  }

  lemma RewindKeepsBelow(s: Ideal, j: nat, k: nat)
    requires k <= j < |s.marks|
    ensures SameBelow(s, IdealRewind(s, j), k)
  {
    BelowInTwice(s.stack, j, k);
    assert s.marks[..j + 1][..k + 1] == s.marks[..k + 1];
  }

  lemma PopKeepsBelow(s: Ideal, k: nat)
    requires IdealAllowed(s, Pop) && k < |s.marks| && |IdealStep(s, Pop).0.marks| > k
    ensures SameBelow(s, IdealStep(s, Pop).0, k)
  {
    if s.stack != [] {
      var n := |s.stack| - 1;
      var popped := s.(stack := s.stack[..n]);
      assert BelowIn(s.stack, k) == BelowIn(s.stack[..n], k);
      RewindKeepsBelow(popped, s.stack[n], k);
    }
  }

  lemma MarkKeepsBelow(s: Ideal, op: Op, k: nat)
    requires (op.TakeCheckpoint? || op.Push?) && IdealAllowed(s, op) && k < |s.marks|
    ensures SameBelow(s, IdealStep(s, op).0, k)
  {
    assert (s.marks + [Saved(s.chunks, s.count)])[..k + 1] == s.marks[..k + 1];
    BelowInAppend(s.stack, |s.marks|, k);
  }

  /** What is left of mark `k` and of the stack below it after some operations:
      all of it, or no stack if it was cleared. */
  ghost predicate Kept(s: Ideal, s': Ideal, k: nat, cleared: bool) {
    && k < |s.marks| && k < |s'.marks|
    && s'.marks[..k + 1] == s.marks[..k + 1]
    && BelowIn(s'.stack, k) == (if cleared then [] else BelowIn(s.stack, k))
    && (k in s'.stack ==> k in s.stack && !cleared)
  }

  lemma {:induction false} BelowInMember(stack: seq<nat>, j: nat, x: nat)
    requires x in BelowIn(stack, j)
    ensures x in stack
  {
    if stack != [] && x in BelowIn(stack[..|stack| - 1], j) {
      BelowInMember(stack[..|stack| - 1], j, x);
    }
  }

  lemma StackShrinks(s: Ideal, op: Op, k: nat)
    requires IdealAllowed(s, op) && k < |s.marks| && k in IdealStep(s, op).0.stack
    ensures k in s.stack && !op.Clear?
  {
    if op.Pop? && s.stack != [] {
      var n := |s.stack| - 1;
      BelowInMember(s.stack[..n], s.stack[n], k);
    } else if op.Rewind? {
      BelowInMember(s.stack, op.k, k);
    }
  }

  lemma StepKeeps(s: Ideal, op: Op, k: nat)
    requires IdealAllowed(s, op) && k < |s.marks| && |IdealStep(s, op).0.marks| > k
    ensures Kept(s, IdealStep(s, op).0, k, op.Clear?)
  {
    if k in IdealStep(s, op).0.stack {
      StackShrinks(s, op, k);
    }
    if op.TakeCheckpoint? || op.Push? {
      MarkKeepsBelow(s, op, k);
    } else if op.Pop? {
      PopKeepsBelow(s, k);
    } else if op.Rewind? {
      RewindKeepsBelow(s, op.k, k);
    }
  }

  lemma {:induction false} OpsKeep(r: Run, s: Ideal, ops: seq<Op>, k: nat) returns (s': Ideal)
    requires Coupled(r, s) && k < |s.marks| && Above(r, ops, k)
    ensures Possible(r, ops) && Coupled(After(r, ops), s') && Kept(s, s', k, Clears(ops))
    decreases ops
  {
    AboveIsPossible(r, ops, k);
    if ops == [] {
      s' := s;
    } else {
      var s1 := StepAbove(r, s, ops[0], k);
      s' := OpsKeep(Step(r, ops[0]).0, s1, ops[1..], k);
      ClearsFirst(ops);
    }
  }

  lemma StepAbove(r: Run, s: Ideal, op: Op, k: nat) returns (s': Ideal)
    requires Coupled(r, s) && Allowed(r, op) && k < |s.marks| && |Step(r, op).0.marks| > k
    ensures Coupled(Step(r, op).0, s') && Kept(s, s', k, op.Clear?)
  {
    StepCoupled(r, s, op);
    s' := IdealStep(s, op).0;
    assert |s'.marks| == |Step(r, op).0.marks|;
    StepKeeps(s, op, k);
  }

  /** The ideal arena of a reachable run. */
  lemma {:induction false} RunIsCoupled(trace: seq<Run>, ops: seq<Op>, i: nat) returns (s: Ideal)
    requires IsRun(trace, ops) && i < |trace|
    ensures Coupled(trace[i], s)
  {
    if i == 0 {
      s := Ideal(trace[0].st.chunks, 0, [], []);
      RunKeepsInv(trace, ops, 0);
      assert 0 in trace[0].path;
    } else {
      s := RunIsCoupled(trace, ops, i - 1);
      StepCoupled(trace[i - 1], s, ops[i - 1]);
      s := IdealStep(s, ops[i - 1]).0;
    }
  }

  /** Answers and final arenas agree for every later sequence of operations. */
  ghost predicate SameFuture(r: Run, q: Run, later: seq<Op>) {
    && (Possible(r, later) <==> Possible(q, later))
    && (Possible(r, later) ==>
          Answers(r, later) == Answers(q, later) && SameButNames(After(r, later), After(q, later)))
  }

  /** Taking a checkpoint and rewinding to it: the ideal arena of both ends. */
  lemma TakeAndBack(r: Run, s: Ideal, during: seq<Op>) returns (s1: Ideal)
    requires Coupled(r, s)
    requires Allowed(r, TakeCheckpoint) && Above(Step(r, TakeCheckpoint).0, during, |r.marks|)
    ensures var taken := Step(r, TakeCheckpoint).0;
            && Coupled(taken, s1)
            && Possible(taken, during)
            && Allowed(After(taken, during), Rewind(|r.marks|))
            && Coupled(Step(After(taken, during), Rewind(|r.marks|)).0, if Clears(during) then s1.(stack := []) else s1)
  {
    var k := |r.marks|;
    var taken := Step(r, TakeCheckpoint).0;
    StepCoupled(r, s, TakeCheckpoint);
    s1 := s.(marks := s.marks + [Saved(s.chunks, s.count)]);
    var s2 := OpsKeep(taken, s1, during, k);
    var last := After(taken, during);
    AllowedIff(last, s2, Rewind(k));
    StepCoupled(last, s2, Rewind(k));
    StackBelow(r, s);
    RestoresTo(s2, s1, k, Clears(during));
  }

  lemma StackBelow(r: Run, s: Ideal)
    requires Coupled(r, s)
    ensures BelowIn(s.stack, |r.marks|) == s.stack && |s.marks| == |r.marks|
  {
    BelowInAll(s.stack, |r.marks|);
  }

  lemma RestoresTo(s2: Ideal, s1: Ideal, k: nat, cleared: bool)
    requires Kept(s1, s2, k, cleared) && |s1.marks| == k + 1 && s1.marks[k] == Saved(s1.chunks, s1.count)
    requires BelowIn(s1.stack, k) == s1.stack
    ensures IdealRewind(s2, k) == if cleared then s1.(stack := []) else s1
  {
    assert s2.marks[..k + 1][k] == s1.marks[..k + 1][k];
    assert s1.marks[..k + 1] == s1.marks;
  }

  /** After any operations that keep a checkpoint live, rewinding to it gives
      every later sequence of operations the same answers, offsets and growth
      capacities as right after it was taken, and leaves the same arena but for
      chunk names; unless older pushed checkpoints have been cleared. */
  lemma RewindIsReplay(trace: seq<Run>, ops: seq<Op>, i: nat, during: seq<Op>, later: seq<Op>)
    requires IsRun(trace, ops) && i < |trace|
    requires Allowed(trace[i], TakeCheckpoint) && Above(Step(trace[i], TakeCheckpoint).0, during, |trace[i].marks|)
    ensures var k := |trace[i].marks|;
            var taken := Step(trace[i], TakeCheckpoint).0;
            && Possible(taken, during)
            && Allowed(After(taken, during), Rewind(k))
            && (trace[i].st.checkpoints == [] || !Clears(during) ==>
                  SameFuture(Step(After(taken, during), Rewind(k)).0, taken, later))
  {
    var s := RunIsCoupled(trace, ops, i);
    var s1 := TakeAndBack(trace[i], s, during);
    var taken := Step(trace[i], TakeCheckpoint).0;
    if trace[i].st.checkpoints == [] || !Clears(during) {
      assert s1.stack == [] || !Clears(during);
      assert s1.(stack := s1.stack) == s1;
      Indistinguishable(Step(After(taken, during), Rewind(|trace[i].marks|)).0, taken, s1, later);
    }
  }

  /** If older pushed checkpoints have been cleared, the next pop tells: it
      panics after the rewind, and did not right after the checkpoint. */
  lemma ClearedIsNotRestored(trace: seq<Run>, ops: seq<Op>, i: nat, during: seq<Op>)
    requires IsRun(trace, ops) && i < |trace|
    requires Allowed(trace[i], TakeCheckpoint) && Above(Step(trace[i], TakeCheckpoint).0, during, |trace[i].marks|)
    requires trace[i].st.checkpoints != [] && Clears(during)
    ensures var k := |trace[i].marks|;
            var taken := Step(trace[i], TakeCheckpoint).0;
            && Possible(taken, during)
            && Allowed(After(taken, during), Rewind(k))
            && !SameFuture(Step(After(taken, during), Rewind(k)).0, taken, [Pop])
  {
    var s := RunIsCoupled(trace, ops, i);
    var s1 := TakeAndBack(trace[i], s, during);
    var taken := Step(trace[i], TakeCheckpoint).0;
    PopTells(Step(After(taken, during), Rewind(|trace[i].marks|)).0, s1.(stack := []), taken, s1);
  }

  lemma PopTells(r: Run, s: Ideal, q: Run, z: Ideal)
    requires Coupled(r, s) && Coupled(q, z) && s.stack == [] && z.stack != []
    ensures !SameFuture(r, q, [Pop])
  {
    PopAnswers(r, s);
    PopAnswers(q, z);
  }

  lemma PopAnswers(r: Run, s: Ideal)
    requires Coupled(r, s)
    ensures Possible(r, [Pop]) && Answers(r, [Pop]) == [if s.stack == [] then Panicked else Done]
  {
    PopCoupled(r, s);
    OneAnswer(r, Pop);
  }

  lemma OneAnswer(r: Run, op: Op)
    requires Allowed(r, op)
    ensures Possible(r, [op]) && Answers(r, [op]) == [Nameless(Step(r, op).1)]
  {
    assert [op][1..] == [];
    assert Answers(Step(r, op).0, []) == [];
  }

  /** A rewind is a replay, for every later sequence of operations, if and only
      if there was nothing on the stack at the checkpoint or the stack has not
      been cleared since. */
  lemma RewindIsReplayIff(trace: seq<Run>, ops: seq<Op>, i: nat, during: seq<Op>)
    requires IsRun(trace, ops) && i < |trace|
    requires Allowed(trace[i], TakeCheckpoint) && Above(Step(trace[i], TakeCheckpoint).0, during, |trace[i].marks|)
    ensures var k := |trace[i].marks|;
            var taken := Step(trace[i], TakeCheckpoint).0;
            && Possible(taken, during)
            && Allowed(After(taken, during), Rewind(k))
            && ((forall later :: SameFuture(Step(After(taken, during), Rewind(k)).0, taken, later))
                <==> trace[i].st.checkpoints == [] || !Clears(during))
  {
    if trace[i].st.checkpoints != [] && Clears(during) {
      ClearedIsNotRestored(trace, ops, i, during);
    } else {
      RewindIsReplay(trace, ops, i, during, []);
      forall later
        ensures SameFuture(Step(After(Step(trace[i], TakeCheckpoint).0, during), Rewind(|trace[i].marks|)).0,
                           Step(trace[i], TakeCheckpoint).0, later)
      {
        RewindIsReplay(trace, ops, i, during, later);
      }
    }
  }

  /** An arena with one checkpoint pushed and a second one taken. */
  function PushedThenTaken(): Run {
    var cps := [Checkpoint(0, 0, 0, 0), Checkpoint(0, 0, 1, 0)];
    Run(State([ChunkState(4096, 0)], 0, cps[..1], 2, 0, 0, 1), [], cps, [0, 0], [0])
  }

  lemma PushThenTake() returns (trace: seq<Run>)
    ensures IsRun(trace, [Push, TakeCheckpoint])
    ensures trace[0] == Fresh(ChunkState(4096, 0)) && trace[2] == PushedThenTaken()
  {
    AlignUpOfMultiple(4096, CHUNK_ALIGN);
    assert NewChunk(4096, true) == Some(ChunkState(4096, 0));
    var r0 := Fresh(ChunkState(4096, 0));
    var r1 := Step(r0, Push).0;
    trace := [r0, r1, Step(r1, TakeCheckpoint).0];
  }

  /** In this run a checkpoint is pushed and a second one taken.  Clear the
      stack and rewind to the second: a pop now panics, and did not before. */
  lemma ClearedExample() returns (trace: seq<Run>)
    ensures IsRun(trace, [Push, TakeCheckpoint]) && trace[0] == Fresh(ChunkState(4096, 0))
    ensures Allowed(trace[2], Pop) && Step(trace[2], Pop).1 == Done && Allowed(trace[2], Clear)
    ensures var last := Step(trace[2], Clear).0;
            && Allowed(last, Rewind(1)) && Allowed(Step(last, Rewind(1)).0, Pop)
            && Step(Step(last, Rewind(1)).0, Pop).1 == Panicked
  {
    trace := PushThenTake();
    var last := Step(PushedThenTaken(), Clear).0;
    assert last.marks[1] == Checkpoint(0, 0, 1, 0) && last.st.checkpoints == [];
    assert Step(last, Rewind(1)).0.st.checkpoints == [];
  }

  lemma PushStart(r: Run, s: Ideal) returns (s1: Ideal, s0: Ideal)
    requires Coupled(r, s) && r.st.chunks != []
    ensures var taken, pushed := Step(r, TakeCheckpoint).0, Step(r, Push).0;
            && Coupled(taken, s1) && Coupled(pushed, s0)
            && pushed.marks == r.marks + [CheckpointOf(r.st)]
            && pushed.st.checkpoints == r.st.checkpoints + [CheckpointOf(r.st)]
    ensures |s1.marks| == |r.marks| + 1 && s1.marks[|r.marks|] == Saved(s1.chunks, s1.count)
    ensures BelowIn(s1.stack, |r.marks|) == s1.stack && SameBelow(s1, s0, |r.marks|)
  {
    StepCoupled(r, s, TakeCheckpoint);
    StepCoupled(r, s, Push);
    s1 := s.(marks := s.marks + [Saved(s.chunks, s.count)]);
    s0 := s1.(stack := s.stack + [|s.marks|]);
    StackBelow(r, s);
    BelowInAppend(s.stack, |r.marks|, |r.marks|);
  }

  /** From a pushed arena to the pop that undoes the push. */
  lemma PopBack(pushed: Run, s0: Ideal, s1: Ideal, during: seq<Op>, k: nat)
    requires Coupled(pushed, s0) && |pushed.marks| == k + 1
    requires |s1.marks| == k + 1 && s1.marks[k] == Saved(s1.chunks, s1.count)
    requires BelowIn(s1.stack, k) == s1.stack && SameBelow(s1, s0, k)
    requires Above(pushed, during, k) && Possible(pushed, during) && OnTop(After(pushed, during), pushed.marks[k])
    ensures var last := After(pushed, during);
            Allowed(last, Pop) && Step(last, Pop).1 == Done && Coupled(Step(last, Pop).0, s1)
  {
    var last := After(pushed, during);
    var s2 := OpsKeep(pushed, s0, during, k);
    OpsKeepMarks(pushed, s0, during, k);
    SamePrefixAt(last.marks, pushed.marks, k);
    PopToTop(last, s2, s0, s1, k, Clears(during));
  }

  lemma SamePrefixAt(a: seq<Checkpoint>, b: seq<Checkpoint>, k: nat)
    requires k < |a| && k < |b| && a[..k + 1] == b[..k + 1]
    ensures a[k] == b[k]
  {
    assert a[k] == a[..k + 1][k] && b[k] == b[..k + 1][k];
  }

  lemma PopToTop(last: Run, s2: Ideal, s0: Ideal, s1: Ideal, k: nat, cleared: bool)
    requires Coupled(last, s2) && k < |last.marks| && OnTop(last, last.marks[k])
    requires |s1.marks| == k + 1 && s1.marks[k] == Saved(s1.chunks, s1.count)
    requires BelowIn(s1.stack, k) == s1.stack && SameBelow(s1, s0, k) && Kept(s0, s2, k, cleared)
    ensures Allowed(last, Pop) && Step(last, Pop).1 == Done && Coupled(Step(last, Pop).0, s1)
  {
    TopIs(last, s2, k);
    assert k in s2.stack;
    PopCoupled(last, s2);
    PopRestores(s2, s1, k);
  }

  /** `cp` is the checkpoint that the next pop takes. */
  predicate OnTop(r: Run, cp: Checkpoint) {
    r.st.checkpoints != [] && r.st.checkpoints[|r.st.checkpoints| - 1] == cp
  }

  lemma StepKeepsMarks(r: Run, op: Op, k: nat)
    requires Inv(r) && Allowed(r, op) && k < |r.marks| && |Step(r, op).0.marks| > k
    ensures Step(r, op).0.marks[..k + 1] == r.marks[..k + 1]
  {
    if op.Pop? && r.st.checkpoints != [] {
      PopKeepsMarks(r, k);
    } else if op.Rewind? {
      RetainKeepsMarks(r.marks, r.marks[op.k].id + 1, k);
    }
  }

  lemma PopKeepsMarks(r: Run, k: nat)
    requires Sorted(r.marks) && r.st.checkpoints != [] && k < |r.marks|
    requires Allowed(r, Pop) && |Step(r, Pop).0.marks| > k
    ensures Step(r, Pop).0.marks[..k + 1] == r.marks[..k + 1]
  {
    RetainKeepsMarks(r.marks, r.st.checkpoints[|r.st.checkpoints| - 1].id + 1, k);
  }

  lemma RetainKeepsMarks(marks: seq<Checkpoint>, id: nat, k: nat)
    requires Sorted(marks) && k < |marks|
    ensures |Retain(marks, id)| > k ==> Retain(marks, id)[..k + 1] == marks[..k + 1]
  {
    var n := RetainIsPrefix(marks, id);
  }

  lemma {:induction false} OpsKeepMarks(r: Run, s: Ideal, ops: seq<Op>, k: nat)
    requires Coupled(r, s) && k < |r.marks| && Above(r, ops, k) && Possible(r, ops)
    ensures |After(r, ops).marks| > k && After(r, ops).marks[..k + 1] == r.marks[..k + 1]
    decreases ops
  {
    if ops != [] {
      StepKeepsMarks(r, ops[0], k);
      StepCoupled(r, s, ops[0]);
      OpsKeepMarks(Step(r, ops[0]).0, IdealStep(s, ops[0]).0, ops[1..], k);
    }
  }

  /** The position recorded for the top of the stack. */
  lemma TopIs(last: Run, s: Ideal, k: nat)
    requires Coupled(last, s) && k < |last.marks| && last.st.checkpoints != []
    requires last.st.checkpoints[|last.st.checkpoints| - 1] == last.marks[k]
    ensures s.stack != [] && s.stack[|s.stack| - 1] == k
  {
    var p := s.stack[|s.stack| - 1];
    assert last.marks[p].id == last.marks[k].id;
  }

  lemma PopRestores(s2: Ideal, s1: Ideal, k: nat)
    requires IdealAllowed(s2, Pop) && s2.stack != [] && s2.stack[|s2.stack| - 1] == k
    requires SameBelow(s1, s2, k) && |s1.marks| == k + 1 && s1.marks[k] == Saved(s1.chunks, s1.count)
    requires BelowIn(s1.stack, k) == s1.stack
    ensures IdealStep(s2, Pop) == (s1, Done)
  {
    var n := |s2.stack| - 1;
    assert BelowIn(s2.stack, k) == BelowIn(s2.stack[..n], k);
    RestoredByPop(s2, s1, k, n);
  }

  lemma RestoredByPop(s2: Ideal, s1: Ideal, k: nat, n: nat)
    requires SameBelow(s1, s2, k) && |s1.marks| == k + 1 && s1.marks[k] == Saved(s1.chunks, s1.count)
    requires BelowIn(s1.stack, k) == s1.stack && n <= |s2.stack| && BelowIn(s2.stack[..n], k) == BelowIn(s2.stack, k)
    ensures IdealRewind(s2.(stack := s2.stack[..n]), k) == s1
  {
    assert s2.marks[..k + 1][k] == s1.marks[..k + 1][k];
    assert s1.marks[..k + 1] == s1.marks;
  }

  /** The same for a pushed checkpoint that is on top when it is popped; it
      cannot be once the stack has been cleared. */
  lemma PopIsReplay(trace: seq<Run>, ops: seq<Op>, i: nat, during: seq<Op>, later: seq<Op>)
    requires IsRun(trace, ops) && i < |trace|
    requires Allowed(trace[i], TakeCheckpoint) && Allowed(trace[i], Push)
    requires Above(Step(trace[i], Push).0, during, |trace[i].marks|) && Possible(Step(trace[i], Push).0, during)
    requires OnTop(After(Step(trace[i], Push).0, during), CheckpointOf(trace[i].st))
    ensures var last := After(Step(trace[i], Push).0, during);
            && Allowed(last, Pop)
            && Step(last, Pop).1 == Done
            && SameFuture(Step(last, Pop).0, Step(trace[i], TakeCheckpoint).0, later)
  {
    var s := RunIsCoupled(trace, ops, i);
    var s1, s0 := PushStart(trace[i], s);
    PopBack(Step(trace[i], Push).0, s0, s1, during, |trace[i].marks|);
    var last := After(Step(trace[i], Push).0, during);
    Indistinguishable(Step(last, Pop).0, Step(trace[i], TakeCheckpoint).0, s1, later);
  }
}
