/** Exactly when leaving a scope, or a push/pop block, restores the state in
    which it was entered. */
module ArenaScopeLimits {
  import opened Alignment
  import opened ArenaState
  import opened ArenaRuns
  import opened ArenaScopes

  // ----- one body -----

  /** The chunk in which the scope was entered is there again: it is the first
      one, or there are enough chunks and the one at its place is large enough. */
  predicate PlaceIsThere(base: State, st: State)
    requires base.current < |base.chunks|
  {
    || base.current == 0
    || (base.current < |st.chunks| && base.chunks[base.current].used <= st.chunks[base.current].capacity)
  }

  /** The chunks of `base` are there, and those below its current one are used
      as they were. */
  ghost predicate ChunksKept(base: State, st: State) {
    && base.current < |base.chunks| <= |st.chunks|
    && (forall i :: 0 <= i < |base.chunks| ==> st.chunks[i].capacity == base.chunks[i].capacity)
    && (forall i :: 0 <= i < base.current ==> st.chunks[i].used == base.chunks[i].used)
  }

  /** The checkpoints that were on the stack of `base` are still on it, and no
      others from before. */
  ghost predicate StackKeptOf(base: State, st: State) {
    Retain(st.checkpoints, base.nextId) == base.checkpoints
  }

  ghost function BodyEnd(body: seq<Prog>, base: State, scopes: seq<Checkpoint>): (State, Mode)
    requires AllWellNested(body, |scopes| + 1) && base.chunks != []
  {
    ExecAll(body, Taken(base), scopes + [CheckpointOf(base)])
  }

  lemma BodyEndOnward(body: seq<Prog>, base: State, scopes: seq<Checkpoint>)
    requires AllWellNested(body, |scopes| + 1) && Good(base)
    ensures var (st, mode) := BodyEnd(body, base, scopes);
            !mode.Dead? ==> Onward(base, st) && (PlaceIsThere(base, st) <==> Rewindable(st, CheckpointOf(base)))
  {
    ExecAllOnward(body, Taken(base), scopes + [CheckpointOf(base)]);
    assert ChunkOk(base.chunks[base.current]);
    assert Taken(base).chunks == base.chunks;
    var (st, mode) := BodyEnd(body, base, scopes);
    assert !mode.Dead? ==> Onward(Taken(base), st) && st.chunks[0].capacity == base.chunks[0].capacity;
  }

  /** For every body, whatever it resets, clears or shrinks: the rewind that ends
      the scope succeeds if and only if the place of the scope's entry is there,
      and panics otherwise; and the scope restores its entry state if and only
      if the body leaves the chunks below that place and the stack as they were. */
  lemma ScopeRestoresIff(body: seq<Prog>, base: State, scopes: seq<Checkpoint>)
    requires AllWellNested(body, |scopes| + 1) && Good(base)
    requires !BodyEnd(body, base, scopes).1.Dead?
    ensures var (st, mode) := BodyEnd(body, base, scopes);
            var (st', mode') := Exec(Scoped(body), base, scopes);
            && (PlaceIsThere(base, st) <==> Rewindable(st, CheckpointOf(base)))
            && (PlaceIsThere(base, st) ==> mode' == mode && st' == RewindTo(st, CheckpointOf(base)))
            && (!PlaceIsThere(base, st) ==> mode' == Unwinding && st' == st)
            && (Restored(base, st') <==> ChunksKept(base, st) && StackKeptOf(base, st))
  {
    BodyEndOnward(body, base, scopes);
    var (st, mode) := BodyEnd(body, base, scopes);
    if PlaceIsThere(base, st) {
      RewoundRestoredIff(base, st);
    } else {
      assert ChunkOk(base.chunks[base.current]);
      assert base.current < |st.chunks| ==> st.chunks[base.current] != base.chunks[base.current];
    }
  }

  lemma RewoundRestoredIff(base: State, st: State)
    requires Good(base) && Good(st) && Rewindable(st, CheckpointOf(base))
    ensures Restored(base, RewindTo(st, CheckpointOf(base))) <==> ChunksKept(base, st) && StackKeptOf(base, st)
  {
    var st' := RewindTo(st, CheckpointOf(base));
    if Restored(base, st') {
      forall i | 0 <= i < |base.chunks|
        ensures st.chunks[i].capacity == base.chunks[i].capacity
        ensures i < base.current ==> st.chunks[i].used == base.chunks[i].used
      {
        assert st'.chunks[i] == base.chunks[i];
      }
    }
  }

  /** A scope that restores its entry state leaves the recomputed `bytes_used`,
      so it restores that figure too exactly when it was not below the used
      bytes: when no padding had been skipped since it was last recomputed. */
  lemma ScopeRestoresBytesUsedIff(body: seq<Prog>, base: State, scopes: seq<Checkpoint>)
    requires AllWellNested(body, |scopes| + 1) && Good(base) && !BodyEnd(body, base, scopes).1.Dead?
    requires Restored(base, Exec(Scoped(body), base, scopes).0)
    ensures var st' := Exec(Scoped(body), base, scopes).0;
            && st'.bytesUsed == SumUsed(base.chunks)
            && (st'.bytesUsed == base.bytesUsed <==> base.bytesUsed == SumUsed(base.chunks))
  {
    ScopeRestoresIff(body, base, scopes);
    var (st, mode) := BodyEnd(body, base, scopes);
    assert ChunkOk(base.chunks[base.current]);
    assert PlaceIsThere(base, st);
    RecomputedBytes(base, st);
  }

  lemma RecomputedBytes(base: State, st: State)
    requires Good(base) && Rewindable(st, CheckpointOf(base)) && Restored(base, RewindTo(st, CheckpointOf(base)))
    ensures RewindTo(st, CheckpointOf(base)).bytesUsed == SumUsed(base.chunks)
  {
    var n := base.current + 1;
    assert RewindTo(st, CheckpointOf(base)).chunks[..n] == base.chunks[..n];
    SumUsedPrefix(base.chunks, n);
  }

  // ----- bodies that shrink -----

  /** Once cleared, the stack holds only what is pushed later. */
  ghost predicate NewSince(st: State, n: nat) {
    n <= st.nextId && forall k :: 0 <= k < |st.checkpoints| ==> n <= st.checkpoints[k].id
  }

  lemma RewindNewSince(st: State, cp: Checkpoint, n: nat)
    requires Rewindable(st, cp) && NewSince(st, n)
    ensures NewSince(RewindTo(st, cp), n)
  {
    var kept := Retain(st.checkpoints, cp.id);
    forall k | 0 <= k < |kept| ensures n <= kept[k].id {
      RetainMembers(st.checkpoints, cp.id, kept[k]);
    }
  }

  lemma PopNewSince(st: State, n: nat)
    requires NewSince(st, n) && PopAndRewind(st).Some?
    ensures NewSince(PopAndRewind(st).value, n)
  {
    var m := |st.checkpoints| - 1;
    RewindNewSince(st.(checkpoints := st.checkpoints[..m]), st.checkpoints[m], n);
  }

  lemma {:induction false} ExecNewSince(p: Prog, st: State, scopes: seq<Checkpoint>, n: nat)
    requires WellNested(p, |scopes|) && Good(st) && NewSince(st, n)
    ensures var (st', mode) := Exec(p, st, scopes); !mode.Dead? ==> NewSince(st', n)
    decreases p, 1
  {
    match p
    case Alloc(layout, memory) => AllocBumps(st, layout, memory);
    case Scoped(body) =>
      var cp := CheckpointOf(st);
      ExecAllNewSince(body, Taken(st), scopes + [cp], n);
      var (st1, mode) := ExecAll(body, Taken(st), scopes + [cp]);
      if !mode.Dead? && Rewindable(st1, cp) {
        RewindNewSince(st1, cp, n);
      }
    case ResetScope(k) =>
      if Rewindable(st, scopes[k]) {
        RewindNewSince(st, scopes[k], n);
      }
    case PushPop(body) =>
      PushedOnward(st);
      ExecAllNewSince(body, Pushed(st), scopes, n);
      var (st1, mode) := ExecAll(body, Pushed(st), scopes);
      if mode.Normal? && PopAndRewind(st1).Some? {
        PopNewSince(st1, n);
      }
    case _ =>
  }

  lemma {:induction false} ExecAllNewSince(ps: seq<Prog>, st: State, scopes: seq<Checkpoint>, n: nat)
    requires AllWellNested(ps, |scopes|) && Good(st) && NewSince(st, n)
    ensures var (st', mode) := ExecAll(ps, st, scopes); !mode.Dead? ==> NewSince(st', n)
    decreases ps, 0
  {
    if ps != [] {
      ExecNewSince(ps[0], st, scopes, n);
      ExecOnward(ps[0], st, scopes);
      var (st1, mode) := Exec(ps[0], st, scopes);
      if mode.Normal? {
        ExecAllNewSince(ps[1..], st1, scopes, n);
      }
    }
  }

  lemma {:induction false} ExecAllThen(ps: seq<Prog>, qs: seq<Prog>, st: State, scopes: seq<Checkpoint>)
    requires AllWellNested(ps, |scopes|) && AllWellNested(qs, |scopes|)
    ensures AllWellNested(ps + qs, |scopes|)
    ensures var (st1, mode) := ExecAll(ps, st, scopes);
            ExecAll(ps + qs, st, scopes) == if mode.Normal? then ExecAll(qs, st1, scopes) else (st1, mode)
    decreases ps
  {
    if ps == [] {
      assert ps + qs == qs;
    } else {
      assert (ps + qs)[0] == ps[0] && (ps + qs)[1..] == ps[1..] + qs;
      ExecAllThen(ps[1..], qs, Exec(ps[0], st, scopes).0, scopes);
    }
  }

  /** The rest of a body, from a shrink on. */
  lemma FromShrinkOn(rest: seq<Prog>, st: State, scopes: seq<Checkpoint>)
    requires AllWellNested(rest, |scopes|) && Good(st)
    ensures AllWellNested([ShrinkToFit] + rest, |scopes|)
    ensures var (st', mode) := ExecAll([ShrinkToFit] + rest, st, scopes); !mode.Dead? ==> NewSince(st', st.nextId)
  {
    assert ([ShrinkToFit] + rest)[1..] == rest;
    ExecOnward(ShrinkToFit, st, scopes);
    ExecAllNewSince(rest, ShrunkState(st), scopes, st.nextId);
  }

  lemma ShrunkBody(before: seq<Prog>, rest: seq<Prog>, st: State, scopes: seq<Checkpoint>)
    requires AllWellNested(before, |scopes|) && AllWellNested(rest, |scopes|) && Good(st)
    requires ExecAll(before, st, scopes).1.Normal?
    ensures AllWellNested(before + ([ShrinkToFit] + rest), |scopes|)
    ensures var (st', mode) := ExecAll(before + ([ShrinkToFit] + rest), st, scopes);
            !mode.Dead? ==> NewSince(st', st.nextId)
  {
    ExecAllOnward(before, st, scopes);
    var st1 := ExecAll(before, st, scopes).0;
    FromShrinkOn(rest, st1, scopes);
    ExecAllThen(before, [ShrinkToFit] + rest, st, scopes);
  }

  lemma NewStackRestoresIff(body: seq<Prog>, base: State, scopes: seq<Checkpoint>)
    requires AllWellNested(body, |scopes| + 1) && Good(base) && !BodyEnd(body, base, scopes).1.Dead?
    requires NewSince(BodyEnd(body, base, scopes).0, base.nextId)
    ensures Restored(base, Exec(Scoped(body), base, scopes).0) <==>
              base.checkpoints == [] && ChunksKept(base, BodyEnd(body, base, scopes).0)
  {
    RetainByIds(BodyEnd(body, base, scopes).0.checkpoints, base.nextId, 0);
    ScopeRestoresIff(body, base, scopes);
  }

  /** A scope whose body shrinks the arena, at any moment, restores its entry
      state if and only if no checkpoint was on the stack at the entry and the
      body leaves the chunks, as many and as large, used as they were below the
      place of the entry. */
  lemma ShrinkInScope(before: seq<Prog>, rest: seq<Prog>, base: State, scopes: seq<Checkpoint>)
    requires AllWellNested(before, |scopes| + 1) && AllWellNested(rest, |scopes| + 1) && Good(base)
    requires BodyEnd(before, base, scopes).1.Normal?
    ensures var body := before + ([ShrinkToFit] + rest);
            && AllWellNested(body, |scopes| + 1)
            && var (st, mode) := BodyEnd(body, base, scopes);
               !mode.Dead? ==>
                 (Restored(base, Exec(Scoped(body), base, scopes).0)
                  <==> base.checkpoints == [] && ChunksKept(base, st))
  {
    ShrunkBody(before, rest, Taken(base), scopes + [CheckpointOf(base)]);
    var body := before + ([ShrinkToFit] + rest);
    if !BodyEnd(body, base, scopes).1.Dead? {
      NewStackRestoresIff(body, base, scopes);
    }
  }

  // ----- every body of a kind -----

  /** What a kind of body may do besides allocating, checkpoints, scopes of its
      own and panics: reset these enclosing scopes; push without popping; clear
      the stack or cross a push/pop block; shrink the arena. */
  datatype Limits = Limits(resets: set<nat>, pushes: bool, untidy: bool, shrinks: bool)

  /** `body` stays within the limits.  It stands inside `depth` open scopes, of
      which it may reset those from `own` on in any case. */
  ghost predicate Within(body: seq<Prog>, depth: nat, own: nat, limits: Limits) {
    && AllWellNested(body, depth)
    && (forall k :: k in AllResets(body) && k < own ==> k in limits.resets)
    && (limits.pushes || AllMatched(body))
    && (limits.untidy || AllTidy(body, depth))
    && (limits.shrinks || AllShrinkFree(body))
  }

  ghost predicate ScopeFails(body: seq<Prog>, base: State, scopes: seq<Checkpoint>)
    requires AllWellNested(body, |scopes| + 1)
  {
    var (st, mode) := Exec(Scoped(body), base, scopes);
    !mode.Dead? && !Restored(base, st)
  }

  /** Whatever the body does within the limits, the scope restores its entry state. */
  ghost predicate EveryScopeRestores(base: State, scopes: seq<Checkpoint>, limits: Limits) {
    forall body :: Within(body, |scopes| + 1, |scopes|, limits) ==> !ScopeFails(body, base, scopes)
  }

  /** The entry state has nothing to lose by what the limits allow. */
  ghost predicate Spared(base: State, scopes: seq<Checkpoint>, limits: Limits) {
    && (forall k :: k in limits.resets && k < |scopes| ==> Spares(base, scopes[k]))
    && (limits.untidy ==> base.checkpoints == [])
    && (limits.shrinks ==> base.checkpoints == [] && |base.chunks| == 1)
  }

  lemma SparedRestores(base: State, scopes: seq<Checkpoint>, limits: Limits)
    requires Good(base) && Spared(base, scopes, limits)
    ensures EveryScopeRestores(base, scopes, limits)
  {
    forall body | Within(body, |scopes| + 1, |scopes|, limits) ensures !ScopeFails(body, base, scopes) {
      ScopeRestores(body, base, scopes);
    }
  }

  // The bodies that show each limit to be needed.

  lemma Alone(p: Prog, st: State, scopes: seq<Checkpoint>)
    requires WellNested(p, |scopes|)
    ensures AllWellNested([p], |scopes|) && ExecAll([p], st, scopes) == Exec(p, st, scopes)
    ensures AllResets([p]) == Resets(p) && AllMatched([p]) == Matched(p) && AllShrinkFree([p]) == ShrinkFree(p)
    ensures AllTidy([p], |scopes|) == Tidy(p, |scopes|)
  {
    assert [p][1..] == [];
  }

  lemma Pair(p: Prog, q: Prog, st: State, scopes: seq<Checkpoint>)
    requires WellNested(p, |scopes|) && WellNested(q, |scopes|)
    ensures AllWellNested([p, q], |scopes|)
    ensures Exec(p, st, scopes).1.Normal? ==>
              ExecAll([p, q], st, scopes) == Exec(q, Exec(p, st, scopes).0, scopes)
    ensures AllResets([p, q]) == Resets(p) + Resets(q) && AllMatched([p, q]) == (Matched(p) && Matched(q))
    ensures AllShrinkFree([p, q]) == (ShrinkFree(p) && ShrinkFree(q))
    ensures AllTidy([p, q], |scopes|) == (Tidy(p, |scopes|) && Tidy(q, |scopes|))
  {
    assert [p, q][1..] == [q];
    Alone(q, Exec(p, st, scopes).0, scopes);
  }

  /** Resetting a scope that does not spare the entry state, and perhaps
      allocating one byte, spoils it. */
  lemma ResetSpoils(base: State, scopes: seq<Checkpoint>, k: nat) returns (body: seq<Prog>)
    requires Good(base) && k < |scopes| && Rewindable(base, scopes[k]) && !Spares(base, scopes[k])
    ensures Within(body, |scopes| + 1, |scopes|, Limits({k}, false, false, false)) && ScopeFails(body, base, scopes)
  {
    var cp := scopes[k];
    var inner := scopes + [CheckpointOf(base)];
    var st := RewindTo(Taken(base), cp);
    RewindOnward(Taken(base), cp);
    Alone(ResetScope(k), Taken(base), inner);
    body := [ResetScope(k)];
    ScopeRestoresIff(body, base, scopes);
    if ChunksKept(base, st) && StackKeptOf(base, st) {
      KeptStackIsOlder(base, cp);
      var byte := Alloc(Layout(1, 1), true);
      body := [ResetScope(k), byte];
      Pair(ResetScope(k), byte, Taken(base), inner);
      ByteFits(base, cp);
      ScopeRestoresIff(body, base, scopes);
    }
  }

  lemma KeptStackIsOlder(base: State, cp: Checkpoint)
    requires Good(base) && Rewindable(base, cp) && StackKeptOf(base, RewindTo(Taken(base), cp))
    ensures forall k :: 0 <= k < |base.checkpoints| ==> base.checkpoints[k].id < cp.id
  {
    forall k | 0 <= k < |base.checkpoints| ensures base.checkpoints[k].id < cp.id {
      var x := base.checkpoints[k];
      RetainMembers(Retain(base.checkpoints, cp.id), base.nextId, x);
      RetainMembers(base.checkpoints, cp.id, x);
    }
  }

  /** There is room for one byte in a lower chunk that is not sealed. */
  lemma ByteFits(base: State, cp: Checkpoint)
    requires Good(base) && Rewindable(base, cp) && cp.chunkIndex < base.current
    requires ChunksKept(base, RewindTo(Taken(base), cp))
    requires !(Sealed(base, cp.chunkIndex) && cp.chunkOffset == base.chunks[cp.chunkIndex].used)
    ensures var (st, out) := AllocateRaw(RewindTo(Taken(base), cp), Layout(1, 1), true);
            out.Granted? && !ChunksKept(base, st)
  {
    var st := RewindTo(Taken(base), cp);
    assert st.chunks[cp.chunkIndex].used == base.chunks[cp.chunkIndex].used;
    forall j | cp.chunkIndex < j < base.current ensures base.chunks[j].used == 0 {
      assert st.chunks[j].used == base.chunks[j].used;
    }
    assert ChunkOk(base.chunks[cp.chunkIndex]);
    AlignUpOfMultiple(cp.chunkOffset, 1);
  }

  /** Clearing a stack that is not empty spoils the entry state ... */
  lemma ClearSpoils(base: State, scopes: seq<Checkpoint>)
    requires Good(base) && base.checkpoints != []
    ensures Within([ClearStack], |scopes| + 1, |scopes|, Limits({}, false, true, false))
    ensures ScopeFails([ClearStack], base, scopes)
  {
    Alone(ClearStack, Taken(base), scopes + [CheckpointOf(base)]);
    ScopeRestoresIff([ClearStack], base, scopes);
  }

  /** ... and so does shrinking an arena that has a stack or a second chunk. */
  lemma ShrinkSpoils(base: State, scopes: seq<Checkpoint>)
    requires Good(base) && (base.checkpoints != [] || |base.chunks| != 1)
    ensures Within([ShrinkToFit], |scopes| + 1, |scopes|, Limits({}, false, false, true))
    ensures ScopeFails([ShrinkToFit], base, scopes)
  {
    Alone(ShrinkToFit, Taken(base), scopes + [CheckpointOf(base)]);
    ScopeRestoresIff([ShrinkToFit], base, scopes);
  }

  /** In every well-formed state with any scopes open, and for every kind of
      body: leaving the scope restores its entry state whatever such a body does
      if and only if each enclosing scope that it may reset spares the entry
      state, nothing is on the stack if it may clear it or cross a push/pop
      block, and there is one chunk and nothing on the stack if it may shrink. */
  lemma EveryScopeRestoresIff(base: State, scopes: seq<Checkpoint>, limits: Limits)
    requires Good(base) && forall k :: k in limits.resets && k < |scopes| ==> Rewindable(base, scopes[k])
    ensures EveryScopeRestores(base, scopes, limits) <==> Spared(base, scopes, limits)
  {
    if Spared(base, scopes, limits) {
      SparedRestores(base, scopes, limits);
    } else {
      var body := SpoiltBy(base, scopes, limits);
    }
  }

  lemma SpoiltBy(base: State, scopes: seq<Checkpoint>, limits: Limits) returns (body: seq<Prog>)
    requires Good(base) && forall k :: k in limits.resets && k < |scopes| ==> Rewindable(base, scopes[k])
    requires !Spared(base, scopes, limits)
    ensures Within(body, |scopes| + 1, |scopes|, limits) && ScopeFails(body, base, scopes)
  {
    if limits.untidy && base.checkpoints != [] {
      ClearSpoils(base, scopes);
      body := [ClearStack];
    } else if limits.shrinks && (base.checkpoints != [] || |base.chunks| != 1) {
      ShrinkSpoils(base, scopes);
      body := [ShrinkToFit];
    } else {
      var k :| k in limits.resets && k < |scopes| && !Spares(base, scopes[k]);
      body := ResetSpoils(base, scopes, k);
    }
  }

  // ----- push/pop blocks -----

  /** The body of a block ends normally, but the block does not, or not in its
      entry state. */
  ghost predicate BlockFails(body: seq<Prog>, base: State, scopes: seq<Checkpoint>)
    requires AllWellNested(body, |scopes|) && base.chunks != []
  {
    var (st, mode) := Exec(PushPop(body), base, scopes);
    ExecAll(body, Pushed(base), scopes).1.Normal? && !(mode.Normal? && Restored(base, st))
  }

  ghost predicate EveryBlockRestores(base: State, scopes: seq<Checkpoint>, limits: Limits)
    requires base.chunks != []
  {
    forall body :: Within(body, |scopes|, |scopes|, limits) ==> !BlockFails(body, base, scopes)
  }

  /** One step that spoils a block: a reset, a clear or a shrink drops the pushed
      checkpoint, and another push comes between. */
  predicate Spoiler(p: Prog, base: State, scopes: seq<Checkpoint>) {
    || (p.ResetScope? && p.k < |scopes| && Rewindable(base, scopes[p.k]) && scopes[p.k].id <= base.nextId)
    || p.PushOnly?
    || p.ClearStack?
    || p.ShrinkToFit?
  }

  lemma StepSpoilsBlock(p: Prog, base: State, scopes: seq<Checkpoint>)
    requires Good(base) && Spoiler(p, base, scopes)
    ensures AllWellNested([p], |scopes|) && BlockFails([p], base, scopes)
  {
    OneStepBlock(p, base, scopes);
    if p.PushOnly? {
      PushComesBetween(base);
    } else if p.ResetScope? {
      ResetDropsPushed(base, scopes[p.k]);
    }
  }

  lemma OneStepBlock(p: Prog, base: State, scopes: seq<Checkpoint>)
    requires WellNested(p, |scopes|) && base.chunks != []
    ensures AllWellNested([p], |scopes|)
    ensures var (st, mode) := Exec(p, Pushed(base), scopes);
            && mode.Normal?
            && (PopAndRewind(st).Some? ==> PopAndRewind(st).value.checkpoints != base.checkpoints)
            ==> BlockFails([p], base, scopes)
  {
    Alone(p, Pushed(base), scopes);
  }

  lemma PushComesBetween(base: State)
    requires Good(base)
    ensures var st := PopAndRewind(Pushed(Pushed(base))); st.None? || st.value.checkpoints != base.checkpoints
  {
    var st, pushed := Pushed(Pushed(base)), CheckpointOf(base);
    var q := CheckpointOf(Pushed(base));
    assert st.checkpoints[..|st.checkpoints| - 1] == base.checkpoints + [pushed];
    RetainMembers(base.checkpoints + [pushed], q.id, pushed);
  }

  lemma ResetDropsPushed(base: State, cp: Checkpoint)
    requires Good(base) && Rewindable(base, cp) && cp.id <= base.nextId
    ensures var st := RewindTo(Pushed(base), cp);
            PopAndRewind(st).None? || |PopAndRewind(st).value.checkpoints| < |base.checkpoints|
  {
    var st := RewindTo(Pushed(base), cp);
    assert (base.checkpoints + [CheckpointOf(base)])[..|base.checkpoints|] == base.checkpoints;
    RetainShortens(base.checkpoints, cp.id);
    if st.checkpoints != [] {
      var n := |st.checkpoints| - 1;
      RetainShortens(st.checkpoints[..n], st.checkpoints[n].id);
    }
  }

  /** In every well-formed state, and for every kind of body: a push/pop block
      whose body ends normally ends normally in its entry state, whatever such
      a body does, if and only if it may do none of these things. */
  lemma EveryBlockRestoresIff(base: State, scopes: seq<Checkpoint>, limits: Limits)
    requires Good(base)
    requires forall k :: k in limits.resets && k < |scopes| ==>
               Rewindable(base, scopes[k]) && scopes[k].id <= base.nextId
    ensures EveryBlockRestores(base, scopes, limits) <==>
              && (forall k :: k in limits.resets ==> |scopes| <= k)
              && !limits.pushes && !limits.untidy && !limits.shrinks
  {
    if (forall k :: k in limits.resets ==> |scopes| <= k) && !limits.pushes && !limits.untidy && !limits.shrinks {
      forall body | Within(body, |scopes|, |scopes|, limits) ensures !BlockFails(body, base, scopes) {
        PushPopRestores(body, base, scopes);
      }
    } else {
      var p := SpoilerOf(base, scopes, limits);
      StepSpoilsBlock(p, base, scopes);
      Alone(p, base, scopes);
      assert Within([p], |scopes|, |scopes|, limits);
    }
  }

  lemma SpoilerOf(base: State, scopes: seq<Checkpoint>, limits: Limits) returns (p: Prog)
    requires forall k :: k in limits.resets && k < |scopes| ==>
               Rewindable(base, scopes[k]) && scopes[k].id <= base.nextId
    requires (exists k :: k in limits.resets && k < |scopes|) || limits.pushes || limits.untidy || limits.shrinks
    ensures Spoiler(p, base, scopes)
    ensures match p
            case ResetScope(k) => k in limits.resets
            case PushOnly => limits.pushes
            case ClearStack => limits.untidy
            case ShrinkToFit => limits.shrinks
            case _ => false
  {
    if limits.pushes {
      p := PushOnly;
    } else if limits.untidy {
      p := ClearStack;
    } else if limits.shrinks {
      p := ShrinkToFit;
    } else {
      var k :| k in limits.resets && k < |scopes|;
      p := ResetScope(k);
    }
  }
}
