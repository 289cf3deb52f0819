/** Sequences of steps of a machine that is given as a partial step function. */
module Sequencing {
  import opened Options

  /** `acts` can happen one after the other from `s` and lead to `s'`. */
  ghost predicate Leads<S(!new), A(!new)>(next: (S, A) -> Option<S>, s: S, acts: seq<A>, s': S)
    decreases acts
  {
    if acts == [] then s' == s
    else next(s, acts[0]).Some? && Leads(next, next(s, acts[0]).value, acts[1..], s')
  }

  lemma LeadsFrom<S(!new), A(!new)>(next: (S, A) -> Option<S>, s: S, a: A, s1: S, acts: seq<A>, s2: S)
    requires next(s, a) == Some(s1) && Leads(next, s1, acts, s2)
    ensures Leads(next, s, [a] + acts, s2)
  {
    assert ([a] + acts)[1..] == acts;
  }

  lemma OneStep<S(!new), A(!new)>(next: (S, A) -> Option<S>, s: S, a: A, s1: S)
    requires next(s, a) == Some(s1)
    ensures Leads(next, s, [a], s1)
  {
    assert [a][1..] == [];
  }

  lemma {:induction false} LeadsOn<S(!new), A(!new)>(next: (S, A) -> Option<S>, s: S, acts: seq<A>, s1: S,
                                                     more: seq<A>, s2: S)
    requires Leads(next, s, acts, s1) && Leads(next, s1, more, s2)
    ensures Leads(next, s, acts + more, s2)
    decreases acts
  {
    if acts == [] {
      assert acts + more == more;
    } else {
      var s0 := next(s, acts[0]).value;
      LeadsOn(next, s0, acts[1..], s1, more, s2);
      LeadsFrom(next, s, acts[0], s0, acts[1..] + more, s2);
      assert [acts[0]] + (acts[1..] + more) == acts + more;
    }
  }

  lemma TwoSteps<S(!new), A(!new)>(next: (S, A) -> Option<S>, s: S, a: A, s1: S, b: A, s2: S)
    requires next(s, a) == Some(s1) && next(s1, b) == Some(s2)
    ensures Leads(next, s, [a, b], s2)
  {
    OneStep(next, s1, b, s2);
    LeadsFrom(next, s, a, s1, [b], s2);
    assert [a] + [b] == [a, b];
  }

  lemma ThreeSteps<S(!new), A(!new)>(next: (S, A) -> Option<S>, s: S, a: A, s1: S, b: A, s2: S, c: A, s3: S)
    requires next(s, a) == Some(s1) && next(s1, b) == Some(s2) && next(s2, c) == Some(s3)
    ensures Leads(next, s, [a, b, c], s3)
  {
    TwoSteps(next, s1, b, s2, c, s3);
    LeadsFrom(next, s, a, s1, [b, c], s3);
    assert [a] + [b, c] == [a, b, c];
  }
}
