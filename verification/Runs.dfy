/** Whole runs: any finite sequence of steps from a state in which nothing has been issued. */
module Runs {
  import opened Protocol
  import opened Invariant
  import opened Steps

  datatype Run = Run(cfg: Config, states: seq<State>, steps: seq<Step>)

  ghost predicate IsRun(r: Run) {
    && |r.states| == |r.steps| + 1
    && Init(r.states[0])
    && forall i :: 0 <= i < |r.steps| ==>
         Fresh(r.states[i], r.steps[i]) && r.states[i + 1] == Exec(r.cfg, r.states[i], r.steps[i]).0
  }

  /** The answer to step i. */
  function ReplyAt(r: Run, i: nat): Reply
    requires |r.states| == |r.steps| + 1 && i < |r.steps|
  {
    Exec(r.cfg, r.states[i], r.steps[i]).1
  }

  /** The invariant holds in every reachable state. */
  lemma {:induction false} RunInv(r: Run, n: nat)
    requires IsRun(r) && n < |r.states|
    ensures Inv(r.states[n])
  {
    hide Inv, Exec, Fresh;
    if n == 0 {
      InitInv(r.states[0]);
    } else {
      RunInv(r, n - 1);
      StepKeeps(r.cfg, r.states[n - 1], r.steps[n - 1]);
    }
  }

  lemma Reflexive(s: State)
    requires Inv(s)
    ensures Grows(s, s)
  {
    UnchangedKeeps(s);
  }

  lemma Transitive(s: State, s': State, s'': State)
    requires Inv(s) && Inv(s') && Grows(s, s') && Grows(s', s'')
    ensures Grows(s, s'')
  {
    GrowsTransitive(s, s', s'');
  }

  /** Nothing an earlier state granted is gone in a later one. */
  lemma {:induction false} RunGrows(r: Run, m: nat, n: nat)
    requires IsRun(r) && m <= n < |r.states|
    ensures Inv(r.states[m]) && Inv(r.states[n]) && Grows(r.states[m], r.states[n])
    decreases n
  {
    hide Inv, Grows, Exec, Fresh;
    RunInv(r, m);
    RunInv(r, n);
    if m == n {
      Reflexive(r.states[m]);
    } else {
      RunInv(r, n - 1);
      RunGrows(r, m, n - 1);
      StepKeeps(r.cfg, r.states[n - 1], r.steps[n - 1]);
      Transitive(r.states[m], r.states[n - 1], r.states[n]);
    }
  }

  /** Every token issued anywhere in a run has as subject an account that was verified when the token
      was issued and is verified in every later state. */
  lemma SubjectsStayVerified(r: Run, m: nat, n: nat, token: string)
    requires IsRun(r) && m <= n < |r.states| && token in r.states[m].issued
    ensures token in r.states[n].issued && r.states[n].issued[token] == r.states[m].issued[token]
    ensures forall k :: m <= k <= n ==> VerifiedId(r.states[k].table, r.states[m].issued[token].claims.sub)
  {
    RunGrows(r, m, n);
    forall k | m <= k <= n
      ensures VerifiedId(r.states[k].table, r.states[m].issued[token].claims.sub)
    {
      RunGrows(r, m, k);
      assert GrantOk(r.states[m], r.states[m].issued[token]);
      VerifiedSurvives(r.states[m].table, r.states[k].table, r.states[m].issued[token].claims.sub);
    }
  }
}
