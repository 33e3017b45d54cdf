/** Statements over whole runs of the node. The run is its own history. */
module SyncRuns {
  import opened SyncTypes
  import opened SyncProtocol
  import opened SyncInvariants
  import opened StepEffects
  import opened NoHoles

  datatype Run = Run(states: seq<State>, steps: seq<Step>)

  ghost predicate IsStep(s: State, step: Step, t: State) {
    Enabled(s, step) && Plausible(step) && t == After(s, step)
  }

  ghost predicate IsRun(r: Run) {
    && |r.states| == |r.steps| + 1
    && Initial(r.states[0])
    && forall i :: 0 <= i < |r.steps| ==> IsStep(r.states[i], r.steps[i], r.states[i + 1])
  }

  /** Every reachable state satisfies the step invariant. */
  lemma {:induction false} RunInv(r: Run, i: nat)
    requires IsRun(r) && i <= |r.steps|
    ensures Inv(r.states[i])
  {
    hide Inv, Initial, Enabled, After;
    if i == 0 {
      InitialInv(r.states[0]);
    } else {
      RunInv(r, i - 1);
      assert IsStep(r.states[i - 1], r.steps[i - 1], r.states[i]);
      StepKeepsInv(r.states[i - 1], r.steps[i - 1]);
    }
  }

  // ---- commit safety ----

  /** Before step `i`, block `b` was executed to the header hash it claims. */
  ghost predicate ExecutedBefore(r: Run, i: nat, b: Block)
    requires i <= |r.steps|
  {
    exists j :: 0 <= j < i && IsExecuteOf(r.steps[j], b)
  }

  /** And then, still before step `i`, it passed the consensus check. */
  ghost predicate CheckedBefore(r: Run, i: nat, b: Block)
    requires i <= |r.steps|
  {
    exists j :: 0 <= j < i && r.steps[j] == CheckDone(b, CheckPassed) && ExecutedBefore(r, j, b)
  }

  /** And then its transactions were stored. */
  ghost predicate StoredBefore(r: Run, i: nat, b: Block)
    requires i <= |r.steps|
  {
    exists j :: 0 <= j < i && r.steps[j] == StoreDone(b, true) && CheckedBefore(r, j, b)
  }

  ghost predicate Provenance(r: Run, i: nat)
    requires i <= |r.steps| < |r.states|
  {
    var s := r.states[i];
    && (forall b: Block :: b in s.commitQueue || b in s.checking ==> ExecutedBefore(r, i, b))
    && (forall b: Block :: b in s.storing ==> CheckedBefore(r, i, b))
    && (forall b: Block :: b in s.committing ==> CheckedBefore(r, i, b) && (b.txs > 0 ==> StoredBefore(r, i, b)))
  }

  /** One step of a run, with everything known about it. */
  lemma RunStep(r: Run, i: nat)
    requires IsRun(r) && i < |r.steps|
    ensures Inv(r.states[i]) && Inv(r.states[i + 1])
    ensures IsStep(r.states[i], r.steps[i], r.states[i + 1])
    ensures Effect(r.states[i], r.steps[i], r.states[i + 1])
  {
    hide Inv, Initial, Enabled, After, Effect;
    RunInv(r, i);
    RunInv(r, i + 1);
    assert IsStep(r.states[i], r.steps[i], r.states[i + 1]);
    StepEffect(r.states[i], r.steps[i]);
  }

  lemma ProvenanceStep(r: Run, i: nat)
    requires i < |r.steps| < |r.states| && Provenance(r, i) && Sourced(r.states[i], r.steps[i], r.states[i + 1])
    ensures Provenance(r, i + 1)
  {
    hide CheckedBefore, StoredBefore, ExecutedBefore;
    var s, step, t := r.states[i], r.steps[i], r.states[i + 1];
    forall b: Block | b in t.commitQueue || b in t.checking
      ensures ExecutedBefore(r, i + 1, b)
    {
      ExecutedLater(r, i, b);
    }
    forall b: Block | b in t.storing
      ensures CheckedBefore(r, i + 1, b)
    {
      CheckedLater(r, i, b);
    }
    forall b: Block | b in t.committing
      ensures CheckedBefore(r, i + 1, b) && (b.txs > 0 ==> StoredBefore(r, i + 1, b))
    {
      CheckedLater(r, i, b);
      StoredLater(r, i, b);
    }
  }

  lemma ExecutedLater(r: Run, i: nat, b: Block)
    requires i < |r.steps| && (ExecutedBefore(r, i, b) || IsExecuteOf(r.steps[i], b))
    ensures ExecutedBefore(r, i + 1, b)
  {
    if !IsExecuteOf(r.steps[i], b) {
      var j :| 0 <= j < i && IsExecuteOf(r.steps[j], b);
      assert 0 <= j < i + 1;
    }
  }

  lemma CheckedLater(r: Run, i: nat, b: Block)
    requires i < |r.steps|
    requires CheckedBefore(r, i, b) || (r.steps[i] == CheckDone(b, CheckPassed) && ExecutedBefore(r, i, b))
    ensures CheckedBefore(r, i + 1, b)
  {
    if CheckedBefore(r, i, b) {
      var j :| 0 <= j < i && r.steps[j] == CheckDone(b, CheckPassed) && ExecutedBefore(r, j, b);
      assert 0 <= j < i + 1;
    }
  }

  lemma StoredLater(r: Run, i: nat, b: Block)
    requires i < |r.steps|
    ensures StoredBefore(r, i, b) || (r.steps[i] == StoreDone(b, true) && CheckedBefore(r, i, b))
            ==> StoredBefore(r, i + 1, b)
  {
    if StoredBefore(r, i, b) {
      var j :| 0 <= j < i && r.steps[j] == StoreDone(b, true) && CheckedBefore(r, j, b);
      assert 0 <= j < i + 1;
    }
  }

  lemma {:induction false} RunProvenance(r: Run, i: nat)
    requires IsRun(r) && i <= |r.steps|
    ensures Provenance(r, i)
  {
    hide Inv, Enabled, After, Sourced, Provenance;
    if i == 0 {
      InitialProvenance(r);
    } else {
      RunProvenance(r, i - 1);
      RunStep(r, i - 1);
      ProvenanceStep(r, i - 1);
    }
  }

  lemma InitialProvenance(r: Run)
    requires IsRun(r)
    ensures Provenance(r, 0)
  {
  }

  /** Commit safety. In every run, at every step: the block number stays, or an outside notice raises it,
      or it rises by exactly one to a block that was executed to its own header hash, then passed the
      consensus check, and then, if it has transactions, had them stored. The head hash is the one that came
      with the block. */
  lemma CommitSafety(r: Run, i: nat)
    requires IsRun(r) && i < |r.steps|
    ensures var s, step, t := r.states[i], r.steps[i], r.states[i + 1];
      || (t.cfg.blockNumber == s.cfg.blockNumber && t.cfg.hash == s.cfg.hash)
      || (step.NewBlock? && t.cfg.blockNumber == step.number > s.cfg.blockNumber && t.cfg.hash == step.hash)
      || (&& step.CommitDone? && step.ledger.Some? && t.cfg.hash == step.ledger.value
          && t.cfg.blockNumber == step.block.number == s.cfg.blockNumber + 1
          && CheckedBefore(r, i, step.block)
          && (step.block.txs > 0 ==> StoredBefore(r, i, step.block)))
  {
    hide Inv, Enabled, Initial, CheckedBefore, StoredBefore;
    RunStep(r, i);
    RunProvenance(r, i);
    assert r.steps[i].CommitDone? ==> r.steps[i].block in r.states[i].committing by {
      CommitIsInFlight(r.states[i], r.steps[i], r.states[i + 1]);
    }
  }

  lemma CommitIsInFlight(s: State, step: Step, t: State)
    requires IsStep(s, step, t)
    ensures step.CommitDone? ==> step.block in s.committing
  {
  }

  // ---- holes ----

  /** Every execute callback arrives before the node does anything else. */
  ghost predicate Prompt(r: Run)
    requires IsRun(r)
  {
    forall i :: 0 <= i < |r.steps| && r.states[i].executing != multiset{} ==> r.steps[i].ExecuteDone?
  }

  /** At most one execution is pending, and it is of the block after the execution point. */
  ghost predicate ExecutesNext(s: State) {
    s.executing == multiset{} || exists b: Block :: s.executing == multiset{b} && b.number == s.cfg.executed + 1
  }

  ghost predicate PromptState(s: State) {
    NoHole(s) && ExecutesNext(s)
  }

  lemma PromptExecutes(s: State, step: Step, t: State)
    requires ExecutesNext(s) && Executes(s, step, t)
    requires if step.ExecuteDone? then step.block in s.executing
             else s.executing == multiset{} && (step.Duplicate? ==> step.block in InFlight(s, step.stage))
    ensures ExecutesNext(t)
  {
    if step.MaintainQueue? && step.next.Some? {
      assert t.executing == multiset{step.next.value};
    }
  }

  lemma PromptStep(s: State, step: Step, t: State)
    requires Inv(s) && PromptState(s) && IsStep(s, step, t) && Effect(s, step, t)
    requires s.executing != multiset{} ==> step.ExecuteDone?
    ensures PromptState(t)
  {
    PromptExecutes(s, step, t) by {
      hide Inv, NoHole, Sourced, Advances, Learns, Releases, After;
    }
    hide After, Effect, Inv, NoHole;
    if IsExecuteSuccess(step) {
      assert GapCovered(s, step.block);
      ExecuteSuccessNoHole(s, step.block, step.header, step.pick);
    } else {
      StepNoHole(s, step);
    }
  }

  /** With prompt execute callbacks no reachable state has a hole below the execution point, whatever
      fails, is late or arrives twice in the other stages. */
  lemma {:induction false} PromptRunsHaveNoHole(r: Run, i: nat)
    requires IsRun(r) && Prompt(r) && i <= |r.steps|
    ensures PromptState(r.states[i])
  {
    hide Enabled, After, Effect, Inv;
    if i > 0 {
      PromptRunsHaveNoHole(r, i - 1);
      RunStep(r, i - 1);
      PromptStep(r.states[i - 1], r.steps[i - 1], r.states[i]);
    }
  }

  // ---- holes in any run ----

  ghost predicate HoleFree(r: Run, i: nat)
    requires i < |r.states|
  {
    forall k :: 0 <= k <= i ==> NoHole(r.states[k])
  }

  /** Before step `i`, no successful execution jumped over a missing block. */
  ghost predicate NoJumps(r: Run, i: nat)
    requires i <= |r.steps| < |r.states|
  {
    forall k :: 0 <= k < i && IsExecuteSuccess(r.steps[k]) ==> GapCovered(r.states[k], r.steps[k].block)
  }

  /** A step from a state without a hole leads to one without a hole, except for a successful execution
      that jumps over a missing block, which never does. */
  lemma HoleStep(s: State, step: Step, t: State)
    requires Inv(s) && NoHole(s) && IsStep(s, step, t)
    ensures NoHole(t) <==> (IsExecuteSuccess(step) ==> GapCovered(s, step.block))
  {
    hide After, Inv, NoHole, GapCovered, Enabled;
    if IsExecuteSuccess(step) {
      ExecuteSuccessNoHole(s, step.block, step.header, step.pick);
    } else {
      StepNoHole(s, step);
    }
  }

  /** With execute callbacks that come as late as they like: a run has no hole so far if and only if no
      successful execution so far jumped over a missing block. */
  lemma {:induction false} HoleFreeRuns(r: Run, i: nat)
    requires IsRun(r) && i <= |r.steps|
    ensures HoleFree(r, i) <==> NoJumps(r, i)
  {
    hide After, Inv, NoHole, GapCovered, Enabled, Initial, Effect, IsStep;
    if i == 0 {
      StartsWithoutHole(r.states[0]);
    } else {
      HoleFreeRuns(r, i - 1);
      assert HoleFree(r, i) <==> HoleFree(r, i - 1) && NoHole(r.states[i]);
      assert NoJumps(r, i) <==>
        NoJumps(r, i - 1) && (IsExecuteSuccess(r.steps[i - 1]) ==> GapCovered(r.states[i - 1], r.steps[i - 1].block));
      if HoleFree(r, i - 1) {
        RunStep(r, i - 1);
        HoleStep(r.states[i - 1], r.steps[i - 1], r.states[i]);
      }
    }
  }

  lemma StartsWithoutHole(s: State)
    requires Initial(s)
    ensures NoHole(s)
  {
  }

  /** So it is enough, and can be seen when the callback comes in, that no success is for a block beyond
      the one after the execution point. */
  lemma InOrderRunsHaveNoHole(r: Run, i: nat)
    requires IsRun(r) && i <= |r.steps|
    requires forall k :: 0 <= k < i && IsExecuteSuccess(r.steps[k]) ==>
               r.steps[k].block.number <= r.states[k].cfg.executed + 1
    ensures NoHole(r.states[i])
  {
    hide Inv, NoHole, Initial, IsStep, Held;
    HoleFreeRuns(r, i);
    assert NoJumps(r, i);
  }
}
