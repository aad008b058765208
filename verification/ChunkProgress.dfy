/** The concurrent uploader gets there (crates/ic-oss/src/bucket.rs:734-884, src/file.rs:97-132): an attempt
    in which no call fails ends with a commit, a failed one can be repeated as often as allowed, and no
    chunk is sent again once it has been acknowledged. */
module ChunkProgress {
  import opened Collections
  import opened FileChunks
  import opened Manifests
  import opened ChunkUploader

  // ---- Nothing acknowledged is sent again ------------------------------------------------------

  lemma UploadedGrows(c: Setting, s: State, s': State, step: Step)
    requires Next(c, s, s', step)
    ensures s.uploaded <= s'.uploaded
  {
  }

  lemma {:induction false} UploadedStays(c: Setting, states: seq<State>, steps: seq<Step>, j: nat, k: nat)
    requires IsPath(c, states, steps) && j <= k < |states|
    ensures states[j].uploaded <= states[k].uploaded
  {
    if j < k {
      UploadedStays(c, states, steps, j, k - 1);
      assert StepAt(c, states, steps, k - 1);
      UploadedGrows(c, states[k - 1], states[k], steps[k - 1]);
    }
  }

  /** A chunk that has been acknowledged is not sent again, in the same attempt or in a later one. */
  lemma AcknowledgedIsNotResent(
    c: Setting, given: Option<nat>, states: seq<State>, steps: seq<Step>, j: nat, k: nat, i: nat)
    requires IsRun(c, given, states, steps) && j < k < |steps|
    requires steps[j] == TaskAcknowledgedStep(i) && steps[k].SpawnTaskStep?
    ensures states[k].next != i
  {
    assert StepAt(c, states, steps, j) && StepAt(c, states, steps, k);
    assert i in states[j + 1].uploaded;
    UploadedStays(c, states, steps, j + 1, k);
    RunInv(c, given, states, steps, k);
  }

  // ---- Bounds and causes -----------------------------------------------------------------------

  /** The channel never holds more results than there may be calls. */
  lemma {:induction false} ChannelIsBounded(c: Setting, given: Option<nat>, states: seq<State>, steps: seq<Step>, k: nat)
    requires IsRun(c, given, states, steps) && k < |states|
    ensures |states[k].channel| <= c.limit
  {
    if k > 0 {
      ChannelIsBounded(c, given, states, steps, k - 1);
      assert StepAt(c, states, steps, k - 1);
    }
  }

  /** The bucket only stores what was sent, and there are never more attempts than the retries allow. */
  lemma {:induction false} StoredWasSent(c: Setting, given: Option<nat>, states: seq<State>, steps: seq<Step>, k: nat)
    requires IsRun(c, given, states, steps) && k < |states|
    ensures states[k].stored.Keys <= states[k].sent && states[k].attempt <= c.retry + 1 <= MAX_UPLOAD_RETRIES + 1
  {
    RunInv(c, given, states, steps, k);
    if k > 0 {
      StoredWasSent(c, given, states, steps, k - 1);
      assert StepAt(c, states, steps, k - 1);
    }
  }

  /** When an attempt has ended, only calls that it has left behind go on, until its commit is answered or the
      next attempt begins. */
  lemma EndedIsQuiet(c: Setting, s: State, s': State, step: Step)
    requires Next(c, s, s', step) && s.phase != Active
    ensures step.StoreStep? || step.LeftoverEndsStep? || step.CommitAnsweredStep? || step.RetryStep?
    ensures step.RetryStep? <==> s'.phase == Active
  {
  }

  /** The stream or the token, a chunk call, or the commit fails. */
  predicate Fails(step: Step) {
    step.LoopFailsStep? || step.TaskRejectedStep? || step == CommitAnsweredStep(false)
  }

  /** An attempt only fails because something in it has failed. */
  lemma {:induction false} FailureHasCause(c: Setting, given: Option<nat>, states: seq<State>, steps: seq<Step>, k: nat)
    requires IsRun(c, given, states, steps) && k < |states| && forall j :: 0 <= j < k ==> !Fails(steps[j])
    ensures Healthy(states[k]) || states[k].phase == CommitSent || states[k].phase == Succeeded
    ensures states[k].attempt == 1
  {
    if k > 0 {
      FailureHasCause(c, given, states, steps, k - 1);
      assert StepAt(c, states, steps, k - 1);
      RunInv(c, given, states, steps, k - 1);
      if states[k - 1].phase == Active && states[k].phase == Active {
        NoNewFailure(c, states[k - 1], states[k], steps[k - 1]);
      }
    }
  }

  // ---- Success stays possible ------------------------------------------------------------------

  /** The steps lead from `s` to a successful end. */
  ghost predicate Succeeds(c: Setting, s: State, states: seq<State>, steps: seq<Step>) {
    IsPath(c, states, steps) && states[0] == s && states[|steps|].phase == Succeeded
  }

  ghost predicate CanSucceed(c: Setting, s: State) {
    exists states, steps :: Succeeds(c, s, states, steps)
  }

  lemma StepFirst(c: Setting, s: State, s': State, step: Step)
    requires Next(c, s, s', step) && CanSucceed(c, s')
    ensures CanSucceed(c, s)
  {
    var states, steps :| Succeeds(c, s', states, steps);
    var states', steps' := [s] + states, [step] + steps;
    forall k | 0 <= k < |steps'| ensures StepAt(c, states', steps', k) {
      if k > 0 {
        assert StepAt(c, states, steps, k - 1);
      }
    }
    assert Succeeds(c, s, states', steps');
  }

  lemma FromCommitSent(c: Setting, s: State)
    requires s.phase == CommitSent
    ensures CanSucceed(c, s)
  {
    var s' := s.(phase := Succeeded);
    assert Next(c, s, s', CommitAnsweredStep(true));
    assert StepAt(c, [s, s'], [CommitAnsweredStep(true)], 0);
    assert Succeeds(c, s, [s, s'], [CommitAnsweredStep(true)]);
  }

  /** No failure is on its way, and the loop goes on or has ended well. */
  ghost predicate Healthy(s: State) {
    s.phase == Active && s.loop != EndedErr && !FailurePending(s)
  }

  /** What remains of an attempt, and what the bucket has still to store. */
  ghost function ToDo(c: Setting, s: State): int {
    Remaining(c, s) + |Missing(c, s)|
  }

  ghost function Missing(c: Setting, s: State): set<nat> {
    set i: nat | i < |c.frames| && i !in s.stored
  }

  lemma MissingShrinks(c: Setting, s: State, s': State, step: Step)
    requires Next(c, s, s', step)
    ensures |Missing(c, s')| <= |Missing(c, s)|
    ensures step.StoreStep? && step.i !in s.stored ==> |Missing(c, s')| < |Missing(c, s)|
  {
    SubsetSize(Missing(c, s'), Missing(c, s));
    if step.StoreStep? && step.i !in s.stored {
      assert Missing(c, s) == Missing(c, s') + {step.i};
    }
  }

  lemma HealthyNext(c: Setting, s: State, s': State, given: Option<nat>)
    requires Inv(c, s, given) && Healthy(s) && Next(c, s, s', NextStep(c, s))
    ensures Healthy(s') || s'.phase == CommitSent
  {
    hide Inv;
    if s'.phase == Active {
      NoNewFailure(c, s, s', NextStep(c, s));
    }
  }

  lemma NoNewFailure(c: Setting, s: State, s': State, step: Step)
    requires Healthy(s) && Next(c, s, s', step) && s'.phase == Active
    requires !step.TaskRejectedStep? && !step.LoopFailsStep? && !step.RetryStep? && !step.AttemptFailsStep?
    ensures Healthy(s')
  {
    forall i | i in s'.tasks ensures s'.tasks[i] != Rejected {
      assert i in s.tasks ==> s.tasks[i] != Rejected;
    }
    forall k | 0 <= k < |s'.channel| ensures s'.channel[k] {
      match step {
        case ReceiveStep => assert s.channel[k + 1];
        case TaskReportsStep(i) => assert k < |s.channel| ==> s.channel[k]; assert s.tasks[i] != Rejected;
        case _ => assert s.channel[k];
      }
    }
    assert step.ReceiveStep? ==> s.channel[0];
  }

  lemma NextUsesUp(c: Setting, s: State, s': State, given: Option<nat>)
    requires Inv(c, s, given) && s.phase == Active && Next(c, s, s', NextStep(c, s)) && s'.phase == Active
    ensures 0 <= ToDo(c, s') < ToDo(c, s)
  {
    var step := NextStep(c, s);
    MissingShrinks(c, s, s', step);
    InvNext(c, s, s', given, step);
    RemainingIsBounded(c, s');
    if step.StoreStep? {
      assert step.i !in s.stored;
      assert Remaining(c, s') == Remaining(c, s);
    } else {
      StepsUseUp(c, s, s', given, step);
    }
  }

  /** An attempt in which nothing fails is carried on to its commit. */
  lemma {:induction false} FromHealthy(c: Setting, s: State, given: Option<nat>)
    requires Inv(c, s, given) && Healthy(s) && c.limit > 0
    ensures CanSucceed(c, s)
    decreases ToDo(c, s)
  {
    NeverStuck(c, s, given);
    var s' :| s' != s && Next(c, s, s', NextStep(c, s));
    HealthyNext(c, s, s', given);
    if s'.phase == CommitSent {
      FromCommitSent(c, s');
    } else {
      NextUsesUp(c, s, s', given);
      InvNext(c, s, s', given, NextStep(c, s));
      FromHealthy(c, s', given);
    }
    StepFirst(c, s, s', NextStep(c, s));
  }

  lemma AttemptStays(c: Setting, s: State, s': State, step: Step)
    requires Next(c, s, s', step) && s.phase == Active
    ensures s'.attempt == s.attempt && (s'.phase == Active || s'.phase == Failed || s'.phase == CommitSent)
  {
  }

  lemma FromFailed(c: Setting, s: State, given: Option<nat>)
    requires Inv(c, s, given) && s.phase == Failed && s.attempt <= c.retry && c.limit > 0
    ensures CanSucceed(c, s)
  {
    var s' := Started(s);
    assert Next(c, s, s', RetryStep);
    InvNext(c, s, s', given, RetryStep);
    FromHealthy(c, s', given);
    StepFirst(c, s, s', RetryStep);
  }

  /** The attempt fails, as soon as the failure has been noticed. */
  lemma FromUnhealthy(c: Setting, s: State, given: Option<nat>)
    requires Inv(c, s, given) && s.phase == Active && s.attempt <= c.retry && c.limit > 0
    ensures CanSucceed(c, s)
  {
    if s.loop == AtPermit || s.loop == Holding {
      var ended := s.(loop := EndedErr);
      assert Next(c, s, ended, LoopFailsStep);
      InvNext(c, s, ended, given, LoopFailsStep);
      FromNoticed(c, ended, given);
      StepFirst(c, s, ended, LoopFailsStep);
    } else if s.loop == EndedErr || s.receiver == ReceivedErr {
      FromNoticed(c, s, given);
    } else if Healthy(s) {
      FromHealthy(c, s, given);
    } else {
      FromPending(c, s, given);
    }
  }

  lemma FromNoticed(c: Setting, s: State, given: Option<nat>)
    requires Inv(c, s, given) && s.phase == Active && s.attempt <= c.retry && c.limit > 0
    requires s.loop == EndedErr || s.receiver == ReceivedErr
    ensures CanSucceed(c, s)
  {
    var s' := s.(phase := Failed, tasks := map[]);
    assert Next(c, s, s', AttemptFailsStep);
    InvNext(c, s, s', given, AttemptFailsStep);
    FromFailed(c, s', given);
    StepFirst(c, s, s', AttemptFailsStep);
  }

  /** A rejected result makes its way to the receiver. */
  lemma {:induction false} FromPending(c: Setting, s: State, given: Option<nat>)
    requires Inv(c, s, given) && s.phase == Active && s.attempt <= c.retry && c.limit > 0
    requires FailurePending(s)
    ensures CanSucceed(c, s)
    decreases ToDo(c, s)
  {
    if s.receiver == ReceivedErr {
      FromNoticed(c, s, given);
    } else {
      NeverStuck(c, s, given);
      hide Inv, Next, FailurePending, ToDo;
      var step := NextStep(c, s);
      var s' :| s' != s && Next(c, s, s', step);
      InvNext(c, s, s', given, step);
      AttemptStays(c, s, s', step);
      if s'.phase == Active {
        FailureStays(c, s, s', given, step);
        NextUsesUp(c, s, s', given);
        FromPending(c, s', given);
      } else if s'.phase == Failed {
        FromFailed(c, s', given);
      } else {
        FromCommitSent(c, s');
      }
      StepFirst(c, s, s', step);
    }
  }

  // ---- Until the last attempt has met with a failure ---------------------------------------------

  /** The last attempt has failed, or is about to. */
  ghost predicate GivenUp(c: Setting, s: State) {
    s.attempt > c.retry && (s.phase == Failed || (s.phase == Active && !Healthy(s)))
  }

  lemma GivenUpStays(c: Setting, s: State, s': State, given: Option<nat>, step: Step)
    requires Inv(c, s, given) && GivenUp(c, s) && Next(c, s, s', step)
    ensures GivenUp(c, s')
  {
    if s.phase == Active {
      if FailurePending(s) {
        NoCommitOnFailure(c, s, given);
        if s'.phase == Active {
          FailureStays(c, s, s', given, step);
        }
      }
    }
  }

  /** While a failure is on its way the receiver has not ended well. */
  lemma NoCommitOnFailure(c: Setting, s: State, given: Option<nat>)
    requires Inv(c, s, given) && s.phase == Active && FailurePending(s)
    ensures s.receiver != ReceivedAll
  {
  }

  lemma {:induction false} NoSuccessAfter(c: Setting, given: Option<nat>, states: seq<State>, steps: seq<Step>, k: nat)
    requires IsPath(c, states, steps) && k < |states| && Inv(c, states[0], given) && GivenUp(c, states[0])
    ensures Inv(c, states[k], given) && GivenUp(c, states[k])
  {
    if k > 0 {
      NoSuccessAfter(c, given, states, steps, k - 1);
      assert StepAt(c, states, steps, k - 1);
      GivenUpStays(c, states[k - 1], states[k], given, steps[k - 1]);
      InvNext(c, states[k - 1], states[k], given, steps[k - 1]);
    }
  }

  /** At every point of a run: success is still possible if and only if the last attempt has not met with a
      failure. */
  lemma SuccessPossibleIff(c: Setting, given: Option<nat>, states: seq<State>, steps: seq<Step>, k: nat)
    requires IsRun(c, given, states, steps) && k < |states| && c.limit > 0
    ensures states[k].phase == Succeeded || CanSucceed(c, states[k]) <==> !GivenUp(c, states[k])
  {
    var s := states[k];
    RunInv(c, given, states, steps, k);
    if GivenUp(c, s) {
      forall path, taken ensures !Succeeds(c, s, path, taken) {
        if Succeeds(c, s, path, taken) {
          NoSuccessAfter(c, given, path, taken, |taken|);
        }
      }
    } else {
      match s.phase {
        case Active => if Healthy(s) { FromHealthy(c, s, given); } else { FromUnhealthy(c, s, given); }
        case CommitSent => FromCommitSent(c, s);
        case Succeeded =>
        case Failed => FromFailed(c, s, given);
      }
    }
  }
}
