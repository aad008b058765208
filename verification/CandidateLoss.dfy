/** When a current candidate can still be deleted although the Hub keeps it: exactly when its deletion is
    already under way, and for cancelled jobs also when the journal lists it (src/transcode.rs:449-470,
    702-788). */
module CandidateLoss {
  import opened Manifests
  import opened TranscodeCleanup

  /** Steps after which the Hub is as before. */
  predicate Quiet(step: Step) {
    !step.HubAcceptsStep? && !step.HubMovesOnStep?
  }

  ghost predicate QuietAt(w: World, states: seq<State>, steps: seq<Step>, k: nat) {
    StepAt(w, states, steps, k) && Quiet(steps[k])
  }

  ghost predicate LostBy(w: World, s: State, file: FileId, states: seq<State>, steps: seq<Step>) {
    && |states| == |steps| + 1 && states[0] == s && file !in states[|steps|].revisions
    && forall k {:trigger QuietAt(w, states, steps, k)} :: 0 <= k < |steps| ==> QuietAt(w, states, steps, k)
  }

  /** Some continuation in which the Hub does not change loses the file. */
  ghost predicate CanLose(w: World, s: State, file: FileId) {
    exists states, steps :: LostBy(w, s, file, states, steps)
  }

  lemma LostAlready(w: World, s: State, file: FileId)
    requires file !in s.revisions
    ensures CanLose(w, s, file)
  {
    assert LostBy(w, s, file, [s], []);
  }

  lemma StepFirst(w: World, s: State, s': State, step: Step, file: FileId)
    requires Next(w, s, s', step) && Quiet(step) && CanLose(w, s', file)
    ensures CanLose(w, s, file)
  {
    var states, steps :| LostBy(w, s', file, states, steps);
    var states', steps' := [s] + states, [step] + steps;
    forall k | 0 <= k < |steps'| ensures QuietAt(w, states', steps', k) {
      if k > 0 {
        assert QuietAt(w, states, steps, k - 1);
      }
    }
    assert LostBy(w, s, file, states', steps');
  }

  // ---- A deletion that is under way can be carried out --------------------------------------------

  lemma PlainIsServed(w: World, s: State, file: FileId)
    requires file in s.plain
    ensures CanLose(w, s, file)
  {
    var s' := s.(revisions := s.revisions - {file});
    LostAlready(w, s', file);
    StepFirst(w, s, s', BucketServesPlainStep(file), file);
  }

  lemma RejectedIsDeleted(w: World, s: State)
    requires s.client.Rejected?
    ensures CanLose(w, s, s.client.file)
  {
    var s' := s.(plain := s.plain + {s.client.file});
    PlainIsServed(w, s', s.client.file);
    StepFirst(w, s, s', SendPlainStep, s.client.file);
  }

  /** While the output exists, no delete for it has been answered, and its hash is right. */
  lemma FlightIsOpen(w: World, s: State, m: DeleteRequest)
    requires RecordInv(w, s) && m in s.inFlight && m.file in s.revisions
    ensures m.request !in s.answered && m.hash == w.hash(m.file)
  {
    InFlightIsIssued(s, m);
    assert Current(s, s.issued[m.request]);
  }

  lemma FlightIsServed(w: World, s: State, m: DeleteRequest)
    requires RecordInv(w, s) && m in s.inFlight && m.file in s.revisions
    ensures CanLose(w, s, m.file)
  {
    FlightIsOpen(w, s, m);
    var s1 := s.(revisions := s.revisions[m.file := m.revision]);
    var s2 := s1.(answered := s1.answered[m.request := true], revisions := s1.revisions - {m.file});
    LostAlready(w, s2, m.file);
    StepFirst(w, s1, s2, BucketServesDeleteStep(m), m.file);
    StepFirst(w, s, s1, RevisionChangesStep(m.file, m.revision), m.file);
  }

  /** The request of the output that the cleanup is deleting. */
  function Pending(s: State): DeleteRequest
    requires s.client.Deleting? && s.client.name in s.journal && s.journal[s.client.name].intent.Some?
  {
    RequestOf(s.journal[s.client.name].intent.value, s.client.file)
  }

  ghost function Sent(s: State): State
    requires s.client.Deleting? && s.client.name in s.journal && s.journal[s.client.name].intent.Some?
  {
    s.(sent := s.sent + {Pending(s)}, inFlight := s.inFlight + {Pending(s)},
       condemned := if s.client.hub.status == Cancelled then s.condemned + {s.client.file} else s.condemned)
  }

  lemma DeletingIsDeleted(w: World, s: State)
    requires Inv(w, s) && s.client.Deleting? && s.client.file in s.revisions
    ensures CanLose(w, s, s.client.file)
  {
    var s' := Sent(s);
    assert Next(w, s, s', SendDeleteStep);
    InvNext(w, s, s', SendDeleteStep);
    FlightIsServed(w, s', Pending(s));
    StepFirst(w, s, s', SendDeleteStep, s.client.file);
  }

  lemma {:induction false} FreshRequest(used: set<RequestId>) returns (request: RequestId)
    ensures request !in used && forall r :: r in used ==> r < request
  {
    if used == {} {
      request := 0;
    } else {
      var r :| r in used;
      var rest := FreshRequest(used - {r});
      request := if r < rest then rest else r + 1;
      assert forall q :: q in used ==> q == r || q in used - {r};
    }
  }

  lemma CleaningDeletes(w: World, s: State, name: Label, file: FileId)
    requires Inv(w, s) && s.client.Cleaning? && JournalHas(s, name, file)
    requires !Retained(s.client.hub, file) && file in s.revisions
    ensures CanLose(w, s, file)
  {
    var request := FreshRequest(s.issued.Keys);
    var v, s' := s.journal[name], s;
    if v.intent.Some? {
      s' := s.(client := Deleting(s.client.hub, name, file));
    } else {
      var intent := Intent(request, s.revisions[file], w.hash(file), file);
      s' := s.(journal := s.journal[name := Variant(Some(file), Some(w.hash(file)), Some(intent))],
               issued := s.issued[request := RequestOf(intent, file)], client := Deleting(s.client.hub, name, file));
    }
    var step := PrepareIntentStep(name, request);
    assert Next(w, s, s', step);
    InvNext(w, s, s', step);
    DeletingIsDeleted(w, s');
    StepFirst(w, s, s', step, file);
  }

  ghost function Struck(s: State): State
    requires s.client.Deleting? && s.client.name in s.journal && s.journal[s.client.name].intent.Some?
  {
    s.(journal := s.journal[s.client.name := Variant(None, s.journal[s.client.name].recorded, None)],
       inFlight := s.inFlight - {Pending(s)}, client := Cleaning(s.client.hub))
  }

  /** Once the delete at hand has been answered, the cleanup goes on with the next output. */
  lemma AnsweredThenDeletes(w: World, s: State, name: Label, file: FileId)
    requires Inv(w, s) && s.client.Deleting? && JournalHas(s, name, file) && file != s.client.file
    requires !Retained(s.client.hub, file) && file in s.revisions
    requires s.journal[s.client.name].intent.Some? && Pending(s).request in s.answered
    ensures CanLose(w, s, file)
  {
    var s' := Struck(s);
    assert Next(w, s, s', DeleteAnsweredStep);
    InvNext(w, s, s', DeleteAnsweredStep);
    CleaningDeletes(w, s', name, file);
    StepFirst(w, s, s', DeleteAnsweredStep, file);
  }

  lemma ServedThenDeletes(w: World, s: State, name: Label, file: FileId)
    requires Inv(w, s) && s.client.Deleting? && JournalHas(s, name, file) && file != s.client.file
    requires !Retained(s.client.hub, file) && file in s.revisions
    requires s.journal[s.client.name].intent.Some? && Pending(s) in s.inFlight && Pending(s).request !in s.answered
    requires s.client.file in s.revisions ==> s.revisions[s.client.file] == Pending(s).revision
    ensures CanLose(w, s, file)
  {
    var m, f := Pending(s), s.client.file;
    if f in s.revisions {
      FlightIsOpen(w, s, m);
    }
    var s' := s.(answered := s.answered[m.request := f in s.revisions], revisions := s.revisions - {f});
    assert Next(w, s, s', BucketServesDeleteStep(m));
    InvNext(w, s, s', BucketServesDeleteStep(m));
    AnsweredThenDeletes(w, s', name, file);
    StepFirst(w, s, s', BucketServesDeleteStep(m), file);
  }

  lemma SentThenDeletes(w: World, s: State, name: Label, file: FileId)
    requires Inv(w, s) && s.client.Deleting? && JournalHas(s, name, file) && file != s.client.file
    requires !Retained(s.client.hub, file) && file in s.revisions
    requires s.journal[s.client.name].intent.Some? && Pending(s) in s.inFlight && Pending(s).request !in s.answered
    ensures CanLose(w, s, file)
  {
    var m, f := Pending(s), s.client.file;
    if f in s.revisions {
      var s', step := s.(revisions := s.revisions[f := m.revision]), RevisionChangesStep(f, m.revision);
      assert Next(w, s, s', step);
      InvNext(w, s, s', step);
      ServedThenDeletes(w, s', name, file);
      StepFirst(w, s, s', step, file);
    } else {
      ServedThenDeletes(w, s, name, file);
    }
  }

  lemma DeletingOtherThenDeletes(w: World, s: State, name: Label, file: FileId)
    requires Inv(w, s) && s.client.Deleting? && JournalHas(s, name, file) && file != s.client.file
    requires !Retained(s.client.hub, file) && file in s.revisions
    ensures CanLose(w, s, file)
  {
    if Pending(s).request in s.answered {
      AnsweredThenDeletes(w, s, name, file);
    } else {
      var s' := Sent(s);
      assert Next(w, s, s', SendDeleteStep);
      InvNext(w, s, s', SendDeleteStep);
      SentThenDeletes(w, s', name, file);
      StepFirst(w, s, s', SendDeleteStep, file);
    }
  }

  lemma DoomedIsLost(w: World, s: State, file: FileId)
    requires Inv(w, s) && file in s.revisions && Doomed(s, file)
    ensures CanLose(w, s, file)
  {
    if s.client.Rejected? && s.client.file == file {
      RejectedIsDeleted(w, s);
    } else if file in s.plain {
      PlainIsServed(w, s, file);
    } else if m :| m in s.inFlight && m.file == file {
      FlightIsServed(w, s, m);
    } else {
      var name :| name in s.journal && s.journal[name].file == Some(file);
      if s.client.Cleaning? {
        CleaningDeletes(w, s, name, file);
      } else if s.client.file == file {
        DeletingIsDeleted(w, s);
      } else {
        DeletingOtherThenDeletes(w, s, name, file);
      }
    }
  }

  /** The cleanup of a cancelled job deletes candidates as well. */
  lemma CancelledIsLost(w: World, s: State, file: FileId)
    requires Inv(w, s) && s.hub.status == Cancelled && file in s.revisions && Journaled(s, file)
    ensures CanLose(w, s, file)
  {
    var name :| name in s.journal && s.journal[name].file == Some(file);
    var s1 := s.(client := Idle);
    var s2 := s1.(client := Cleaning(s1.hub));
    assert Next(w, s, s1, StopStep) && Next(w, s1, s2, StartCleanupStep);
    InvNext(w, s, s1, StopStep);
    InvNext(w, s1, s2, StartCleanupStep);
    CleaningDeletes(w, s2, name, file);
    StepFirst(w, s1, s2, StartCleanupStep, file);
    StepFirst(w, s, s1, StopStep, file);
  }

  // ---- Nothing else can be lost ------------------------------------------------------------------

  /** A current candidate of a job that is not cancelled, whose deletion is not under way. */
  ghost predicate Safe(s: State, file: FileId) {
    s.hub.status != Cancelled && IsCurrent(s, file) && file in s.revisions && !Doomed(s, file)
  }

  lemma SafeFile(w: World, s: State, s': State, step: Step, file: FileId)
    requires Next(w, s, s', step) && file in s.revisions && !Doomed(s, file)
    ensures file in s'.revisions
  {
    hide Journaled, Retained;
  }

  lemma DeletingIsDoomed(s: State)
    requires ClientInv(s) && s.client.Deleting?
    ensures Doomed(s, s.client.file)
  {
    assert s.journal[s.client.name].file == Some(s.client.file);
  }

  lemma ListedBefore(w: World, s: State, s': State, step: Step, file: FileId)
    requires Next(w, s, s', step) && (s'.client.Cleaning? || s'.client.Deleting?)
    ensures Journaled(s', file) ==> Journaled(s, file)
    ensures step.StartCleanupStep? || ((s.client.Cleaning? || s.client.Deleting?) && s'.client.hub == s.client.hub)
  {
    hide Doomed, Retained, Journaled;
    if Journaled(s', file) {
      JournalAddsNothing(w, s, s', step, file);
    }
  }

  /** Without the Hub, a deletion gets under way by a rejection or at the start of a cleanup. */
  lemma NewlyDoomed(w: World, s: State, s': State, step: Step, file: FileId)
    requires Inv(w, s) && Next(w, s, s', step) && Quiet(step) && !Doomed(s, file) && Doomed(s', file)
    ensures || (step.SubmissionRejectedStep? && s.client.file == file)
            || (step.StartCleanupStep? && Journaled(s, file) && !Retained(s.hub, file))
  {
    hide RecordInv, FlightInv, HubInv, SeenInv, SeenOwned, Retained, Journaled;
    if s.client.Deleting? {
      DeletingIsDoomed(s);
    }
    if s'.client.Cleaning? || s'.client.Deleting? {
      ListedBefore(w, s, s', step, file);
    }
    hide ClientInv;
  }

  lemma SafeNext(w: World, s: State, s': State, step: Step, file: FileId)
    requires Inv(w, s) && Next(w, s, s', step) && Quiet(step) && Safe(s, file)
    ensures Safe(s', file)
  {
    HubStays(w, s, s', step);
    SafeFile(w, s, s', step, file);
    SameCandidates(s, s', file);
    if Doomed(s', file) {
      NewlyDoomed(w, s, s', step, file);
      ClientDoomsNoCandidate(w, s, s', step, file);
    }
  }

  /** A candidate is not rejected, and the cleanup of a failed job retains it. */
  lemma ClientDoomsNoCandidate(w: World, s: State, s': State, step: Step, file: FileId)
    requires Inv(w, s) && Next(w, s, s', step) && IsCurrent(s, file) && s.hub.status != Cancelled
    ensures step.SubmissionRejectedStep? ==> s.client.file != file
    ensures step.StartCleanupStep? ==> Retained(s.hub, file)
  {
    if step.SubmissionRejectedStep? {
      RejectedIsNoCandidate(w, s);
    }
  }

  lemma RejectedIsNoCandidate(w: World, s: State)
    requires Inv(w, s) && s.client.Submitting? && !IsCandidate(s.hub, s.client.name, s.client.file)
    ensures !IsCurrent(s, s.client.file)
  {
    CandidateOfOwner(s, s.client.name, s.client.file);
  }

  /** An output of a cancelled job that neither the journal lists nor a delete in flight concerns, with no
      worker at work. */
  ghost predicate Unlisted(s: State, file: FileId) {
    && s.hub.status == Cancelled && file in s.revisions && !AtWork(s.client)
    && !Doomed(s, file) && !Journaled(s, file)
  }

  lemma UnlistedNext(w: World, s: State, s': State, step: Step, file: FileId)
    requires Inv(w, s) && Next(w, s, s', step) && Quiet(step) && Unlisted(s, file)
    ensures Unlisted(s', file)
  {
    HubStays(w, s, s', step);
    SafeFile(w, s, s', step, file);
    StaysIdle(w, s, s', step);
    if Journaled(s', file) {
      JournalAddsNothing(w, s, s', step, file);
    }
    hide Inv, Journaled, Next, Doomed;
    if Doomed(s', file) {
      NewlyDoomed(w, s, s', step, file);
      NotSubmitting(w, s, s', step);
    }
  }

  lemma StaysIdle(w: World, s: State, s': State, step: Step)
    requires Next(w, s, s', step) && s.hub.status == Cancelled && !AtWork(s.client)
    ensures !AtWork(s'.client)
  {
    hide Doomed, Journaled, Retained;
  }

  lemma NotSubmitting(w: World, s: State, s': State, step: Step)
    requires Next(w, s, s', step) && !AtWork(s.client)
    ensures !step.SubmissionRejectedStep?
  {
  }

  lemma {:induction false} KeptAlong(w: World, keeps: State -> bool, s: State, states: seq<State>, steps: seq<Step>, k: nat)
    requires |states| == |steps| + 1 && states[0] == s && k < |states| && Inv(w, s) && keeps(s)
    requires forall j {:trigger QuietAt(w, states, steps, j)} :: 0 <= j < |steps| ==> QuietAt(w, states, steps, j)
    requires forall t, t', step {:trigger Next(w, t, t', step)} ::
      Inv(w, t) && keeps(t) && Next(w, t, t', step) && Quiet(step) ==> keeps(t')
    ensures Inv(w, states[k]) && keeps(states[k])
  {
    if k > 0 {
      KeptAlong(w, keeps, s, states, steps, k - 1);
      assert QuietAt(w, states, steps, k - 1);
      InvNext(w, states[k - 1], states[k], steps[k - 1]);
    }
  }

  lemma SafeIsKept(w: World, s: State, file: FileId)
    requires Inv(w, s) && Safe(s, file)
    ensures !CanLose(w, s, file)
  {
    forall states, steps ensures !LostBy(w, s, file, states, steps) {
      if LostBy(w, s, file, states, steps) {
        forall t, t', step | Inv(w, t) && Safe(t, file) && Next(w, t, t', step) && Quiet(step) ensures Safe(t', file) {
          SafeNext(w, t, t', step, file);
        }
        KeptAlong(w, t => Safe(t, file), s, states, steps, |steps|);
      }
    }
  }

  lemma UnlistedIsKept(w: World, s: State, file: FileId)
    requires Inv(w, s) && Unlisted(s, file)
    ensures !CanLose(w, s, file)
  {
    forall states, steps ensures !LostBy(w, s, file, states, steps) {
      if LostBy(w, s, file, states, steps) {
        forall t, t', step | Inv(w, t) && Unlisted(t, file) && Next(w, t, t', step) && Quiet(step) ensures Unlisted(t', file) {
          UnlistedNext(w, t, t', step, file);
        }
        KeptAlong(w, t => Unlisted(t, file), s, states, steps, |steps|);
      }
    }
  }

  // ---- The exact conditions -----------------------------------------------------------------------

  /** At any point of any run: a current candidate of a job that is not cancelled can be lost without
      another change of the Hub if and only if its deletion is already under way. */
  lemma CandidateLostIff(w: World, states: seq<State>, steps: seq<Step>, k: nat, file: FileId)
    requires IsRun(w, states, steps) && k < |states|
    requires IsCurrent(states[k], file) && file in states[k].revisions && states[k].hub.status != Cancelled
    ensures CanLose(w, states[k], file) <==> Doomed(states[k], file)
  {
    RunInv(w, states, steps, k);
    if Doomed(states[k], file) {
      DoomedIsLost(w, states[k], file);
    } else {
      SafeIsKept(w, states[k], file);
    }
  }

  /** An output of a cancelled job can be lost if the journal lists it or its deletion is under way, and
      only then unless a worker is still at work. */
  lemma CancelledLostIff(w: World, states: seq<State>, steps: seq<Step>, k: nat, file: FileId)
    requires IsRun(w, states, steps) && k < |states|
    requires file in states[k].revisions && states[k].hub.status == Cancelled
    ensures Journaled(states[k], file) || Doomed(states[k], file) ==> CanLose(w, states[k], file)
    ensures !AtWork(states[k].client) ==>
              (CanLose(w, states[k], file) <==> Journaled(states[k], file) || Doomed(states[k], file))
  {
    var s := states[k];
    RunInv(w, states, steps, k);
    if Journaled(s, file) {
      CancelledIsLost(w, s, file);
    } else if Doomed(s, file) {
      DoomedIsLost(w, s, file);
    } else if !AtWork(s.client) {
      UnlistedIsKept(w, s, file);
    }
  }
}
