/** What the transcode client can bring to an end (src/transcode.rs:302-513, 662-799): when a cleanup can get
    rid of every output that is not to be kept, and when a worker can get an output submitted. */
module TranscodeProgress {
  import opened Manifests
  import opened TranscodeCleanup
  import C = CandidateLoss

  type Allowed = (State, Step) -> bool
  type Goal = State -> bool

  ghost predicate AllowedAt(w: World, allowed: Allowed, states: seq<State>, steps: seq<Step>, k: nat) {
    StepAt(w, states, steps, k) && allowed(states[k], steps[k])
  }

  ghost predicate Leads(w: World, allowed: Allowed, s: State, goal: Goal, states: seq<State>, steps: seq<Step>) {
    && |states| == |steps| + 1 && states[0] == s && goal(states[|steps|])
    && forall k {:trigger AllowedAt(w, allowed, states, steps, k)} :: 0 <= k < |steps| ==> AllowedAt(w, allowed, states, steps, k)
  }

  /** Allowed steps alone can lead to the goal. */
  ghost predicate CanReach(w: World, allowed: Allowed, s: State, goal: Goal) {
    exists states, steps :: Leads(w, allowed, s, goal, states, steps)
  }

  lemma ReachedAlready(w: World, allowed: Allowed, s: State, goal: Goal)
    requires goal(s)
    ensures CanReach(w, allowed, s, goal)
  {
    assert Leads(w, allowed, s, goal, [s], []);
  }

  lemma StepFirst(w: World, allowed: Allowed, s: State, s': State, step: Step, goal: Goal)
    requires Next(w, s, s', step) && allowed(s, step) && CanReach(w, allowed, s', goal)
    ensures CanReach(w, allowed, s, goal)
  {
    var states, steps :| Leads(w, allowed, s', goal, states, steps);
    var states', steps' := [s] + states, [step] + steps;
    forall k | 0 <= k < |steps'| ensures AllowedAt(w, allowed, states', steps', k) {
      if k > 0 {
        assert AllowedAt(w, allowed, states, steps, k - 1);
      }
    }
    assert Leads(w, allowed, s, goal, states', steps');
  }

  /** What every allowed step keeps holds along the way. */
  lemma {:induction false} KeptAlong(
    w: World, allowed: Allowed, s: State, goal: Goal, keeps: Goal, states: seq<State>, steps: seq<Step>, k: nat)
    requires Leads(w, allowed, s, goal, states, steps) && k < |states| && Inv(w, s) && keeps(s)
    requires forall a, b, step {:trigger Next(w, a, b, step), keeps(a)} ::
      Inv(w, a) && keeps(a) && Next(w, a, b, step) && allowed(a, step) ==> keeps(b)
    ensures Inv(w, states[k]) && keeps(states[k])
  {
    if k > 0 {
      KeptAlong(w, allowed, s, goal, keeps, states, steps, k - 1);
      assert AllowedAt(w, allowed, states, steps, k - 1);
      InvNext(w, states[k - 1], states[k], steps[k - 1]);
    }
  }

  // ---- The cleanup -----------------------------------------------------------------------------

  /** The steps of a cleanup and of the bucket serving its conditional deletes. */
  predicate CleanupStep(step: Step) {
    || step.StopStep? || step.StartCleanupStep? || step.PrepareIntentStep? || step.SendDeleteStep?
    || step.DeleteAnsweredStep? || step.BucketServesDeleteStep?
  }

  function OnlyCleanup(): Allowed {
    (_, step) => CleanupStep(step)
  }

  /** The journal lists an output for the variant that is not to be kept. */
  ghost predicate Outstanding(s: State, name: Label) {
    name in s.journal && s.journal[name].file.Some? && !Retained(s.hub, s.journal[name].file.value)
  }

  ghost predicate CleanedUp(s: State) {
    s.client == Cleaning(s.hub) && forall name :: !Outstanding(s, name)
  }

  /** Its delete can be served: without an intent the output must still exist; with one it must not have
      changed since, unless its delete has been answered or it is gone. */
  ghost predicate Removable(s: State, name: Label)
    requires name in s.journal && s.journal[name].file.Some?
  {
    var file := s.journal[name].file.value;
    match s.journal[name].intent
    case None => file in s.revisions
    case Some(i) => i.request in s.answered || (file in s.revisions ==> s.revisions[file] == i.revision)
  }

  ghost function OutstandingSet(s: State): set<Label> {
    set name | name in s.journal && Outstanding(s, name)
  }

  ghost predicate OthersRemovable(s: State, name: Label) {
    forall n {:trigger Outstanding(s, n)} :: n != name && Outstanding(s, n) ==> Removable(s, n)
  }

  /** Two variants do not share an output. */
  lemma OutputsApart(w: World, s: State, a: Label, b: Label)
    requires OwnerInv(w, s) && a in s.journal && b in s.journal && a != b
    ensures s.journal[a].file.Some? && s.journal[b].file.Some? ==> s.journal[a].file != s.journal[b].file
  {
  }

  ghost predicate DeletingNow(w: World, s: State, name: Label) {
    && Inv(w, s) && s.client.Deleting? && s.client.hub == s.hub && s.client.name == name
    && name in s.journal && s.journal[name].file == Some(s.client.file) && s.journal[name].intent.Some?
    && Outstanding(s, name) && OthersRemovable(s, name)
  }

  /** The delete has been answered, and its output is struck from the journal ... */
  lemma {:induction false} FromAnswered(w: World, s: State, name: Label)
    requires DeletingNow(w, s, name) && C.Pending(s).request in s.answered
    ensures CanReach(w, OnlyCleanup(), s, CleanedUp)
    decreases |OutstandingSet(s)|, 0
  {
    var s' := C.Struck(s);
    assert Next(w, s, s', DeleteAnsweredStep);
    StruckOthers(s, s', name);
    hide Outstanding, Removable, OthersRemovable, CleanedUp, OutstandingSet, C.Struck, C.Pending, Next, Inv;
    InvNext(w, s, s', DeleteAnsweredStep);
    FromCleaning(w, s');
    StepFirst(w, OnlyCleanup(), s, s', DeleteAnsweredStep, CleanedUp);
  }

  lemma StruckOthers(s: State, s': State, name: Label)
    requires s.client.Deleting? && s.client.name == name && name in s.journal && s.journal[name].intent.Some?
    requires s' == C.Struck(s) && Outstanding(s, name) && OthersRemovable(s, name)
    ensures OutstandingSet(s') == OutstandingSet(s) - {name} && |OutstandingSet(s')| < |OutstandingSet(s)|
    ensures forall n {:trigger Outstanding(s', n)} :: Outstanding(s', n) ==> Removable(s', n)
  {
    forall n | Outstanding(s', n) ensures n != name && Outstanding(s, n) && Removable(s', n) {
      assert Outstanding(s, n);
    }
    assert OutstandingSet(s') == OutstandingSet(s) - {name};
  }

  /** ... after it has been served ... */
  lemma {:induction false} FromSentDelete(w: World, s: State, name: Label)
    requires DeletingNow(w, s, name) && C.Pending(s) in s.inFlight && Removable(s, name)
    ensures CanReach(w, OnlyCleanup(), s, CleanedUp)
    decreases |OutstandingSet(s)|, 1
  {
    var m, f := C.Pending(s), s.client.file;
    if m.request in s.answered {
      FromAnswered(w, s, name);
    } else {
      var s' := s.(answered := s.answered[m.request := f in s.revisions], revisions := s.revisions - {f});
      assert Next(w, s, s', BucketServesDeleteStep(m));
      InvNext(w, s, s', BucketServesDeleteStep(m));
      forall n | n != name && Outstanding(s', n) ensures Removable(s', n) {
        OutputsApart(w, s, n, name);
        assert Outstanding(s, n);
      }
      assert OutstandingSet(s') == OutstandingSet(s);
      FromAnswered(w, s', name);
      StepFirst(w, OnlyCleanup(), s, s', BucketServesDeleteStep(m), CleanedUp);
    }
  }

  /** ... which it has been sent for. */
  lemma {:induction false} FromDeleting(w: World, s: State, name: Label)
    requires DeletingNow(w, s, name) && Removable(s, name)
    ensures CanReach(w, OnlyCleanup(), s, CleanedUp)
    decreases |OutstandingSet(s)|, 2
  {
    var s' := C.Sent(s);
    assert Next(w, s, s', SendDeleteStep);
    InvNext(w, s, s', SendDeleteStep);
    forall n | n != name && Outstanding(s', n) ensures Removable(s', n) {
      assert Outstanding(s, n);
    }
    assert OutstandingSet(s') == OutstandingSet(s);
    FromSentDelete(w, s', name);
    StepFirst(w, OnlyCleanup(), s, s', SendDeleteStep, CleanedUp);
  }

  /** One output after the other. */
  lemma {:induction false} FromCleaning(w: World, s: State)
    requires Inv(w, s) && s.client == Cleaning(s.hub)
    requires forall n {:trigger Outstanding(s, n)} :: Outstanding(s, n) ==> Removable(s, n)
    ensures CanReach(w, OnlyCleanup(), s, CleanedUp)
    decreases |OutstandingSet(s)|, 3
  {
    if name :| Outstanding(s, name) {
      var request := C.FreshRequest(s.issued.Keys);
      var step := PrepareIntentStep(name, request);
      var s' := Intended(w, s, name, request);
      assert Next(w, s, s', step);
      InvNext(w, s, s', step);
      forall n | Outstanding(s', n) ensures Outstanding(s, n) && Removable(s', n) {
        assert Outstanding(s, n);
      }
      assert OutstandingSet(s') == OutstandingSet(s);
      FromDeleting(w, s', name);
      StepFirst(w, OnlyCleanup(), s, s', step, CleanedUp);
    } else {
      ReachedAlready(w, OnlyCleanup(), s, CleanedUp);
    }
  }

  ghost function Intended(w: World, s: State, name: Label, request: RequestId): State
    requires s.client.Cleaning? && Outstanding(s, name) && Removable(s, name)
  {
    var file := s.journal[name].file.value;
    if s.journal[name].intent.Some? then s.(client := Deleting(s.client.hub, name, file))
    else
      var intent := Intent(request, s.revisions[file], w.hash(file), file);
      s.(journal := s.journal[name := Variant(Some(file), Some(w.hash(file)), Some(intent))],
         issued := s.issued[request := RequestOf(intent, file)], client := Deleting(s.client.hub, name, file))
  }

  ghost predicate Stuck(s: State, name: Label) {
    Outstanding(s, name) && !Removable(s, name)
  }

  /** The bucket does not serve it, nor anything else for the same output. */
  lemma StuckServed(w: World, s: State, s': State, m: DeleteRequest, name: Label)
    requires RecordInv(w, s) && Stuck(s, name) && BucketServesDelete(w, s, s', m)
    ensures Stuck(s', name)
  {
    InFlightIsIssued(s, m);
    assert m.request in s.issued;
  }

  lemma StuckPrepared(w: World, s: State, s': State, prepared: Label, request: RequestId, name: Label)
    requires Stuck(s, name) && PrepareIntent(w, s, s', prepared, request)
    ensures Stuck(s', name)
  {
  }

  lemma StuckAnswered(s: State, s': State, name: Label)
    requires Stuck(s, name) && ClientInv(s) && DeleteAnswered(s, s')
    ensures Stuck(s', name)
  {
  }

  lemma StuckNext(w: World, s: State, s': State, step: Step, name: Label)
    requires Inv(w, s) && Stuck(s, name) && Next(w, s, s', step) && CleanupStep(step)
    ensures Stuck(s', name)
  {
    hide RecordInv, HubInv, FlightInv, ClientInv, BucketServesDelete, PrepareIntent, DeleteAnswered;
    match step {
      case BucketServesDeleteStep(m) => StuckServed(w, s, s', m, name);
      case PrepareIntentStep(prepared, request) => StuckPrepared(w, s, s', prepared, request, name);
      case DeleteAnsweredStep => StuckAnswered(s, s', name);
      case _ =>
    }
  }

  lemma NeverCleanedUp(w: World, s: State, name: Label)
    requires Inv(w, s) && Stuck(s, name)
    ensures !CanReach(w, OnlyCleanup(), s, CleanedUp)
  {
    if CanReach(w, OnlyCleanup(), s, CleanedUp) {
      var path, taken :| Leads(w, OnlyCleanup(), s, CleanedUp, path, taken);
      forall a, b, step | Inv(w, a) && Stuck(a, name) && Next(w, a, b, step) && OnlyCleanup()(a, step)
        ensures Stuck(b, name)
      {
        StuckNext(w, a, b, step, name);
      }
      KeptAlong(w, OnlyCleanup(), s, CleanedUp, t => Stuck(t, name), path, taken, |taken|);
    }
  }

  /** A cleanup of a failed or cancelled job can be brought to an end, at any point of any run and without
      any change from elsewhere, if and only if each output that it has to delete can be deleted. */
  lemma CleanupFinishesIff(w: World, states: seq<State>, steps: seq<Step>, k: nat)
    requires IsRun(w, states, steps) && k < |states| && CleanupHub(states[k].hub)
    ensures CanReach(w, OnlyCleanup(), states[k], CleanedUp)
            <==> forall name {:trigger Outstanding(states[k], name)} ::
                   Outstanding(states[k], name) ==> Removable(states[k], name)
  {
    var s := states[k];
    RunInv(w, states, steps, k);
    if name :| Stuck(s, name) {
      NeverCleanedUp(w, s, name);
    } else {
      forall n | Outstanding(s, n) ensures Removable(s, n) {
        assert !Stuck(s, n);
      }
      FromAnywhere(w, s);
    }
  }

  /** The client is started again, as a cleanup. */
  lemma FromAnywhere(w: World, s: State)
    requires Inv(w, s) && CleanupHub(s.hub)
    requires forall n {:trigger Outstanding(s, n)} :: Outstanding(s, n) ==> Removable(s, n)
    ensures CanReach(w, OnlyCleanup(), s, CleanedUp)
  {
    var stopped := s.(client := Idle);
    var started := s.(client := Cleaning(s.hub));
    assert Next(w, s, stopped, StopStep);
    assert Next(w, stopped, started, StartCleanupStep);
    forall n | Outstanding(started, n) ensures Removable(started, n) {
      assert Outstanding(s, n);
    }
    hide Next, Inv, Outstanding, Removable, CleanedUp, CanReach;
    InvNext(w, s, stopped, StopStep);
    InvNext(w, stopped, started, StartCleanupStep);
    FromCleaning(w, started);
    StepFirst(w, OnlyCleanup(), stopped, started, StartCleanupStep, CleanedUp);
    StepFirst(w, OnlyCleanup(), s, stopped, StopStep, CleanedUp);
  }

  // ---- The worker ------------------------------------------------------------------------------

  /** The worker's steps, where the Hub accepts what the worker is submitting and answers at once. */
  predicate OwnStep(s: State, step: Step) {
    match step
    case StopStep => true
    case StartWorkerStep => true
    case AdoptCandidateStep(_) => true
    case UploadStep(_, _) => true
    case SaveUploadStep => true
    case ReuseUploadStep(_) => true
    case HubAcceptsStep(name, file) => s.client.Submitting? && s.client.name == name && s.client.file == file
    case SubmissionShownStep(seen) => seen == s.hub
    case _ => false
  }

  function OnlyOwn(): Allowed {
    (s, step) => OwnStep(s, step)
  }

  /** The Hub shows a candidate for the variant, and the journal has it. */
  ghost predicate Published(s: State, name: Label) {
    && s.client == Working(s.hub) && name in s.hub.candidates
    && JournalHas(s, name, s.hub.candidates[name])
  }

  /** The job is under way, and the journal does not contradict the Hub's candidate; without a candidate, the
      job is running and the output in the journal exists. */
  ghost predicate CanPublish(s: State, name: Label) {
    && name in s.journal
    && s.hub.status in {Running, AwaitingVerification, Ready}
    && var file := s.journal[name].file;
       if name in s.hub.candidates then file == None || file == Some(s.hub.candidates[name])
       else s.hub.status == Running && (file.Some? ==> file.value in s.revisions)
  }

  ghost function PublishedGoal(name: Label): Goal {
    s => Published(s, name)
  }

  lemma FromSubmitting(w: World, s: State, name: Label)
    requires Inv(w, s) && s.client.Submitting? && s.client.seen == s.hub && s.client.name == name && name in s.journal
    ensures CanReach(w, OnlyOwn(), s, PublishedGoal(name))
  {
    var file := s.client.file;
    var hub := s.hub.(candidates := s.hub.candidates[name := file]);
    var accepted := s.(hub := hub, replies := s.replies + {hub}, late := if Doomed(s, file) then s.late + {file} else s.late);
    var shown := accepted.(client := Working(hub));
    assert Next(w, s, accepted, HubAcceptsStep(name, file));
    assert Next(w, accepted, shown, SubmissionShownStep(hub));
    ReachedAlready(w, OnlyOwn(), shown, PublishedGoal(name));
    StepFirst(w, OnlyOwn(), accepted, shown, SubmissionShownStep(hub), PublishedGoal(name));
    StepFirst(w, OnlyOwn(), s, accepted, HubAcceptsStep(name, file), PublishedGoal(name));
  }

  lemma FromUploaded(w: World, s: State, name: Label)
    requires Inv(w, s) && s.client.Uploaded? && s.client.seen == s.hub && s.client.name == name
    ensures CanReach(w, OnlyOwn(), s, PublishedGoal(name))
  {
    var file := s.client.file;
    var saved := s.(journal := s.journal[name := Variant(Some(file), Some(w.hash(file)), None)],
                    client := Submitting(s.hub, name, file));
    assert Next(w, s, saved, SaveUploadStep);
    InvNext(w, s, saved, SaveUploadStep);
    FromSubmitting(w, saved, name);
    StepFirst(w, OnlyOwn(), s, saved, SaveUploadStep, PublishedGoal(name));
  }

  lemma FromCandidate(w: World, s: State, name: Label)
    requires s.client == Working(s.hub) && CanPublish(s, name) && name in s.hub.candidates
    ensures CanReach(w, OnlyOwn(), s, PublishedGoal(name))
  {
    var v, file := s.journal[name], s.hub.candidates[name];
    var adopted := if v.file == None || v.recorded != Some(w.hash(file))
                   then s.(journal := s.journal[name := Variant(Some(file), Some(w.hash(file)), None)]) else s;
    assert Next(w, s, adopted, AdoptCandidateStep(name));
    ReachedAlready(w, OnlyOwn(), adopted, PublishedGoal(name));
    StepFirst(w, OnlyOwn(), s, adopted, AdoptCandidateStep(name), PublishedGoal(name));
  }

  lemma FromJournal(w: World, s: State, name: Label)
    requires Inv(w, s) && s.client == Working(s.hub) && CanPublish(s, name)
    requires name !in s.hub.candidates && s.journal[name].file.Some?
    ensures CanReach(w, OnlyOwn(), s, PublishedGoal(name))
  {
    var reused := s.(client := Submitting(s.hub, name, s.journal[name].file.value));
    assert Next(w, s, reused, ReuseUploadStep(name));
    InvNext(w, s, reused, ReuseUploadStep(name));
    FromSubmitting(w, reused, name);
    StepFirst(w, OnlyOwn(), s, reused, ReuseUploadStep(name), PublishedGoal(name));
  }

  lemma FromNothing(w: World, s: State, name: Label)
    requires Inv(w, s) && s.client == Working(s.hub) && s.hub.status == Running
    requires name !in s.hub.candidates && name in s.journal && s.journal[name].file == None
    ensures CanReach(w, OnlyOwn(), s, PublishedGoal(name))
  {
    var file := C.FreshRequest(s.owners.Keys);
    var uploaded := s.(owners := s.owners[file := name], revisions := s.revisions[file := 0],
                       client := Uploaded(s.hub, name, file));
    assert Next(w, s, uploaded, UploadStep(name, file));
    InvNext(w, s, uploaded, UploadStep(name, file));
    FromUploaded(w, uploaded, name);
    StepFirst(w, OnlyOwn(), s, uploaded, UploadStep(name, file), PublishedGoal(name));
  }

  lemma FromWorking(w: World, s: State, name: Label)
    requires Inv(w, s) && s.client == Working(s.hub) && CanPublish(s, name)
    ensures CanReach(w, OnlyOwn(), s, PublishedGoal(name))
  {
    if name in s.hub.candidates {
      FromCandidate(w, s, name);
    } else if s.journal[name].file.Some? {
      FromJournal(w, s, name);
    } else {
      FromNothing(w, s, name);
    }
  }

  /** The variant is blocked, and nothing the worker has seen says otherwise. */
  ghost predicate Blocked(s: State, name: Label) {
    && name in s.journal && !CanPublish(s, name)
    && (s.client.Working? || s.client.Uploaded? || s.client.Submitting? ==>
          s.client.seen.status == s.hub.status && s.hub.status in {Running, AwaitingVerification, Ready}
          && (name in s.client.seen.candidates <==> name in s.hub.candidates)
          && (name in s.hub.candidates && name in s.client.seen.candidates ==>
                s.client.seen.candidates[name] == s.hub.candidates[name]))
    && (s.client.Uploaded? || s.client.Submitting? ==> s.client.name != name)
  }

  lemma BlockedNext(w: World, s: State, s': State, step: Step, name: Label)
    requires Inv(w, s) && Blocked(s, name) && Next(w, s, s', step) && OwnStep(s, step)
    ensures Blocked(s', name)
  {
    hide IntentInv, RequestInv, SameRequestInv, HubInv, FlightInv;
  }

  lemma NeverPublished(w: World, s: State, name: Label)
    requires Inv(w, s) && Blocked(s, name)
    ensures !CanReach(w, OnlyOwn(), s, PublishedGoal(name))
  {
    if CanReach(w, OnlyOwn(), s, PublishedGoal(name)) {
      var path, taken :| Leads(w, OnlyOwn(), s, PublishedGoal(name), path, taken);
      forall a, b, step | Inv(w, a) && Blocked(a, name) && Next(w, a, b, step) && OnlyOwn()(a, step)
        ensures Blocked(b, name)
      {
        BlockedNext(w, a, b, step, name);
      }
      KeptAlong(w, OnlyOwn(), s, PublishedGoal(name), t => Blocked(t, name), path, taken, |taken|);
    }
  }

  /** A worker that is started can get a variant's output submitted and recorded, or adopt the candidate that is
      already there, if and only if the job is under way and the journal does not list another output than
      the candidate; without a candidate, the job must be running and an output in the journal exist. */
  lemma OutputPublishedIff(w: World, states: seq<State>, steps: seq<Step>, k: nat, name: Label)
    requires IsRun(w, states, steps) && k < |states| && name in w.labels
    requires states[k].client == Idle
    ensures CanReach(w, OnlyOwn(), states[k], PublishedGoal(name)) <==> CanPublish(states[k], name)
  {
    var s := states[k];
    RunInv(w, states, steps, k);
    if CanPublish(s, name) {
      var started := s.(client := Working(s.hub));
      assert Next(w, s, started, StartWorkerStep);
      InvNext(w, s, started, StartWorkerStep);
      FromWorking(w, started, name);
      StepFirst(w, OnlyOwn(), s, started, StartWorkerStep, PublishedGoal(name));
    } else {
      NeverPublished(w, s, name);
    }
  }

  /** Once the Hub's reply has shown the submitted output as candidate, the journal has that output, too. */
  lemma ShownIsJournaled(w: World, states: seq<State>, steps: seq<Step>, k: nat)
    requires IsRun(w, states, steps) && k < |steps| && steps[k].SubmissionShownStep?
    ensures states[k].client.Submitting? && states[k + 1].client == Working(steps[k].seen)
    ensures var name, seen := states[k].client.name, steps[k].seen;
            name in seen.candidates && JournalHas(states[k + 1], name, seen.candidates[name])
  {
    RunInv(w, states, steps, k);
    assert StepAt(w, states, steps, k);
  }
}
