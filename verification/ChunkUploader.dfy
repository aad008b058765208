/** The concurrent chunk uploader and its retries (crates/ic-oss/src/bucket.rs:734-884 and
    src/file.rs:97-132), as interleaved steps of the reading loop, the spawned tasks, the receiver
    and the bucket. */
module ChunkUploader {
  import opened Collections
  import opened FileChunks
  import opened Manifests

  const MAX_UPLOAD_RETRIES: nat := 10

  /** `frames` are the chunks of the file, `limit` is the configured concurrency. */
  datatype Setting = Setting(frames: seq<Bytes>, limit: nat, retry: nat)

  /** Before a permit is held, while one is held, and after the loop's end. */
  datatype Loop = AtPermit | Holding | EndedOk | EndedErr

  /** An acknowledged task has released its permit but not yet reported. */
  datatype Task = Running | Acknowledged | Rejected

  datatype Receiver = Receiving | ReceivedAll | ReceivedErr

  datatype Phase = Active | CommitSent | Succeeded | Failed

  /** The hash that the commit carries: one given beforehand, or that of the hashed bytes. */
  datatype CommitHash = Given(digest: nat) | HashOf(content: Bytes)

  /** A chunk call, by the attempt that made it. */
  datatype Call = Call(attempt: nat, index: nat)

  /** `calls` are the chunk calls in flight. A task that runs when its attempt fails is not aborted, so
      its call stays there until it ends by itself. `sent` are the chunks ever sent to the bucket. */
  datatype State = State(
    attempt: nat,
    excluded: set<nat>,
    given: Option<nat>,
    next: nat,
    hashed: Bytes,
    loop: Loop,
    tasks: map<nat, Task>,
    uploaded: set<nat>,
    channel: seq<bool>,
    receiver: Receiver,
    phase: Phase,
    calls: set<Call>,
    sent: set<nat>,
    stored: map<nat, Bytes>,
    commits: set<CommitHash>)

  /** A first attempt. Retries go through `Retry`. */
  ghost predicate Init(c: Setting, s: State, given: Option<nat>) {
    && c.retry <= MAX_UPLOAD_RETRIES
    && s == State(1, {}, given, 0, [], AtPermit, map[], {}, [], Receiving, Active, {}, {}, map[], {})
  }

  /** The tasks that hold a permit. */
  ghost function Holders(tasks: map<nat, Task>): set<nat> {
    set i | i in tasks && tasks[i] != Acknowledged
  }

  /** The calls in flight that were made by attempt `a`. */
  ghost function CallsOf(s: State, a: nat): set<Call> {
    set call | call in s.calls && call.attempt == a
  }

  ghost function PermitsInUse(s: State): nat {
    |Holders(s.tasks)| + if s.loop == Holding then 1 else 0
  }

  // ---- The reading loop ------------------------------------------------------------------------

  ghost predicate Acquire(c: Setting, s: State, s': State) {
    && s.phase == Active && s.loop == AtPermit && PermitsInUse(s) < c.limit
    && s' == s.(loop := Holding)
  }

  /** The access token cannot be read, or the stream fails. */
  ghost predicate LoopFails(s: State, s': State) {
    && s.phase == Active && (s.loop == AtPermit || s.loop == Holding)
    && s' == s.(loop := EndedErr)
  }

  function Hashed(c: Setting, s: State): Bytes
    requires s.next < |c.frames|
  {
    if s.given.Some? then s.hashed else s.hashed + c.frames[s.next]
  }

  ghost predicate SkipFrame(c: Setting, s: State, s': State) {
    && s.phase == Active && s.loop == Holding && s.next < |c.frames| && s.next in s.excluded
    && s' == s.(next := s.next + 1, hashed := Hashed(c, s), loop := AtPermit)
  }

  ghost predicate SpawnTask(c: Setting, s: State, s': State) {
    && s.phase == Active && s.loop == Holding && s.next < |c.frames| && s.next !in s.excluded
    && s' == s.(next := s.next + 1, hashed := Hashed(c, s), loop := AtPermit, tasks := s.tasks[s.next := Running],
                calls := s.calls + {Call(s.attempt, s.next)}, sent := s.sent + {s.next})
  }

  ghost predicate EndOfStream(c: Setting, s: State, s': State) {
    && s.phase == Active && s.loop == Holding && s.next == |c.frames|
    && s' == s.(loop := EndedOk)
  }

  // ---- Tasks and the bucket --------------------------------------------------------------------

  /** The bucket stores a chunk sent by this attempt or by an earlier one, however late. */
  ghost predicate Store(c: Setting, s: State, s': State, i: nat) {
    && i < |c.frames| && i in s.sent
    && s' == s.(stored := s.stored[i := c.frames[i]])
  }

  ghost predicate TaskAcknowledged(s: State, s': State, i: nat) {
    && s.phase == Active && i in s.tasks && s.tasks[i] == Running && i in s.stored
    && s' == s.(tasks := s.tasks[i := Acknowledged], uploaded := s.uploaded + {i}, calls := s.calls - {Call(s.attempt, i)})
  }

  /** The call fails, whether or not the bucket has stored the chunk. */
  ghost predicate TaskRejected(s: State, s': State, i: nat) {
    && s.phase == Active && i in s.tasks && s.tasks[i] == Running
    && s' == s.(tasks := s.tasks[i := Rejected], calls := s.calls - {Call(s.attempt, i)})
  }

  /** The result goes through the bounded channel; the task ends. */
  ghost predicate TaskReports(c: Setting, s: State, s': State, i: nat) {
    && s.phase == Active && i in s.tasks && s.tasks[i] != Running && |s.channel| < c.limit
    && s' == s.(channel := s.channel + [s.tasks[i] == Acknowledged], tasks := s.tasks - {i})
  }

  /** A call of an attempt that has already failed ends. Its result reaches nobody. */
  ghost predicate LeftoverEnds(s: State, s': State, call: Call) {
    && call in s.calls && (call.attempt < s.attempt || s.phase == Failed)
    && s' == s.(calls := s.calls - {call})
  }

  // ---- The receiver ----------------------------------------------------------------------------

  ghost predicate Receive(s: State, s': State) {
    && s.phase == Active && s.receiver == Receiving && s.channel != []
    && s' == s.(channel := s.channel[1..], receiver := if s.channel[0] then Receiving else ReceivedErr)
  }

  /** All senders are gone: the loop has dropped its own and no task is left. */
  ghost predicate ChannelClosed(s: State, s': State) {
    && s.phase == Active && s.receiver == Receiving && s.channel == [] && s.loop == EndedOk && s.tasks == map[]
    && s' == s.(receiver := ReceivedAll)
  }

  // ---- The end of an attempt -------------------------------------------------------------------

  ghost predicate SendCommit(s: State, s': State) {
    && s.phase == Active && s.loop == EndedOk && s.receiver == ReceivedAll
    && s' == s.(phase := CommitSent,
                commits := s.commits + {if s.given.Some? then Given(s.given.value) else HashOf(s.hashed)})
  }

  ghost predicate CommitAnswered(s: State, s': State, ok: bool) {
    && s.phase == CommitSent
    && s' == s.(phase := if ok then Succeeded else Failed)
  }

  /** One half of the join fails. The tasks are detached: nobody waits for them and nobody stops them. */
  ghost predicate AttemptFails(s: State, s': State) {
    && s.phase == Active && (s.loop == EndedErr || s.receiver == ReceivedErr)
    && s' == s.(phase := Failed, tasks := map[])
  }

  /** The next attempt skips what is known to be uploaded, hashes the whole stream again and has
      permits of its own. */
  ghost predicate Retry(c: Setting, s: State, s': State) {
    && s.phase == Failed && s.attempt <= c.retry
    && s' == Started(s)
  }

  ghost function Started(s: State): State {
    State(s.attempt + 1, s.uploaded, None, 0, [], AtPermit, map[], s.uploaded, [], Receiving, Active,
          s.calls, s.sent, s.stored, s.commits)
  }

  datatype Step =
    | AcquireStep | LoopFailsStep | SkipFrameStep | SpawnTaskStep | EndOfStreamStep
    | StoreStep(i: nat) | TaskAcknowledgedStep(i: nat) | TaskRejectedStep(i: nat) | TaskReportsStep(i: nat)
    | LeftoverEndsStep(call: Call) | ReceiveStep | ChannelClosedStep
    | SendCommitStep | CommitAnsweredStep(ok: bool) | AttemptFailsStep | RetryStep

  ghost predicate Next(c: Setting, s: State, s': State, step: Step) {
    match step
    case AcquireStep => Acquire(c, s, s')
    case LoopFailsStep => LoopFails(s, s')
    case SkipFrameStep => SkipFrame(c, s, s')
    case SpawnTaskStep => SpawnTask(c, s, s')
    case EndOfStreamStep => EndOfStream(c, s, s')
    case StoreStep(i) => Store(c, s, s', i)
    case TaskAcknowledgedStep(i) => TaskAcknowledged(s, s', i)
    case TaskRejectedStep(i) => TaskRejected(s, s', i)
    case TaskReportsStep(i) => TaskReports(c, s, s', i)
    case LeftoverEndsStep(call) => LeftoverEnds(s, s', call)
    case ReceiveStep => Receive(s, s')
    case ChannelClosedStep => ChannelClosed(s, s')
    case SendCommitStep => SendCommit(s, s')
    case CommitAnsweredStep(ok) => CommitAnswered(s, s', ok)
    case AttemptFailsStep => AttemptFails(s, s')
    case RetryStep => Retry(c, s, s')
  }

  // ---- Invariant -------------------------------------------------------------------------------

  ghost predicate StoreInv(c: Setting, s: State) {
    && (forall i :: i in s.stored ==> i < |c.frames| && s.stored[i] == c.frames[i])
    && (forall i :: i in s.sent ==> i < |c.frames|)
    && s.tasks.Keys <= s.sent
    && s.excluded <= s.uploaded <= s.stored.Keys
    && (forall i :: i in s.tasks ==> i < s.next && i !in s.excluded)
    && (forall i :: i in s.tasks ==> (s.tasks[i] == Acknowledged <==> i in s.uploaded))
    && (forall i :: i in s.uploaded ==> i in s.excluded || i < s.next)
    && s.next <= |c.frames|
  }

  /** A rejected result has not got lost: it is with its task, in the channel or already received. */
  ghost predicate FailurePending(s: State) {
    || (exists i :: i in s.tasks && s.tasks[i] == Rejected)
    || (exists k :: 0 <= k < |s.channel| && !s.channel[k])
    || s.receiver == ReceivedErr
  }

  /** Every frame read so far is uploaded or under way, unless a failure is about to be noticed. */
  ghost predicate ProgressInv(c: Setting, s: State) {
    s.phase == Active ==>
      && s.next <= |c.frames|
      && (s.given == None ==> s.hashed == Concat(c.frames[..s.next]))
      && (s.loop == EndedOk ==> s.next == |c.frames|)
      && (FailurePending(s) || forall i :: 0 <= i < s.next ==> i in s.uploaded || i in s.tasks)
      && (s.receiver == ReceivedAll ==> s.channel == [] && s.tasks == map[] && s.loop == EndedOk)
  }

  /** A commit has only been sent when the whole file is in the bucket, and with the right hash. */
  ghost predicate CommitInv(c: Setting, s: State, given: Option<nat>) {
    && (s.given == None || s.given == given)
    && (s.commits != {} ==> forall i :: 0 <= i < |c.frames| ==> i in s.stored)
    && (forall h :: h in s.commits ==> h == HashOf(Concat(c.frames)) || (given.Some? && h == Given(given.value)))
    && (s.phase == CommitSent || s.phase == Succeeded ==> s.commits != {} && forall i :: 0 <= i < |c.frames| ==> i in s.uploaded)
  }

  /** The calls in flight: those of the running tasks, and what earlier attempts have left behind. No
      attempt has calls for chunks that it was told to skip. */
  ghost predicate CallsPlaced(c: Setting, s: State) {
    && 1 <= s.attempt <= c.retry + 1
    && (forall call :: call in s.calls ==> 1 <= call.attempt <= s.attempt && call.index < |c.frames|)
    && (forall call :: call in CallsOf(s, s.attempt) ==> call.index !in s.excluded)
    && (s.phase == Active ==>
          forall i :: Call(s.attempt, i) in s.calls <==> i in s.tasks && s.tasks[i] == Running)
  }

  ghost predicate CallsInv(c: Setting, s: State) {
    CallsPlaced(c, s) && forall a {:trigger CallsOf(s, a)} :: |CallsOf(s, a)| <= c.limit
  }

  ghost predicate Inv(c: Setting, s: State, given: Option<nat>) {
    && PermitsInUse(s) <= c.limit && CallsInv(c, s)
    && StoreInv(c, s) && ProgressInv(c, s) && CommitInv(c, s, given)
  }

  /** Only a task that still runs, or has failed and not yet reported, holds a permit. */
  lemma HoldersChange(tasks: map<nat, Task>, i: nat)
    ensures Holders(tasks[i := Running]) == Holders(tasks) + {i}
    ensures Holders(tasks[i := Acknowledged]) == Holders(tasks) - {i}
    ensures Holders(tasks[i := Rejected]) == Holders(tasks) + {i}
    ensures Holders(tasks - {i}) == Holders(tasks) - {i}
  {
  }

  lemma PermitsNext(c: Setting, s: State, s': State, given: Option<nat>, step: Step)
    requires PermitsInUse(s) <= c.limit && Next(c, s, s', step)
    ensures PermitsInUse(s') <= c.limit
  {
    match step {
      case SpawnTaskStep => HoldersChange(s.tasks, s.next);
      case TaskAcknowledgedStep(i) => HoldersChange(s.tasks, i);
      case TaskRejectedStep(i) =>
        HoldersChange(s.tasks, i);
        assert Holders(s'.tasks) == Holders(s.tasks);
      case TaskReportsStep(i) => HoldersChange(s.tasks, i);
      case AttemptFailsStep => assert Holders(map[]) == {};
      case RetryStep => assert Holders(map[]) == {};
      case _ =>
    }
  }

  /** A running task holds a permit. */
  lemma RunningHoldPermits(c: Setting, s: State)
    requires s.phase == Active && PermitsInUse(s) <= c.limit
    requires forall i :: Call(s.attempt, i) in s.calls <==> i in s.tasks && s.tasks[i] == Running
    ensures |CallsOf(s, s.attempt)| <= c.limit
  {
    var indices := set call | call in CallsOf(s, s.attempt) :: call.index;
    InjectiveSize(CallsOf(s, s.attempt), s.attempt);
    SubsetSize(indices, Holders(s.tasks));
  }

  lemma {:induction false} InjectiveSize(calls: set<Call>, a: nat)
    requires forall call :: call in calls ==> call.attempt == a
    ensures |set call | call in calls :: call.index| == |calls|
  {
    if call :| call in calls {
      InjectiveSize(calls - {call}, a);
      assert (set other | other in calls :: other.index)
             == (set other | other in calls - {call} :: other.index) + {call.index};
    } else {
      assert calls == {};
      assert (set other | other in calls :: other.index) == {};
    }
  }

  lemma PlacedNext(c: Setting, s: State, s': State, step: Step)
    requires CallsPlaced(c, s) && StoreInv(c, s) && Next(c, s, s', step)
    ensures CallsPlaced(c, s')
  {
    hide Hashed;
  }

  /** Only the running attempt makes calls. */
  lemma OnlyNewCalls(c: Setting, s: State, s': State, step: Step, a: nat)
    requires Next(c, s, s', step) && (step.SpawnTaskStep? ==> a != s.attempt)
    ensures CallsOf(s', a) <= CallsOf(s, a)
  {
  }

  lemma CallsNext(c: Setting, s: State, s': State, given: Option<nat>, step: Step)
    requires Inv(c, s, given) && Next(c, s, s', step)
    ensures CallsInv(c, s')
  {
    PermitsNext(c, s, s', given, step);
    PlacedNext(c, s, s', step);
    forall a ensures |CallsOf(s', a)| <= c.limit {
      if step.SpawnTaskStep? && a == s.attempt {
        RunningHoldPermits(c, s');
      } else {
        hide Next, CallsOf;
        OnlyNewCalls(c, s, s', step, a);
        SubsetSize(CallsOf(s', a), CallsOf(s, a));
      }
    }
  }

  lemma StoreNext(c: Setting, s: State, s': State, given: Option<nat>, step: Step)
    requires Inv(c, s, given) && Next(c, s, s', step)
    ensures StoreInv(c, s')
  {
  }

  /** A failure stays visible until the attempt ends. */
  lemma FailureStays(c: Setting, s: State, s': State, given: Option<nat>, step: Step)
    requires Inv(c, s, given) && Next(c, s, s', step) && FailurePending(s)
    requires s.phase == Active && s'.phase == Active
    ensures FailurePending(s')
  {
    if i :| i in s.tasks && s.tasks[i] == Rejected {
      if step == TaskReportsStep(i) {
        assert !s'.channel[|s.channel|];
      } else {
        assert i in s'.tasks && s'.tasks[i] == Rejected;
      }
    } else if k :| 0 <= k < |s.channel| && !s.channel[k] {
      if step.ReceiveStep? {
        assert k > 0 ==> !s'.channel[k - 1];
      } else {
        assert !s'.channel[k];
      }
    }
  }

  lemma FramesAccounted(c: Setting, s: State, s': State, given: Option<nat>, step: Step)
    requires Inv(c, s, given) && Next(c, s, s', step) && !FailurePending(s)
    requires s.phase == Active && s'.phase == Active
    ensures FailurePending(s') || forall i :: 0 <= i < s'.next ==> i in s'.uploaded || i in s'.tasks
  {
    match step {
      case TaskRejectedStep(i) =>
        assert s'.tasks[i] == Rejected;
      case TaskReportsStep(i) =>
        assert s.tasks[i] == Acknowledged;
      case _ =>
    }
  }

  lemma HashNext(c: Setting, s: State, s': State, given: Option<nat>, step: Step)
    requires Inv(c, s, given) && Next(c, s, s', step) && s.phase == Active && s'.phase == Active
    ensures s'.given == None ==> s'.hashed == Concat(c.frames[..s'.next])
  {
    if step.SkipFrameStep? || step.SpawnTaskStep? {
      assert c.frames[..s.next + 1][..s.next] == c.frames[..s.next];
    }
  }

  lemma ProgressNext(c: Setting, s: State, s': State, given: Option<nat>, step: Step)
    requires Inv(c, s, given) && Next(c, s, s', step)
    ensures ProgressInv(c, s')
  {
    if s.phase == Active && s'.phase == Active {
      HashNext(c, s, s', given, step);
      if FailurePending(s) {
        FailureStays(c, s, s', given, step);
      } else {
        FramesAccounted(c, s, s', given, step);
      }
    } else if step.RetryStep? {
      assert c.frames[..0] == [];
    }
  }

  /** When the loop and the receiver have both ended well, every frame has been acknowledged. */
  lemma CommitIsDue(c: Setting, s: State, given: Option<nat>)
    requires Inv(c, s, given) && s.phase == Active && s.loop == EndedOk && s.receiver == ReceivedAll
    ensures forall i :: 0 <= i < |c.frames| ==> i in s.uploaded
    ensures s.given == None ==> s.hashed == Concat(c.frames)
  {
    assert !FailurePending(s);
    assert c.frames[..s.next] == c.frames;
  }

  lemma CommitNext(c: Setting, s: State, s': State, given: Option<nat>, step: Step)
    requires Inv(c, s, given) && Next(c, s, s', step)
    ensures CommitInv(c, s', given)
  {
    if step.SendCommitStep? {
      CommitIsDue(c, s, given);
    }
  }

  lemma InvNext(c: Setting, s: State, s': State, given: Option<nat>, step: Step)
    requires Inv(c, s, given) && Next(c, s, s', step)
    ensures Inv(c, s', given)
  {
    PermitsNext(c, s, s', given, step);
    CallsNext(c, s, s', given, step);
    StoreNext(c, s, s', given, step);
    ProgressNext(c, s, s', given, step);
    CommitNext(c, s, s', given, step);
  }

  // ---- Runs ------------------------------------------------------------------------------------

  ghost predicate StepAt(c: Setting, states: seq<State>, steps: seq<Step>, k: nat) {
    k < |steps| && k + 1 < |states| && Next(c, states[k], states[k + 1], steps[k])
  }

  ghost predicate IsPath(c: Setting, states: seq<State>, steps: seq<Step>) {
    && |states| == |steps| + 1
    && forall k {:trigger StepAt(c, states, steps, k)} :: 0 <= k < |steps| ==> StepAt(c, states, steps, k)
  }

  /** `states` is a run of `steps` from a first attempt: any interleaving, any number of retries. */
  ghost predicate IsRun(c: Setting, given: Option<nat>, states: seq<State>, steps: seq<Step>) {
    IsPath(c, states, steps) && Init(c, states[0], given)
  }

  lemma InitInv(c: Setting, s: State, given: Option<nat>)
    requires Init(c, s, given)
    ensures Inv(c, s, given)
  {
    assert Holders(map[]) == {};
    assert c.frames[..0] == [];
    assert forall a :: CallsOf(s, a) == {};
  }

  lemma {:induction false} RunInv(c: Setting, given: Option<nat>, states: seq<State>, steps: seq<Step>, k: nat)
    requires IsRun(c, given, states, steps) && k < |states|
    ensures Inv(c, states[k], given)
  {
    if k == 0 {
      InitInv(c, states[0], given);
    } else {
      RunInv(c, given, states, steps, k - 1);
      assert StepAt(c, states, steps, k - 1);
      InvNext(c, states[k - 1], states[k], given, steps[k - 1]);
    }
  }

  /** What an attempt reports as uploaded, and the next one therefore skips, is in the bucket with
      the bytes of the file. */
  lemma ReportedIsStored(c: Setting, given: Option<nat>, states: seq<State>, steps: seq<Step>, k: nat, i: nat)
    requires IsRun(c, given, states, steps) && k < |states| && i in states[k].uploaded
    ensures i < |c.frames| && i in states[k].stored && states[k].stored[i] == c.frames[i]
  {
    RunInv(c, given, states, steps, k);
  }

  /** Whatever the number of failed attempts, a commit is only ever sent when the bucket holds every
      chunk of the file, and it carries the hash the caller gave for the first attempt or the hash of
      the whole file, skipped chunks included. */
  lemma CommitIsWholeFile(content: Bytes, limit: nat, retry: nat, given: Option<nat>, states: seq<State>,
                          steps: seq<Step>, k: nat, h: CommitHash)
    requires IsRun(Setting(ChunksOf(content), limit, retry), given, states, steps)
    requires k < |states| && h in states[k].commits
    ensures h == HashOf(content) || (given.Some? && h == Given(given.value))
    ensures forall i :: 0 <= i < ChunkCount(|content|) ==> i in states[k].stored
    ensures forall i :: i in states[k].stored ==>
                          i < ChunkCount(|content|) && states[k].stored[i] == ChunkAt(content, i)
  {
    RunInv(Setting(ChunksOf(content), limit, retry), given, states, steps, k);
    ChunksRebuild(content);
  }

  // ---- Progress --------------------------------------------------------------------------------

  /** What is left of an attempt. */
  ghost function Remaining(c: Setting, s: State): int {
    1 + 8 * (|c.frames| - s.next) + LoopWeight(s.loop)
    + 2 * |s.tasks.Keys| + |s.calls| + |s.channel|
    + (if s.receiver == Receiving then 1 else 0)
  }

  function LoopWeight(l: Loop): nat {
    match l
    case AtPermit => 2
    case Holding => 1
    case _ => 0
  }

  lemma CallEnds(c: Setting, s: State, i: nat)
    requires CallsInv(c, s) && s.phase == Active && i in s.tasks && s.tasks[i] == Running
    ensures |s.calls - {Call(s.attempt, i)}| < |s.calls|
  {
    assert Call(s.attempt, i) in s.calls;
  }

  lemma AnsweredUsesUp(c: Setting, s: State, s': State, i: nat)
    requires CallsInv(c, s) && (TaskAcknowledged(s, s', i) || TaskRejected(s, s', i))
    ensures Remaining(c, s') < Remaining(c, s)
  {
    CallEnds(c, s, i);
    hide CallsInv;
    assert s'.tasks.Keys == s.tasks.Keys;
  }

  lemma ReportUsesUp(c: Setting, s: State, s': State, i: nat)
    requires TaskReports(c, s, s', i)
    ensures Remaining(c, s') < Remaining(c, s)
  {
    assert s'.tasks.Keys == s.tasks.Keys - {i};
  }

  lemma SpawnUsesUp(c: Setting, s: State, s': State)
    requires s.next !in s.tasks && SpawnTask(c, s, s')
    ensures Remaining(c, s') < Remaining(c, s)
  {
    assert s'.tasks.Keys == s.tasks.Keys + {s.next};
    AddedSize(s.tasks.Keys, s.next);
    AddedSize(s.calls, Call(s.attempt, s.next));
  }

  lemma LoopUsesUp(c: Setting, s: State, s': State, step: Step)
    requires Next(c, s, s', step) && s.phase == Active && s'.phase == Active
    requires s'.tasks == s.tasks && s'.calls == s.calls && !step.StoreStep?
    requires !step.TaskAcknowledgedStep? && !step.TaskRejectedStep? && !step.TaskReportsStep?
    requires !step.SpawnTaskStep? && !step.LeftoverEndsStep?
    ensures Remaining(c, s') < Remaining(c, s)
  {
  }

  /** An attempt ends: every step short of its end, other than the bucket storing a chunk, uses up
      some of what remains. */
  lemma StepsUseUp(c: Setting, s: State, s': State, given: Option<nat>, step: Step)
    requires Inv(c, s, given) && Next(c, s, s', step) && !step.StoreStep?
    requires s.phase == Active && s'.phase == Active
    ensures 0 <= Remaining(c, s') < Remaining(c, s)
  {
    StoreNext(c, s, s', given, step);
    hide CallsInv, PermitsInUse, ProgressInv, CommitInv, Remaining;
    match step {
      case TaskAcknowledgedStep(i) => AnsweredUsesUp(c, s, s', i);
      case TaskRejectedStep(i) => AnsweredUsesUp(c, s, s', i);
      case TaskReportsStep(i) => ReportUsesUp(c, s, s', i);
      case LeftoverEndsStep(call) => LeftoverUsesUp(c, s, s', call);
      case SpawnTaskStep => SpawnUsesUp(c, s, s');
      case _ => LoopUsesUp(c, s, s', step);
    }
    RemainingIsBounded(c, s');
  }

  lemma LeftoverUsesUp(c: Setting, s: State, s': State, call: Call)
    requires LeftoverEnds(s, s', call)
    ensures Remaining(c, s') < Remaining(c, s)
  {
  }

  lemma RemainingIsBounded(c: Setting, s: State)
    requires StoreInv(c, s)
    ensures 0 <= Remaining(c, s)
  {
  }

  /** The step that a run can always take next when no call fails any more. */
  ghost function NextStep(c: Setting, s: State): Step
    requires s.phase == Active
  {
    if s.receiver == ReceivedErr || s.loop == EndedErr then AttemptFailsStep
    else if s.receiver == ReceivedAll then SendCommitStep
    else if s.channel != [] then ReceiveStep
    else if s.tasks.Keys != {} then
      var i :| i in s.tasks.Keys;
      if s.tasks[i] != Running then TaskReportsStep(i)
      else if i in s.stored then TaskAcknowledgedStep(i)
      else StoreStep(i)
    else if s.loop == AtPermit then AcquireStep
    else if s.loop == EndedOk then ChannelClosedStep
    else if s.next == |c.frames| then EndOfStreamStep
    else if s.next in s.excluded then SkipFrameStep
    else SpawnTaskStep
  }

  /** No deadlock between the permits, the bounded channel and the two halves of the join: with at
      least one permit an attempt can always go on, and not only by a call failing. */
  lemma NeverStuck(c: Setting, s: State, given: Option<nat>)
    requires Inv(c, s, given) && s.phase == Active && c.limit > 0
    ensures exists s' :: s' != s && Next(c, s, s', NextStep(c, s))
    ensures !NextStep(c, s).TaskRejectedStep? && !NextStep(c, s).LoopFailsStep?
  {
    var step := NextStep(c, s);
    var s' := s;
    match step {
      case AttemptFailsStep =>
        s' := s.(phase := Failed, tasks := map[]);
      case SendCommitStep =>
        var hash := if s.given.Some? then Given(s.given.value) else HashOf(s.hashed);
        s' := s.(phase := CommitSent, commits := s.commits + {hash});
      case ReceiveStep =>
        s' := s.(channel := s.channel[1..], receiver := if s.channel[0] then Receiving else ReceivedErr);
        assert |s'.channel| < |s.channel|;
      case TaskReportsStep(i) =>
        s' := s.(channel := s.channel + [s.tasks[i] == Acknowledged], tasks := s.tasks - {i});
        assert |s'.channel| > |s.channel|;
      case TaskAcknowledgedStep(i) =>
        s' := s.(tasks := s.tasks[i := Acknowledged], uploaded := s.uploaded + {i}, calls := s.calls - {Call(s.attempt, i)});
        assert s'.tasks[i] != s.tasks[i];
      case StoreStep(i) =>
        s' := s.(stored := s.stored[i := c.frames[i]]);
        assert i in s'.stored;
      case _ => s' := LoopGoesOn(c, s, given);
    }
    assert s' != s && Next(c, s, s', step);
  }

  lemma LoopGoesOn(c: Setting, s: State, given: Option<nat>) returns (s': State)
    requires Inv(c, s, given) && s.phase == Active && c.limit > 0
    requires s.receiver == Receiving && s.channel == [] && s.tasks.Keys == {} && s.loop != EndedErr
    ensures s' != s && Next(c, s, s', NextStep(c, s))
  {
    assert s.tasks == map[];
    assert Holders(map[]) == {};
    match NextStep(c, s) {
      case AcquireStep => s' := s.(loop := Holding);
      case ChannelClosedStep => s' := s.(receiver := ReceivedAll);
      case EndOfStreamStep => s' := s.(loop := EndedOk);
      case SkipFrameStep =>
        s' := s.(next := s.next + 1, hashed := Hashed(c, s), loop := AtPermit);
      case SpawnTaskStep =>
        s' := s.(next := s.next + 1, hashed := Hashed(c, s), loop := AtPermit, tasks := s.tasks[s.next := Running],
                 calls := s.calls + {Call(s.attempt, s.next)}, sent := s.sent + {s.next});
    }
  }
}
