/** Outputs of the transcode worker and their cleanup (src/transcode.rs:302-513, 662-799, 830-883,
    1205-1368) as a protocol between one local client with a durable journal, the Hub that refers to
    outputs as candidates, and the bucket that holds them.

    The client may die at any time, and deletes may be delivered late, repeatedly or never. Other
    workers may upload and submit outputs as well, and the Hub may change at any time. */
module TranscodeCleanup {
  import opened Manifests

  type Label = string
  type FileId = nat
  type RequestId = nat

  /** `file` is the output for which the intent was prepared; the journal itself does not store it. */
  datatype Intent = Intent(request: RequestId, revision: nat, hash: Digest, file: FileId)

  datatype Variant = Variant(file: Option<FileId>, recorded: Option<Digest>, intent: Option<Intent>)

  datatype JobStatus = Queued | Running | AwaitingVerification | Ready | JobFailed | Cancelled

  datatype Hub = Hub(status: JobStatus, candidates: map<Label, FileId>)

  /** `delete_entry_if`. */
  datatype DeleteRequest = DeleteRequest(request: RequestId, file: FileId, revision: nat, hash: Digest)

  datatype Client =
    | Idle
    | Working(seen: Hub)
    | Uploaded(seen: Hub, name: Label, file: FileId)
    | Submitting(seen: Hub, name: Label, file: FileId)
    | Rejected(name: Label, file: FileId)
    | RejectedGone(name: Label, file: FileId)
    | Cleaning(hub: Hub)
    | Deleting(hub: Hub, name: Label, file: FileId)

  /** `revisions` holds the files that exist; ids are never used twice. `owners` says for which variant
      a file was uploaded, `answered` which conditional deletes the bucket has answered, `issued` what
      each request id stands for. `replies` are the snapshots that the Hub has sent with an acceptance;
      they may arrive late. Deletes in flight are conditional or, after a rejection, plain.
      `late` are the files that the Hub accepted when their deletion was already under way, `condemned`
      those deleted in the cleanup of a cancelled job. */
  datatype State = State(
    hub: Hub,
    revisions: map<FileId, nat>,
    owners: map<FileId, Label>,
    answered: map<RequestId, bool>,
    issued: map<RequestId, DeleteRequest>,
    replies: set<Hub>,
    journal: map<Label, Variant>,
    client: Client,
    sent: set<DeleteRequest>,
    inFlight: set<DeleteRequest>,
    plain: set<FileId>,
    late: set<FileId>,
    condemned: set<FileId>)

  /** The content of a file does not change; `hash` says what it is. */
  datatype World = World(labels: set<Label>, hash: FileId -> Digest)

  ghost predicate Init(w: World, s: State) {
    && s.revisions == map[] && s.owners == map[] && s.answered == map[] && s.issued == map[]
    && s.replies == {} && s.hub.candidates == map[] && s.client == Idle && s.sent == {} && s.inFlight == {}
    && s.plain == {} && s.late == {} && s.condemned == {}
    && s.journal == map l | l in w.labels :: Variant(None, None, None)
  }

  function RequestOf(i: Intent, file: FileId): DeleteRequest {
    DeleteRequest(i.request, file, i.revision, i.hash)
  }

  predicate Retained(hub: Hub, file: FileId) {
    hub.status == JobFailed && file in hub.candidates.Values
  }

  ghost predicate Journaled(s: State, file: FileId) {
    exists l :: l in s.journal && s.journal[l].file == Some(file)
  }

  /** The deletion of this file is under way: a delete is in flight, or the client has decided to
      send one on the strength of what it has seen of the Hub. */
  ghost predicate Doomed(s: State, file: FileId) {
    || (s.client.Rejected? && s.client.file == file)
    || ((s.client.Cleaning? || s.client.Deleting?) && !Retained(s.client.hub, file) && Journaled(s, file))
    || file in s.plain
    || exists m :: m in s.inFlight && m.file == file
  }

  // ---- The Hub, the bucket and other clients ---------------------------------------------------

  /** A submission takes effect, ours or another worker's, on time or late. */
  ghost predicate HubAccepts(s: State, s': State, name: Label, file: FileId) {
    && file in s.owners && s.owners[file] == name
    && var hub := s.hub.(candidates := s.hub.candidates[name := file]);
       s' == s.(hub := hub, replies := s.replies + {hub},
                late := if Doomed(s, file) then s.late + {file} else s.late)
  }

  ghost predicate HubMovesOn(s: State, s': State, hub: Hub) {
    && (forall l :: l in hub.candidates ==> l in s.hub.candidates && s.hub.candidates[l] == hub.candidates[l])
    && s' == s.(hub := hub)
  }

  ghost predicate OthersUpload(w: World, s: State, s': State, name: Label, file: FileId) {
    && file !in s.owners && name in w.labels
    && s' == s.(owners := s.owners[file := name], revisions := s.revisions[file := 0])
  }

  ghost predicate RevisionChanges(s: State, s': State, file: FileId, revision: nat) {
    && file in s.revisions
    && s' == s.(revisions := s.revisions[file := revision])
  }

  /** A request id is answered once; a repeated request changes nothing. */
  ghost predicate BucketServesDelete(w: World, s: State, s': State, m: DeleteRequest) {
    && m in s.inFlight && m.request !in s.answered
    && (m.file in s.revisions ==> s.revisions[m.file] == m.revision && w.hash(m.file) == m.hash)
    && s' == s.(answered := s.answered[m.request := m.file in s.revisions], revisions := s.revisions - {m.file})
  }

  ghost predicate DeleteIsLost(s: State, s': State, m: DeleteRequest) {
    m in s.inFlight && s' == s.(inFlight := s.inFlight - {m})
  }

  ghost predicate BucketServesPlain(s: State, s': State, file: FileId) {
    && file in s.plain
    && s' == s.(revisions := s.revisions - {file})
  }

  ghost predicate PlainIsLost(s: State, s': State, file: FileId) {
    file in s.plain && s' == s.(plain := s.plain - {file})
  }

  // ---- The worker ------------------------------------------------------------------------------

  /** A queued or failed job is started first, and a worker refuses a cancelled one. */
  ghost predicate StartWorker(s: State, s': State) {
    && s.client == Idle && s.hub.status != Queued && s.hub.status != JobFailed && s.hub.status != Cancelled
    && s' == s.(client := Working(s.hub))
  }

  /** The Hub already has a candidate whose content is the local output's. */
  ghost predicate AdoptCandidate(w: World, s: State, s': State, name: Label) {
    && s.client.Working? && name in s.client.seen.candidates && name in s.journal
    && var v, file := s.journal[name], s.client.seen.candidates[name];
       && (v.file.Some? ==> v.file.value == file)
       && s' == if v.file == None || v.recorded != Some(w.hash(file))
                then s.(journal := s.journal[name := Variant(Some(file), Some(w.hash(file)), None)])
                else s
  }

  predicate Submits(hub: Hub, name: Label) {
    name !in hub.candidates && hub.status == Running
  }

  ghost predicate Upload(s: State, s': State, name: Label, file: FileId) {
    && s.client.Working? && Submits(s.client.seen, name) && name in s.journal && s.journal[name].file == None
    && file !in s.owners
    && s' == s.(owners := s.owners[file := name], revisions := s.revisions[file := 0],
                client := Uploaded(s.client.seen, name, file))
  }

  ghost predicate SaveUpload(w: World, s: State, s': State) {
    && s.client.Uploaded?
    && var file := s.client.file;
       s' == s.(journal := s.journal[s.client.name := Variant(Some(file), Some(w.hash(file)), None)],
                client := Submitting(s.client.seen, s.client.name, file))
  }

  /** The journal has an output from an earlier run. */
  ghost predicate ReuseUpload(s: State, s': State, name: Label) {
    && s.client.Working? && Submits(s.client.seen, name) && name in s.journal && s.journal[name].file.Some?
    && s.journal[name].file.value in s.revisions
    && s' == s.(client := Submitting(s.client.seen, name, s.journal[name].file.value))
  }

  predicate IsCandidate(hub: Hub, name: Label, file: FileId) {
    name in hub.candidates && hub.candidates[name] == file
  }

  /** The reply, which may have been overtaken by other submissions, or after a lost reply the recovery
      query shows the candidate; the worker goes on with what it has been shown. */
  ghost predicate SubmissionShown(s: State, s': State, seen: Hub) {
    && s.client.Submitting? && (seen == s.hub || seen in s.replies)
    && IsCandidate(seen, s.client.name, s.client.file)
    && s' == s.(client := Working(seen))
  }

  /** A definite rejection; submitting the current candidate again is not rejected. */
  ghost predicate SubmissionRejected(s: State, s': State) {
    && s.client.Submitting? && !IsCandidate(s.hub, s.client.name, s.client.file)
    && s' == s.(client := Rejected(s.client.name, s.client.file))
  }

  /** The unconditional delete after a rejection. */
  ghost predicate SendPlain(s: State, s': State) {
    && s.client.Rejected?
    && s' == s.(plain := s.plain + {s.client.file})
  }

  ghost predicate PlainAnswered(s: State, s': State) {
    && s.client.Rejected? && s.client.file !in s.revisions
    && s' == s.(plain := s.plain - {s.client.file}, client := RejectedGone(s.client.name, s.client.file))
  }

  ghost predicate ForgetRejected(s: State, s': State) {
    && s.client.RejectedGone? && s.client.name in s.journal
    && s' == s.(journal := s.journal[s.client.name := s.journal[s.client.name].(file := None)], client := Idle)
  }

  // ---- The cleanup -----------------------------------------------------------------------------

  ghost predicate StartCleanup(s: State, s': State) {
    && s.client == Idle && (s.hub.status == JobFailed || s.hub.status == Cancelled)
    && s' == s.(client := Cleaning(s.hub))
  }

  /** `prepare_cleanup_intent`, for an output that is not retained: an intent that is already in the
      journal is kept, a new one is saved before anything is deleted. */
  ghost predicate PrepareIntent(w: World, s: State, s': State, name: Label, request: RequestId) {
    && s.client.Cleaning? && name in s.journal && s.journal[name].file.Some?
    && var v := s.journal[name];
       var file := v.file.value;
       && !Retained(s.client.hub, file)
       && if v.intent.Some? then s' == s.(client := Deleting(s.client.hub, name, file))
          else
            && request !in s.issued && file in s.revisions && (v.recorded.Some? ==> v.recorded.value == w.hash(file))
            && var intent := Intent(request, s.revisions[file], w.hash(file), file);
               s' == s.(journal := s.journal[name := Variant(Some(file), Some(w.hash(file)), Some(intent))],
                        issued := s.issued[request := RequestOf(intent, file)], client := Deleting(s.client.hub, name, file))
  }

  ghost predicate SendDelete(s: State, s': State) {
    && s.client.Deleting? && s.client.name in s.journal && s.journal[s.client.name].intent.Some?
    && var m := RequestOf(s.journal[s.client.name].intent.value, s.client.file);
       s' == s.(sent := s.sent + {m}, inFlight := s.inFlight + {m},
                condemned := if s.client.hub.status == Cancelled then s.condemned + {s.client.file} else s.condemned)
  }

  /** The reply arrives, and the output is struck from the journal. */
  ghost predicate DeleteAnswered(s: State, s': State) {
    && s.client.Deleting? && s.client.name in s.journal && s.journal[s.client.name].intent.Some?
    && var v := s.journal[s.client.name];
       var m := RequestOf(v.intent.value, s.client.file);
       && m.request in s.answered
       && s' == s.(journal := s.journal[s.client.name := Variant(None, v.recorded, None)],
                   inFlight := s.inFlight - {m}, client := Cleaning(s.client.hub))
  }

  /** The client ends or dies. */
  ghost predicate Stop(s: State, s': State) {
    s' == s.(client := Idle)
  }

  datatype Step =
    | HubAcceptsStep(name: Label, file: FileId) | HubMovesOnStep(hub: Hub)
    | OthersUploadStep(name: Label, file: FileId) | RevisionChangesStep(file: FileId, revision: nat)
    | BucketServesDeleteStep(m: DeleteRequest) | DeleteIsLostStep(m: DeleteRequest)
    | BucketServesPlainStep(file: FileId) | PlainIsLostStep(file: FileId)
    | StartWorkerStep | AdoptCandidateStep(name: Label) | UploadStep(name: Label, file: FileId) | SaveUploadStep
    | ReuseUploadStep(name: Label) | SubmissionShownStep(seen: Hub) | SubmissionRejectedStep
    | SendPlainStep | PlainAnsweredStep | ForgetRejectedStep
    | StartCleanupStep | PrepareIntentStep(name: Label, request: RequestId) | SendDeleteStep | DeleteAnsweredStep | StopStep

  ghost predicate Next(w: World, s: State, s': State, step: Step) {
    match step
    case HubAcceptsStep(name, file) => HubAccepts(s, s', name, file)
    case HubMovesOnStep(hub) => HubMovesOn(s, s', hub)
    case OthersUploadStep(name, file) => OthersUpload(w, s, s', name, file)
    case RevisionChangesStep(file, revision) => RevisionChanges(s, s', file, revision)
    case BucketServesDeleteStep(m) => BucketServesDelete(w, s, s', m)
    case DeleteIsLostStep(m) => DeleteIsLost(s, s', m)
    case BucketServesPlainStep(file) => BucketServesPlain(s, s', file)
    case PlainIsLostStep(file) => PlainIsLost(s, s', file)
    case StartWorkerStep => StartWorker(s, s')
    case AdoptCandidateStep(name) => AdoptCandidate(w, s, s', name)
    case UploadStep(name, file) => Upload(s, s', name, file)
    case SaveUploadStep => SaveUpload(w, s, s')
    case ReuseUploadStep(name) => ReuseUpload(s, s', name)
    case SubmissionShownStep(seen) => SubmissionShown(s, s', seen)
    case SubmissionRejectedStep => SubmissionRejected(s, s')
    case SendPlainStep => SendPlain(s, s')
    case PlainAnsweredStep => PlainAnswered(s, s')
    case ForgetRejectedStep => ForgetRejected(s, s')
    case StartCleanupStep => StartCleanup(s, s')
    case PrepareIntentStep(name, request) => PrepareIntent(w, s, s', name, request)
    case SendDeleteStep => SendDelete(s, s')
    case DeleteAnsweredStep => DeleteAnswered(s, s')
    case StopStep => Stop(s, s')
  }

  // ---- Invariant -------------------------------------------------------------------------------

  predicate Owns(s: State, name: Label, file: FileId) {
    file in s.owners && s.owners[file] == name
  }

  ghost predicate OwnerInv(w: World, s: State) {
    && s.journal.Keys == w.labels
    && (forall f :: f in s.revisions ==> f in s.owners)
    && (forall l :: l in s.journal && s.journal[l].file.Some? ==> Owns(s, l, s.journal[l].file.value))
  }

  /** An intent on a variant with an output belongs to that output, its hash is recorded, and its
      request id stands for its delete. */
  ghost predicate IntentInv(w: World, s: State) {
    && (forall l :: l in s.journal && s.journal[l].file.Some? && s.journal[l].recorded.Some? ==>
          s.journal[l].recorded.value == w.hash(s.journal[l].file.value))
    && (forall l :: l in s.journal && s.journal[l].file.Some? && s.journal[l].intent.Some? ==>
          IntentBelongs(w, s, s.journal[l]))
  }

  ghost predicate IntentBelongs(w: World, s: State, v: Variant)
    requires v.file.Some? && v.intent.Some?
  {
    var i := v.intent.value;
    && i.file == v.file.value && v.recorded.Some? && i.hash == w.hash(i.file)
    && i.request in s.issued && s.issued[i.request] == RequestOf(i, i.file)
  }

  ghost predicate RequestInv(s: State) {
    && (forall r :: r in s.issued ==> s.issued[r].request == r && s.issued[r].file in s.owners)
    && (forall m :: m in s.sent ==> m.request in s.issued && s.issued[m.request] == m)
    && (forall r :: r in s.answered ==> r in s.issued && s.issued[r].file !in s.revisions)
    && s.inFlight <= s.sent
  }

  /** While an output exists, every request id ever issued for it is that of the intent in the journal. */
  ghost predicate SameRequestInv(s: State) {
    forall r {:trigger r in s.issued} :: r in s.issued && s.issued[r].file in s.revisions ==> Current(s, s.issued[r])
  }

  ghost predicate Current(s: State, m: DeleteRequest) {
    && m.file in s.owners && s.owners[m.file] in s.journal
    && var v := s.journal[s.owners[m.file]];
       v.file == Some(m.file) && v.intent.Some? && m == RequestOf(v.intent.value, m.file)
  }

  predicate Deletable(hub: Hub, file: FileId) {
    hub.status == Cancelled || file !in hub.candidates.Values
  }

  /** What the journal, the bucket and the requests say about each other. */
  ghost predicate RecordInv(w: World, s: State) {
    OwnerInv(w, s) && IntentInv(w, s) && RequestInv(s) && SameRequestInv(s)
  }

  ghost predicate HubInv(s: State) {
    SeenOwned(s, s.hub) && forall h :: h in s.replies ==> SeenOwned(s, h)
  }

  ghost predicate IsCurrent(s: State, file: FileId) {
    file in s.hub.candidates.Values
  }

  /** A delete in flight is for a current candidate only if the Hub has accepted it since, or the job
      was cancelled. */
  ghost predicate FlightInv(s: State) {
    && (forall m :: m in s.inFlight && IsCurrent(s, m.file) ==> m.file in s.late || m.file in s.condemned)
    && (forall f :: f in s.plain && IsCurrent(s, f) ==> f in s.late)
  }

  /** What has become a candidate since the client looked. */
  ghost predicate SeenInv(s: State, hub: Hub) {
    forall f {:trigger IsCurrent(s, f)} :: IsCurrent(s, f) && !Retained(hub, f) && Journaled(s, f) ==>
      f in s.late || f in hub.candidates.Values
  }

  ghost predicate SeenOwned(s: State, seen: Hub) {
    forall l :: l in seen.candidates ==> Owns(s, l, seen.candidates[l])
  }

  predicate JournalHas(s: State, name: Label, file: FileId) {
    name in s.journal && s.journal[name].file == Some(file)
  }

  predicate CleanupHub(hub: Hub) {
    hub.status == JobFailed || hub.status == Cancelled
  }

  ghost predicate ClientInv(s: State) {
    match s.client
    case Idle => true
    case Working(seen) => SeenOwned(s, seen)
    case Uploaded(seen, l, f) =>
      && SeenOwned(s, seen) && Owns(s, l, f) && l in s.journal && s.journal[l].file == None
      && forall r :: r in s.issued ==> s.issued[r].file != f
    case Submitting(seen, l, f) => SeenOwned(s, seen) && JournalHas(s, l, f)
    case Rejected(l, f) => JournalHas(s, l, f) && (IsCurrent(s, f) ==> f in s.late)
    case RejectedGone(l, f) => JournalHas(s, l, f) && f !in s.revisions
    case Cleaning(hub) => SeenInv(s, hub) && CleanupHub(hub)
    case Deleting(hub, l, f) =>
      SeenInv(s, hub) && CleanupHub(hub) && Deletable(hub, f) && JournalHas(s, l, f) && s.journal[l].intent.Some?
  }

  ghost predicate Inv(w: World, s: State) {
    RecordInv(w, s) && HubInv(s) && FlightInv(s) && ClientInv(s)
  }

  // ---- The records -----------------------------------------------------------------------------

  /** Most steps leave the records alone, or only take a delete out of flight. */
  lemma RecordsStay(w: World, s: State, s': State)
    requires RecordInv(w, s) && s'.inFlight <= s.inFlight
    requires s'.revisions == s.revisions && s'.owners == s.owners && s'.answered == s.answered
    requires s'.issued == s.issued && s'.journal == s.journal && s'.sent == s.sent
    ensures RecordInv(w, s')
  {
  }

  lemma RecordsAfterUpload(w: World, s: State, s': State, name: Label, file: FileId)
    requires RecordInv(w, s) && file !in s.owners
    requires s'.owners == s.owners[file := name] && s'.revisions == s.revisions[file := 0]
    requires s'.answered == s.answered && s'.issued == s.issued && s'.journal == s.journal
    requires s'.sent == s.sent && s'.inFlight == s.inFlight
    ensures RecordInv(w, s')
  {
  }

  /** A file is changed or deleted; an answer is only given when the file is gone. */
  lemma RecordsInBucket(w: World, s: State, s': State)
    requires RecordInv(w, s) && s'.revisions.Keys <= s.revisions.Keys
    requires forall r :: r in s'.answered ==> r in s.answered || (r in s.issued && s.issued[r].file !in s'.revisions)
    requires s'.owners == s.owners && s'.issued == s.issued && s'.journal == s.journal
    requires s'.sent == s.sent && s'.inFlight == s.inFlight
    ensures RecordInv(w, s')
  {
  }

  lemma InFlightIsIssued(s: State, m: DeleteRequest)
    requires RequestInv(s) && m in s.inFlight
    ensures m.request in s.issued && s.issued[m.request] == m
  {
    assert m in s.sent;
  }

  lemma RecordsAfterAdoption(w: World, s: State, s': State, name: Label)
    requires RecordInv(w, s) && ClientInv(s) && AdoptCandidate(w, s, s', name)
    ensures RecordInv(w, s')
  {
  }

  lemma RecordsAfterSave(w: World, s: State, s': State)
    requires RecordInv(w, s) && ClientInv(s) && SaveUpload(w, s, s')
    ensures RecordInv(w, s')
  {
  }

  lemma RecordsAfterForgetting(w: World, s: State, s': State)
    requires RecordInv(w, s) && ClientInv(s) && ForgetRejected(s, s')
    ensures RecordInv(w, s')
  {
  }

  lemma RecordsAfterIntent(w: World, s: State, s': State, name: Label, request: RequestId)
    requires RecordInv(w, s) && PrepareIntent(w, s, s', name, request)
    ensures RecordInv(w, s')
  {
    if s'.journal == s.journal {
      RecordsStay(w, s, s');
      hide OwnerInv, IntentInv, RequestInv, SameRequestInv;
    } else {
      hide Retained;
    }
  }

  lemma RecordsAfterSending(w: World, s: State, s': State)
    requires RecordInv(w, s) && ClientInv(s) && SendDelete(s, s')
    ensures RecordInv(w, s')
  {
  }

  lemma RecordsAfterAnswer(w: World, s: State, s': State)
    requires RecordInv(w, s) && ClientInv(s) && DeleteAnswered(s, s')
    ensures RecordInv(w, s')
  {
  }

  lemma RecordsNext(w: World, s: State, s': State, step: Step)
    requires Inv(w, s) && Next(w, s, s', step)
    ensures RecordInv(w, s')
  {
    hide OwnerInv, IntentInv, RequestInv, SameRequestInv, HubInv, FlightInv, ClientInv, Doomed, Retained, Submits;
    match step {
      case OthersUploadStep(name, file) => RecordsAfterUpload(w, s, s', name, file);
      case UploadStep(name, file) => RecordsAfterUpload(w, s, s', name, file);
      case RevisionChangesStep(_, _) => RecordsInBucket(w, s, s');
      case BucketServesDeleteStep(m) =>
        InFlightIsIssued(s, m);
        RecordsInBucket(w, s, s');
      case BucketServesPlainStep(_) => RecordsInBucket(w, s, s');
      case AdoptCandidateStep(name) => RecordsAfterAdoption(w, s, s', name);
      case SaveUploadStep => RecordsAfterSave(w, s, s');
      case ForgetRejectedStep => RecordsAfterForgetting(w, s, s');
      case PrepareIntentStep(name, request) => RecordsAfterIntent(w, s, s', name, request);
      case SendDeleteStep => RecordsAfterSending(w, s, s');
      case DeleteAnsweredStep => RecordsAfterAnswer(w, s, s');
      case _ => RecordsStay(w, s, s');
    }
  }

  // ---- The Hub and what the client has seen of it -----------------------------------------------

  lemma HubNext(w: World, s: State, s': State, step: Step)
    requires HubInv(s) && Next(w, s, s', step)
    ensures HubInv(s')
  {
    hide Doomed, Retained, Submits;
    OwnersGrow(w, s, s', step);
  }

  lemma OwnersGrow(w: World, s: State, s': State, step: Step)
    requires Next(w, s, s', step)
    ensures forall f :: f in s.owners ==> f in s'.owners && s'.owners[f] == s.owners[f]
  {
    hide Doomed, Retained, Submits;
  }

  lemma HubStays(w: World, s: State, s': State, step: Step)
    requires Next(w, s, s', step) && !step.HubAcceptsStep? && !step.HubMovesOnStep?
    ensures s'.hub == s.hub
  {
    hide Doomed, Retained;
  }

  lemma AcceptedIsNew(s: State, s': State, name: Label, file: FileId, f: FileId)
    requires HubAccepts(s, s', name, file) && IsCurrent(s', f) && !IsCurrent(s, f)
    ensures file == f
  {
    var l :| l in s'.hub.candidates && s'.hub.candidates[l] == f;
    assert l in s.hub.candidates ==> s.hub.candidates[l] != f;
  }

  lemma NothingNew(s: State, s': State, hub: Hub, f: FileId)
    requires HubMovesOn(s, s', hub) && IsCurrent(s', f)
    ensures IsCurrent(s, f)
  {
    var l :| l in s'.hub.candidates && s'.hub.candidates[l] == f;
    assert l in s.hub.candidates && s.hub.candidates[l] == f;
  }

  /** Only an accepted submission makes a file a candidate. */
  lemma NewCandidate(w: World, s: State, s': State, step: Step, f: FileId)
    requires Next(w, s, s', step) && IsCurrent(s', f) && !IsCurrent(s, f)
    ensures step.HubAcceptsStep? && step.file == f
    ensures Doomed(s, f) ==> f in s'.late
  {
    hide IsCurrent, Doomed;
    match step {
      case HubAcceptsStep(name, file) => AcceptedIsNew(s, s', name, file, f);
      case HubMovesOnStep(hub) => NothingNew(s, s', hub, f);
      case _ =>
        HubStays(w, s, s', step);
        SameCandidates(s, s', f);
    }
  }

  lemma SameCandidates(s: State, s': State, f: FileId)
    requires s'.hub == s.hub
    ensures IsCurrent(s', f) <==> IsCurrent(s, f)
  {
  }

  lemma HistoryGrows(w: World, s: State, s': State, step: Step)
    requires Next(w, s, s', step)
    ensures s.late <= s'.late && s.condemned <= s'.condemned
  {
  }

  /** A worker is at work. It may yet put a candidate that it has seen into the journal. */
  predicate AtWork(client: Client) {
    client.Working? || client.Uploaded? || client.Submitting?
  }

  /** Otherwise no outputs are added to the journal. */
  lemma JournalAddsNothing(w: World, s: State, s': State, step: Step, f: FileId)
    requires Next(w, s, s', step) && !AtWork(s.client) && Journaled(s', f)
    ensures Journaled(s, f)
  {
    hide Doomed, Retained;
    var l :| l in s'.journal && s'.journal[l].file == Some(f);
    assert l in s.journal && s.journal[l].file == Some(f);
  }

  lemma SeenNext(w: World, s: State, s': State, step: Step, hub: Hub)
    requires SeenInv(s, hub) && Next(w, s, s', step)
    requires (s.client.Cleaning? || s.client.Deleting?) && s.client.hub == hub
    ensures SeenInv(s', hub)
  {
    HistoryGrows(w, s, s', step);
    forall f | IsCurrent(s', f) && !Retained(hub, f) && Journaled(s', f) ensures f in s'.late || f in hub.candidates.Values {
      assert Journaled(s, f) by { JournalAddsNothing(w, s, s', step, f); }
      hide Next;
      if !IsCurrent(s, f) {
        NewCandidate(w, s, s', step, f);
      }
    }
  }

  lemma RejectedNext(w: World, s: State, s': State, step: Step, f: FileId)
    requires s.client.Rejected? && s.client.file == f && (IsCurrent(s, f) ==> f in s.late) && Next(w, s, s', step)
    ensures IsCurrent(s', f) ==> f in s'.late
  {
    HistoryGrows(w, s, s', step);
    if IsCurrent(s', f) && !IsCurrent(s, f) {
      NewCandidate(w, s, s', step, f);
    }
  }

  /** An output is a candidate for its own variant only. */
  lemma CandidateOfOwner(s: State, name: Label, file: FileId)
    requires HubInv(s) && Owns(s, name, file) && !IsCandidate(s.hub, name, file)
    ensures !IsCurrent(s, file)
  {
    forall l | l in s.hub.candidates ensures s.hub.candidates[l] != file {
      assert Owns(s, l, s.hub.candidates[l]);
    }
  }

  /** What the client has seen of the Hub stays as good as it was. */
  lemma SightNext(w: World, s: State, s': State, step: Step)
    requires ClientInv(s) && Next(w, s, s', step)
    ensures (s.client.Cleaning? || s.client.Deleting?) ==> SeenInv(s', s.client.hub)
    ensures s.client.Rejected? && IsCurrent(s', s.client.file) ==> s.client.file in s'.late
  {
    hide Next;
    if s.client.Cleaning? || s.client.Deleting? {
      SeenNext(w, s, s', step, s.client.hub);
    }
    if s.client.Rejected? {
      RejectedNext(w, s, s', step, s.client.file);
    }
  }

  /** Steps of the Hub, the bucket and other clients. */
  predicate Foreign(step: Step) {
    || step.HubAcceptsStep? || step.HubMovesOnStep? || step.OthersUploadStep? || step.RevisionChangesStep?
    || step.BucketServesDeleteStep? || step.DeleteIsLostStep? || step.BucketServesPlainStep? || step.PlainIsLostStep?
  }

  predicate OfCleanup(step: Step) {
    || step.StartCleanupStep? || step.PrepareIntentStep? || step.SendDeleteStep? || step.DeleteAnsweredStep?
    || step.StopStep?
  }

  lemma ForeignFrame(w: World, s: State, s': State, step: Step)
    requires OwnerInv(w, s) && Next(w, s, s', step) && Foreign(step)
    ensures s'.client == s.client && s'.journal == s.journal && s'.issued == s.issued
    ensures forall f :: f in s.owners && f !in s.revisions ==> f !in s'.revisions
  {
    hide Doomed;
  }

  lemma ClientForeign(w: World, s: State, s': State, step: Step)
    requires Inv(w, s) && Next(w, s, s', step) && Foreign(step)
    ensures ClientInv(s')
  {
    SightNext(w, s, s', step);
    ForeignFrame(w, s, s', step);
    OwnersGrow(w, s, s', step);
    hide Next, IntentInv, RequestInv, SameRequestInv, FlightInv, SeenInv, IsCurrent, Doomed, Journaled;
  }

  lemma ClientWorker(w: World, s: State, s': State, step: Step)
    requires Inv(w, s) && Next(w, s, s', step) && !Foreign(step) && !OfCleanup(step)
    ensures ClientInv(s')
  {
    SightNext(w, s, s', step);
    if step.SubmissionRejectedStep? {
      CandidateOfOwner(s, s.client.name, s.client.file);
      assert !IsCurrent(s', s.client.file);
    }
    hide IntentInv, SameRequestInv, FlightInv, SeenInv, IsCurrent, Doomed, Journaled;
  }

  lemma ClientCleanup(w: World, s: State, s': State, step: Step)
    requires Inv(w, s) && Next(w, s, s', step) && OfCleanup(step)
    ensures ClientInv(s')
  {
    SightNext(w, s, s', step);
    if step.StartCleanupStep? {
      assert SeenInv(s', s'.client.hub);
    }
    hide IntentInv, SameRequestInv, FlightInv, SeenInv, IsCurrent, Doomed, Journaled;
  }

  lemma PlainNext(w: World, s: State, s': State, step: Step, f: FileId)
    requires Inv(w, s) && Next(w, s, s', step) && f in s'.plain && IsCurrent(s', f)
    ensures f in s'.late
  {
    HistoryGrows(w, s, s', step);
    if !IsCurrent(s, f) {
      NewCandidate(w, s, s', step, f);
    } else if f !in s.plain {
      assert step.SendPlainStep?;
    }
  }

  lemma SentNext(w: World, s: State, s': State, step: Step, m: DeleteRequest)
    requires Inv(w, s) && Next(w, s, s', step) && m in s'.inFlight && IsCurrent(s', m.file)
    ensures m.file in s'.late || m.file in s'.condemned
  {
    hide RecordInv, HubInv;
    HistoryGrows(w, s, s', step);
    if !IsCurrent(s, m.file) {
      NewCandidate(w, s, s', step, m.file);
    } else if m !in s.inFlight {
      assert step.SendDeleteStep?;
    }
  }

  lemma FlightNext(w: World, s: State, s': State, step: Step)
    requires Inv(w, s) && Next(w, s, s', step)
    ensures FlightInv(s')
  {
    hide Next, Inv, IsCurrent;
    forall m | m in s'.inFlight && IsCurrent(s', m.file) ensures m.file in s'.late || m.file in s'.condemned {
      SentNext(w, s, s', step, m);
    }
    forall f | f in s'.plain && IsCurrent(s', f) ensures f in s'.late {
      PlainNext(w, s, s', step, f);
    }
  }

  lemma InvNext(w: World, s: State, s': State, step: Step)
    requires Inv(w, s) && Next(w, s, s', step)
    ensures Inv(w, s')
  {
    hide Next, RecordInv, HubInv, FlightInv, ClientInv;
    RecordsNext(w, s, s', step);
    HubNext(w, s, s', step);
    FlightNext(w, s, s', step);
    if Foreign(step) {
      ClientForeign(w, s, s', step);
    } else if OfCleanup(step) {
      ClientCleanup(w, s, s', step);
    } else {
      ClientWorker(w, s, s', step);
    }
  }

  // ---- Runs ------------------------------------------------------------------------------------

  ghost predicate IsRun(w: World, states: seq<State>, steps: seq<Step>) {
    && |states| == |steps| + 1
    && Init(w, states[0])
    && forall k {:trigger StepAt(w, states, steps, k)} :: 0 <= k < |steps| ==> StepAt(w, states, steps, k)
  }

  ghost predicate StepAt(w: World, states: seq<State>, steps: seq<Step>, k: nat) {
    k < |steps| && k + 1 < |states| && Next(w, states[k], states[k + 1], steps[k])
  }

  lemma {:induction false} RunInv(w: World, states: seq<State>, steps: seq<Step>, k: nat)
    requires IsRun(w, states, steps) && k < |states|
    ensures Inv(w, states[k])
  {
    if k > 0 {
      RunInv(w, states, steps, k - 1);
      assert StepAt(w, states, steps, k - 1);
      InvNext(w, states[k - 1], states[k], steps[k - 1]);
    }
  }

  /** The Hub accepts this file in the `j`-th step although its deletion is under way. */
  ghost predicate AcceptedLate(states: seq<State>, steps: seq<Step>, j: nat, file: FileId) {
    && j < |steps| && j < |states| && steps[j].HubAcceptsStep? && steps[j].file == file
    && Doomed(states[j], file)
  }

  /** In the `j`-th step the cleanup of a cancelled job sends a delete for this file. */
  ghost predicate CondemnedAt(states: seq<State>, steps: seq<Step>, j: nat, file: FileId) {
    && j < |steps| && j < |states| && steps[j].SendDeleteStep?
    && states[j].client.Deleting? && states[j].client.file == file && states[j].client.hub.status == Cancelled
  }

  lemma {:induction false} LateMeans(w: World, states: seq<State>, steps: seq<Step>, k: nat, file: FileId)
    requires IsRun(w, states, steps) && k < |states|
    ensures file in states[k].late ==> exists j: nat :: j < k && AcceptedLate(states, steps, j, file)
    ensures file in states[k].condemned ==> exists j: nat :: j < k && CondemnedAt(states, steps, j, file)
  {
    if k > 0 {
      LateMeans(w, states, steps, k - 1, file);
      assert StepAt(w, states, steps, k - 1);
      if file in states[k].late && file !in states[k - 1].late {
        assert AcceptedLate(states, steps, k - 1, file);
      }
      if file in states[k].condemned && file !in states[k - 1].condemned {
        assert CondemnedAt(states, steps, k - 1, file);
      }
    }
  }

  /** The bucket loses a file that is a current candidate only if the Hub accepted that very file while
      its deletion was already under way, or in the cleanup of a cancelled job: neither a worker after a
      rejection nor the cleanup of a failed job deletes a candidate that it could have known of. */
  lemma NoCandidateIsDeleted(w: World, states: seq<State>, steps: seq<Step>, k: nat, file: FileId)
    requires IsRun(w, states, steps) && k < |steps|
    requires file in states[k].revisions && file !in states[k + 1].revisions
    requires IsCurrent(states[k], file)
    ensures exists j: nat :: j < k && (AcceptedLate(states, steps, j, file) || CondemnedAt(states, steps, j, file))
  {
    RunInv(w, states, steps, k);
    assert StepAt(w, states, steps, k);
    LateMeans(w, states, steps, k, file);
  }

  lemma OneMoreStep(w: World, states: seq<State>, steps: seq<Step>, s': State, step: Step)
    requires IsRun(w, states, steps) && Next(w, states[|steps|], s', step)
    ensures IsRun(w, states + [s'], steps + [step])
  {
    var states', steps' := states + [s'], steps + [step];
    forall k | 0 <= k < |steps'| ensures StepAt(w, states', steps', k) {
      if k < |steps| {
        assert StepAt(w, states, steps, k);
      }
    }
  }

  /** A worker that has uploaded its output and is about to submit it. */
  function AboutToSubmit(w: World, name: Label, file: FileId): State {
    State(Hub(Running, map[]), map[file := 0], map[file := name], map[], map[], {},
          (map l | l in w.labels :: Variant(None, None, None))[name := Variant(Some(file), Some(w.hash(file)), None)],
          Submitting(Hub(Running, map[]), name, file), {}, {}, {}, {}, {})
  }

  lemma UploadRun(w: World, name: Label, file: FileId) returns (states: seq<State>, steps: seq<Step>)
    requires name in w.labels
    ensures IsRun(w, states, steps) && |steps| == 3 && states[3] == AboutToSubmit(w, name, file)
  {
    var s0 := State(Hub(Running, map[]), map[], map[], map[], map[], {}, map l | l in w.labels :: Variant(None, None, None),
                    Idle, {}, {}, {}, {}, {});
    var s1 := s0.(client := Working(s0.hub));
    var s2 := s1.(owners := map[file := name], revisions := map[file := 0], client := Uploaded(s0.hub, name, file));
    assert IsRun(w, [s0], []);
    assert Next(w, s0, s1, StartWorkerStep) && Next(w, s1, s2, UploadStep(name, file));
    assert Next(w, s2, AboutToSubmit(w, name, file), SaveUploadStep);
    hide Next, IsRun;
    OneMoreStep(w, [s0], [], s1, StartWorkerStep);
    OneMoreStep(w, [s0] + [s1], [] + [StartWorkerStep], s2, UploadStep(name, file));
    states, steps := [s0] + [s1] + [s2], [] + [StartWorkerStep] + [UploadStep(name, file)];
    OneMoreStep(w, states, steps, AboutToSubmit(w, name, file), SaveUploadStep);
    states, steps := states + [AboutToSubmit(w, name, file)], steps + [SaveUploadStep];
  }

  /** The exception is real: a submission that the Hub accepts after it has rejected an earlier one of
      the same file comes too late. */
  lemma LateAcceptanceLoses(w: World, name: Label, file: FileId) returns (states: seq<State>, steps: seq<Step>)
    requires name in w.labels
    ensures IsRun(w, states, steps) && |steps| == 7
    ensures IsCurrent(states[6], file) && file in states[6].revisions && file !in states[7].revisions
  {
    states, steps := UploadRun(w, name, file);
    var s3 := AboutToSubmit(w, name, file);
    var s4 := s3.(client := Rejected(name, file));
    var s5 := s4.(plain := {file});
    var s6 := s5.(hub := Hub(Running, map[name := file]), replies := {Hub(Running, map[name := file])}, late := {file});
    var s7 := s6.(revisions := s6.revisions - {file});
    assert Next(w, s3, s4, SubmissionRejectedStep) && Next(w, s4, s5, SendPlainStep);
    assert Next(w, s5, s6, HubAcceptsStep(name, file)) && Next(w, s6, s7, BucketServesPlainStep(file));
    assert s6.hub.candidates[name] == file;
    hide Next, IsRun;
    OneMoreStep(w, states, steps, s4, SubmissionRejectedStep);
    states, steps := states + [s4], steps + [SubmissionRejectedStep];
    OneMoreStep(w, states, steps, s5, SendPlainStep);
    states, steps := states + [s5], steps + [SendPlainStep];
    OneMoreStep(w, states, steps, s6, HubAcceptsStep(name, file));
    states, steps := states + [s6], steps + [HubAcceptsStep(name, file)];
    OneMoreStep(w, states, steps, s7, BucketServesPlainStep(file));
    states, steps := states + [s7], steps + [BucketServesPlainStep(file)];
  }

  /** A cleanup intent in the journal of a variant with an output was prepared for that very output. */
  lemma IntentBelongsToOutput(w: World, states: seq<State>, steps: seq<Step>, k: nat, name: Label)
    requires IsRun(w, states, steps) && k < |states| && name in states[k].journal
    requires states[k].journal[name].file.Some? && states[k].journal[name].intent.Some?
    ensures states[k].journal[name].intent.value.file == states[k].journal[name].file.value
    ensures states[k].journal[name].intent.value.hash == w.hash(states[k].journal[name].file.value)
  {
    RunInv(w, states, steps, k);
  }

  /** However often a cleanup dies and is started again: as long as an output exists, all conditional
      deletes for it are one and the same request, with the same id and preconditions. */
  lemma RetriesRepeatTheRequest(w: World, states: seq<State>, steps: seq<Step>, k: nat, m: DeleteRequest, n: DeleteRequest)
    requires IsRun(w, states, steps) && k < |states| && m in states[k].sent && n in states[k].sent
    ensures m.file == n.file && m.file in states[k].revisions ==> m == n
    ensures m.request == n.request ==> m == n
  {
    RunInv(w, states, steps, k);
    var s := states[k];
    assert m.request in s.issued && n.request in s.issued;
    if m.file == n.file && m.file in s.revisions {
      assert Current(s, s.issued[m.request]) && Current(s, s.issued[n.request]);
    }
  }
}
