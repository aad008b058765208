/** Resumable atomic upload (src/sync/mod.rs:626-834) as a protocol between a client with a durable
    journal and a bucket with upload sessions.

    Messages may arrive late, repeatedly or never, the client may die between any two steps, and
    sessions may expire at any time. A reply is modelled by the client observing that its message has
    taken effect. */
module UploadProtocol {
  import opened Collections
  import opened FileChunks
  import opened Manifests

  /** What a begin fingerprint stands for: it covers size and hash of the file, so that one
      fingerprint belongs to one content. */
  type Fingerprint = nat
  datatype World = World(content: Fingerprint -> Bytes)

  type RequestId = nat
  type SessionId = nat

  datatype SessionStatus = Live | Expired | Committed

  datatype Session = Session(fp: Fingerprint, chunks: map<nat, Bytes>, status: SessionStatus)

  datatype Message =
    | Begin(request: RequestId, fp: Fingerprint)
    | StoreChunk(session: SessionId, index: nat, content: Bytes)
    | Commit(session: SessionId)

  /** The journal's upload checkpoint; `ranges` is the set its range list denotes. */
  datatype Checkpoint = Checkpoint(fp: Fingerprint, begin: RequestId, session: Option<SessionId>, ranges: set<nat>)

  /** Where an attempt stands. `rounds` counts iterations of the session loop. */
  datatype Client =
    | Idle
    | Looping(fp: Fingerprint, rounds: nat)
    | Resetting(fp: Fingerprint, rounds: nat)
    | Begun(fp: Fingerprint, session: SessionId)
    | Uploading(fp: Fingerprint, session: SessionId, uploaded: set<nat>, next: nat)
    | Stored(fp: Fingerprint, session: SessionId, uploaded: set<nat>, next: nat)
    | Committing(fp: Fingerprint, session: SessionId)

  datatype State = State(
    journal: Option<Checkpoint>,
    client: Client,
    sent: set<Message>,
    begun: map<RequestId, SessionId>,
    sessions: map<SessionId, Session>,
    nextRequest: RequestId,
    nextSession: SessionId)

  function Total(w: World, fp: Fingerprint): nat {
    ChunkCount(|w.content(fp)|)
  }

  ghost predicate Init(s: State) {
    s == State(None, Idle, {}, map[], map[], 0, 0)
  }

  // ---- Client steps ----------------------------------------------------------------------------

  /** An attempt starts with `prepare_upload`. The local file may have changed since the last one. */
  ghost predicate StartAttempt(s: State, s': State, fp: Fingerprint) {
    && s.client == Idle
    && s' == PrepareUpload(s, fp).(client := Looping(fp, 1))
  }

  function PrepareUpload(s: State, fp: Fingerprint): State {
    if s.journal.Some? && s.journal.value.fp == fp then s
    else s.(journal := Some(Checkpoint(fp, s.nextRequest, None, {})), nextRequest := s.nextRequest + 1)
  }

  /** `get_upload_status` answers for a live session; its chunk set replaces the journal's. */
  ghost predicate Resume(s: State, s': State, sid: SessionId) {
    && s.client.Looping? && s.journal.Some? && s.journal.value.session == Some(sid)
    && sid in s.sessions && s.sessions[sid].status == Live
    && var stored := s.sessions[sid].chunks.Keys;
       s' == s.(journal := Some(s.journal.value.(ranges := stored)),
                client := Uploading(s.client.fp, sid, stored, 0))
  }

  /** The session is gone: `reset_upload`, ... */
  ghost predicate Reset(s: State, s': State, sid: SessionId) {
    && s.client.Looping? && s.journal.Some? && s.journal.value.session == Some(sid)
    && (sid !in s.sessions || s.sessions[sid].status != Live)
    && s' == s.(journal := None, client := Resetting(s.client.fp, s.client.rounds))
  }

  /** ... `prepare_upload` with a fresh request id, and once more round the loop. */
  ghost predicate PrepareAgain(s: State, s': State) {
    && s.client.Resetting?
    && s' == PrepareUpload(s, s.client.fp).(client := Looping(s.client.fp, s.client.rounds + 1))
  }

  ghost predicate SendBegin(s: State, s': State) {
    && s.client.Looping? && s.journal.Some? && s.journal.value.session == None
    && s' == s.(sent := s.sent + {Begin(s.journal.value.begin, s.client.fp)})
  }

  ghost predicate BeginAnswered(s: State, s': State) {
    && s.client.Looping? && s.journal.Some? && s.journal.value.session == None
    && s.journal.value.begin in s.begun
    && s' == s.(client := Begun(s.client.fp, s.begun[s.journal.value.begin]))
  }

  /** `set_upload_session`. */
  ghost predicate SaveSession(s: State, s': State) {
    && s.client.Begun? && s.journal.Some?
    && s' == s.(journal := Some(s.journal.value.(session := Some(s.client.session))),
                client := Uploading(s.client.fp, s.client.session, {}, 0))
  }

  ghost predicate SkipChunk(s: State, s': State, w: World) {
    && s.client.Uploading? && s.client.next < Total(w, s.client.fp) && s.client.next in s.client.uploaded
    && s' == s.(client := Uploading(s.client.fp, s.client.session, s.client.uploaded, s.client.next + 1))
  }

  ghost predicate SendChunk(s: State, s': State, w: World) {
    && s.client.Uploading? && s.client.next < Total(w, s.client.fp) && s.client.next !in s.client.uploaded
    && s' == s.(sent := s.sent + {StoreChunk(s.client.session, s.client.next,
                                             ChunkAt(w.content(s.client.fp), s.client.next))})
  }

  /** The chunk is acknowledged; only then is it recorded. */
  ghost predicate ChunkAnswered(s: State, s': State, w: World) {
    && s.client.Uploading? && s.client.next < Total(w, s.client.fp) && s.client.next !in s.client.uploaded
    && s.client.session in s.sessions && s.client.next in s.sessions[s.client.session].chunks
    && s' == s.(client := Stored(s.client.fp, s.client.session, s.client.uploaded, s.client.next))
  }

  /** `uploaded_chunks.insert` and `mark_uploaded_chunk`. */
  ghost predicate MarkChunk(s: State, s': State) {
    && s.client.Stored? && s.journal.Some?
    && var c := s.client;
       s' == s.(journal := Some(s.journal.value.(ranges := s.journal.value.ranges + {c.next})),
                client := Uploading(c.fp, c.session, c.uploaded + {c.next}, c.next + 1))
  }

  ghost predicate SendCommit(s: State, s': State, w: World) {
    && s.client.Uploading? && s.client.next == Total(w, s.client.fp)
    && s' == s.(sent := s.sent + {Commit(s.client.session)}, client := Committing(s.client.fp, s.client.session))
  }

  /** The final `reset_upload`. */
  ghost predicate CommitAnswered(s: State, s': State) {
    && s.client.Committing?
    && s.client.session in s.sessions && s.sessions[s.client.session].status == Committed
    && s' == s.(journal := None, client := Idle)
  }

  /** The process dies, or a call fails for good: only the journal survives. */
  ghost predicate Crash(s: State, s': State) {
    s' == s.(client := Idle)
  }

  /** The next run belongs to another local manifest and starts a journal without checkpoints. */
  ghost predicate Forget(s: State, s': State) {
    s' == s.(journal := None, client := Idle)
  }

  // ---- Server steps ----------------------------------------------------------------------------

  /** A begin request creates a session unless its id has been seen before. */
  ghost predicate ServeBegin(s: State, s': State, request: RequestId, fp: Fingerprint) {
    && Begin(request, fp) in s.sent
    && s' == if request in s.begun then s
             else s.(begun := s.begun[request := s.nextSession],
                     sessions := s.sessions[s.nextSession := Session(fp, map[], Live)],
                     nextSession := s.nextSession + 1)
  }

  ghost predicate ServeChunk(s: State, s': State, sid: SessionId, index: nat, content: Bytes) {
    && StoreChunk(sid, index, content) in s.sent
    && s' == if sid in s.sessions && s.sessions[sid].status == Live then
               s.(sessions := s.sessions[sid := s.sessions[sid].(chunks := s.sessions[sid].chunks[index := content])])
             else s
  }

  ghost predicate ServeCommit(s: State, s': State, sid: SessionId) {
    && Commit(sid) in s.sent
    && s' == if sid in s.sessions && s.sessions[sid].status == Live then
               s.(sessions := s.sessions[sid := s.sessions[sid].(status := Committed)])
             else s
  }

  ghost predicate Expire(s: State, s': State, sid: SessionId) {
    && sid in s.sessions && s.sessions[sid].status == Live
    && s' == s.(sessions := s.sessions[sid := s.sessions[sid].(status := Expired)])
  }

  datatype Step =
    | StartStep(fp: Fingerprint)
    | ResumeStep(sid: SessionId)
    | ResetStep(sid: SessionId)
    | PrepareAgainStep
    | SendBeginStep
    | BeginAnsweredStep
    | SaveSessionStep
    | SkipChunkStep
    | SendChunkStep
    | ChunkAnsweredStep
    | MarkChunkStep
    | SendCommitStep
    | CommitAnsweredStep
    | CrashStep
    | ForgetStep
    | ServeBeginStep(request: RequestId, fp: Fingerprint)
    | ServeChunkStep(sid: SessionId, index: nat, content: Bytes)
    | ServeCommitStep(sid: SessionId)
    | ExpireStep(sid: SessionId)

  ghost predicate Next(w: World, s: State, s': State, step: Step) {
    match step
    case StartStep(fp) => StartAttempt(s, s', fp)
    case ResumeStep(sid) => Resume(s, s', sid)
    case ResetStep(sid) => Reset(s, s', sid)
    case PrepareAgainStep => PrepareAgain(s, s')
    case SendBeginStep => SendBegin(s, s')
    case BeginAnsweredStep => BeginAnswered(s, s')
    case SaveSessionStep => SaveSession(s, s')
    case SkipChunkStep => SkipChunk(s, s', w)
    case SendChunkStep => SendChunk(s, s', w)
    case ChunkAnsweredStep => ChunkAnswered(s, s', w)
    case MarkChunkStep => MarkChunk(s, s')
    case SendCommitStep => SendCommit(s, s', w)
    case CommitAnsweredStep => CommitAnswered(s, s')
    case CrashStep => Crash(s, s')
    case ForgetStep => Forget(s, s')
    case ServeBeginStep(request, fp) => ServeBegin(s, s', request, fp)
    case ServeChunkStep(sid, index, content) => ServeChunk(s, s', sid, index, content)
    case ServeCommitStep(sid) => ServeCommit(s, s', sid)
    case ExpireStep(sid) => Expire(s, s', sid)
  }

  // ---- Invariant -------------------------------------------------------------------------------

  ghost predicate SessionSound(w: World, session: Session) {
    forall i :: i in session.chunks ==>
      i < Total(w, session.fp) && session.chunks[i] == ChunkAt(w.content(session.fp), i)
  }

  /** The session holds every chunk of its file, and they are the file. */
  ghost predicate Holds(w: World, session: Session) {
    && SessionSound(w, session)
    && forall i: nat :: i < Total(w, session.fp) ==> i in session.chunks
  }

  ghost predicate ServerInv(w: World, s: State) {
    && (forall sid :: sid in s.sessions ==> sid < s.nextSession && SessionSound(w, s.sessions[sid]))
    && (forall r :: r in s.begun ==> s.begun[r] in s.sessions)
    && (forall q, r :: q in s.begun && r in s.begun && s.begun[q] == s.begun[r] ==> q == r)
    && (forall sid :: sid in s.sessions && s.sessions[sid].status == Committed ==> Holds(w, s.sessions[sid]))
  }

  ghost predicate MessageSound(w: World, s: State, m: Message) {
    match m
    case Begin(request, fp) =>
      && request < s.nextRequest
      && (request in s.begun ==> SessionOf(s, s.begun[request], fp))
    case StoreChunk(sid, index, content) =>
      && sid in s.sessions && index < Total(w, s.sessions[sid].fp)
      && content == ChunkAt(w.content(s.sessions[sid].fp), index)
    case Commit(sid) => sid in s.sessions && Holds(w, s.sessions[sid])
  }

  /** Every begin request was in the journal before it was sent, and a request id stands for one
      fingerprint. */
  ghost predicate MessagesInv(w: World, s: State) {
    && (forall m :: m in s.sent ==> MessageSound(w, s, m))
    && (forall r, f, g :: Begin(r, f) in s.sent && Begin(r, g) in s.sent ==> f == g)
    && (forall r :: r in s.begun ==> exists fp :: Begin(r, fp) in s.sent)
  }

  ghost predicate SessionOf(s: State, sid: SessionId, fp: Fingerprint) {
    sid in s.sessions && s.sessions[sid].fp == fp
  }

  /** What the journal says is true of the bucket. */
  ghost predicate JournalInv(s: State) {
    s.journal.Some? ==>
      var c := s.journal.value;
      && c.begin < s.nextRequest
      && (forall fp :: Begin(c.begin, fp) in s.sent ==> fp == c.fp)
      && (c.session == None ==> c.ranges == {})
      && (c.session.Some? ==> SessionOf(s, c.session.value, c.fp) && c.ranges <= s.sessions[c.session.value].chunks.Keys)
  }

  ghost predicate JournalIs(s: State, fp: Fingerprint) {
    s.journal.Some? && s.journal.value.fp == fp
  }

  ghost predicate ClientInv(w: World, s: State) {
    match s.client
    case Idle => true
    case Looping(fp, rounds) =>
      JournalIs(s, fp) && 1 <= rounds <= 2 && (rounds == 2 ==> s.journal.value.session == None)
    case Resetting(fp, rounds) => s.journal == None && rounds == 1
    case Begun(fp, sid) => JournalIs(s, fp) && s.journal.value.session == None && SessionOf(s, sid, fp)
    case Uploading(fp, sid, uploaded, next) =>
      && JournalIs(s, fp) && s.journal.value.session == Some(sid) && SessionOf(s, sid, fp)
      && uploaded <= s.sessions[sid].chunks.Keys
      && next <= Total(w, fp) && forall i: nat :: i < next ==> i in uploaded
    case Stored(fp, sid, uploaded, next) =>
      && JournalIs(s, fp) && s.journal.value.session == Some(sid) && SessionOf(s, sid, fp)
      && uploaded + {next} <= s.sessions[sid].chunks.Keys
      && next < Total(w, fp) && forall i: nat :: i < next ==> i in uploaded
    case Committing(fp, sid) =>
      JournalIs(s, fp) && s.journal.value.session == Some(sid) && SessionOf(s, sid, fp) && Commit(sid) in s.sent
  }

  ghost predicate Inv(w: World, s: State) {
    ServerInv(w, s) && MessagesInv(w, s) && JournalInv(s) && ClientInv(w, s)
  }

  // ---- The invariant is kept by every step -----------------------------------------------------

  ghost predicate ServerStep(step: Step) {
    step.ServeBeginStep? || step.ServeChunkStep? || step.ServeCommitStep? || step.ExpireStep?
  }

  /** Sessions never disappear, keep their file and never lose a chunk. */
  ghost predicate SessionsGrow(s: State, s': State) {
    forall sid :: sid in s.sessions ==>
      sid in s'.sessions && s'.sessions[sid].fp == s.sessions[sid].fp
      && s.sessions[sid].chunks.Keys <= s'.sessions[sid].chunks.Keys
  }

  lemma SessionsGrowNext(w: World, s: State, s': State, step: Step)
    requires Inv(w, s) && Next(w, s, s', step)
    ensures SessionsGrow(s, s')
  {
    hide MessagesInv, JournalInv, ClientInv;
  }

  lemma ServeChunkInv(w: World, s: State, s': State, sid: SessionId, index: nat, content: Bytes)
    requires ServerInv(w, s) && MessagesInv(w, s) && ServeChunk(s, s', sid, index, content)
    ensures ServerInv(w, s')
  {
    hide ChunkAt;
    assert MessageSound(w, s, StoreChunk(sid, index, content));
  }

  lemma ServeCommitInv(w: World, s: State, s': State, sid: SessionId)
    requires ServerInv(w, s) && MessagesInv(w, s) && ServeCommit(s, s', sid)
    ensures ServerInv(w, s')
  {
    hide ChunkAt;
    assert MessageSound(w, s, Commit(sid));
  }

  lemma ServerStepInv(w: World, s: State, s': State, step: Step)
    requires ServerInv(w, s) && MessagesInv(w, s) && ServerStep(step) && Next(w, s, s', step)
    ensures ServerInv(w, s')
  {
    hide ChunkAt;
    match step
    case ServeChunkStep(sid, index, content) => ServeChunkInv(w, s, s', sid, index, content);
    case ServeCommitStep(sid) => ServeCommitInv(w, s, s', sid);
    case _ => hide MessagesInv, Holds;
  }

  lemma ServerInvNext(w: World, s: State, s': State, step: Step)
    requires Inv(w, s) && Next(w, s, s', step)
    ensures ServerInv(w, s')
  {
    if ServerStep(step) {
      ServerStepInv(w, s, s', step);
    } else {
      assert s'.sessions == s.sessions && s'.begun == s.begun && s'.nextSession == s.nextSession;
    }
  }

  lemma HoldsKept(w: World, s: State, s': State, sid: SessionId)
    requires SessionsGrow(s, s') && ServerInv(w, s') && sid in s.sessions && Holds(w, s.sessions[sid])
    ensures sid in s'.sessions && Holds(w, s'.sessions[sid])
  {
  }

  /** Messages that were sound before remain sound. */
  lemma OldMessageSound(w: World, s: State, s': State, step: Step, m: Message)
    requires Inv(w, s) && Next(w, s, s', step) && m in s.sent
    ensures MessageSound(w, s', m)
  {
    assert MessageSound(w, s, m);
    SessionsGrowNext(w, s, s', step);
    ServerInvNext(w, s, s', step);
    if m.Commit? {
      HoldsKept(w, s, s', m.session);
    }
  }

  lemma NewMessageSound(w: World, s: State, s': State, step: Step, m: Message)
    requires Inv(w, s) && Next(w, s, s', step) && m in s'.sent && m !in s.sent
    ensures MessageSound(w, s', m)
    ensures m.Begin? ==> forall fp :: Begin(m.request, fp) in s'.sent ==> fp == m.fp
  {
  }

  lemma BeginServed(w: World, s: State, s': State, step: Step, r: RequestId)
    requires Inv(w, s) && Next(w, s, s', step) && r in s'.begun
    ensures exists fp :: Begin(r, fp) in s'.sent
  {
    hide ServerInv, JournalInv, ClientInv, MessageSound;
    if r in s.begun {
      var fp :| Begin(r, fp) in s.sent;
      assert Begin(r, fp) in s'.sent;
    } else {
      assert Begin(step.request, step.fp) in s'.sent;
    }
  }

  lemma MessagesInvNext(w: World, s: State, s': State, step: Step)
    requires Inv(w, s) && Next(w, s, s', step)
    ensures MessagesInv(w, s')
  {
    forall m | m in s'.sent ensures MessageSound(w, s', m) {
      if m in s.sent {
        OldMessageSound(w, s, s', step, m);
      } else {
        NewMessageSound(w, s, s', step, m);
      }
    }
    forall r, f, g | Begin(r, f) in s'.sent && Begin(r, g) in s'.sent ensures f == g {
      if Begin(r, f) !in s.sent {
        NewMessageSound(w, s, s', step, Begin(r, f));
      } else if Begin(r, g) !in s.sent {
        NewMessageSound(w, s, s', step, Begin(r, g));
      }
    }
    forall r | r in s'.begun ensures exists fp :: Begin(r, fp) in s'.sent {
      BeginServed(w, s, s', step, r);
    }
  }

  lemma JournalInvFrame(s: State, s': State)
    requires JournalInv(s) && SessionsGrow(s, s') && s'.journal == s.journal && s'.sent == s.sent
    requires s.nextRequest <= s'.nextRequest
    ensures JournalInv(s')
  {
  }

  lemma NextRequestUnsent(w: World, s: State)
    requires MessagesInv(w, s)
    ensures forall fp :: Begin(s.nextRequest, fp) !in s.sent
  {
    forall fp ensures Begin(s.nextRequest, fp) !in s.sent {
      assert Begin(s.nextRequest, fp) in s.sent ==> MessageSound(w, s, Begin(s.nextRequest, fp));
    }
  }

  lemma JournalInvNext(w: World, s: State, s': State, step: Step)
    requires Inv(w, s) && Next(w, s, s', step)
    ensures JournalInv(s')
  {
    if ServerStep(step) {
      SessionsGrowNext(w, s, s', step);
      hide ServerInv, MessagesInv, JournalInv, ClientInv, SessionsGrow;
      JournalInvFrame(s, s');
    } else {
      NextRequestUnsent(w, s);
      hide ServerInv, MessagesInv;
    }
  }

  lemma ClientInvFrame(w: World, s: State, s': State)
    requires ClientInv(w, s) && SessionsGrow(s, s')
    requires s'.client == s.client && s'.journal == s.journal && s.sent <= s'.sent
    ensures ClientInv(w, s')
  {
  }

  lemma AnswerIsOurSession(w: World, s: State)
    requires MessagesInv(w, s) && JournalInv(s) && s.journal.Some? && s.journal.value.begin in s.begun
    ensures SessionOf(s, s.begun[s.journal.value.begin], s.journal.value.fp)
  {
    var r := s.journal.value.begin;
    var fp :| Begin(r, fp) in s.sent;
    assert MessageSound(w, s, Begin(r, fp));
  }

  ghost predicate ChunkStep(step: Step) {
    step.SkipChunkStep? || step.ChunkAnsweredStep? || step.MarkChunkStep? || step.SendCommitStep?
  }

  lemma ChunkStepInv(w: World, s: State, s': State, step: Step)
    requires ClientInv(w, s) && Next(w, s, s', step) && ChunkStep(step)
    ensures ClientInv(w, s')
  {
    hide ChunkAt;
  }

  lemma ClientInvNext(w: World, s: State, s': State, step: Step)
    requires Inv(w, s) && Next(w, s, s', step)
    ensures ClientInv(w, s')
  {
    if ServerStep(step) || step.SendBeginStep? || step.SendChunkStep? {
      SessionsGrowNext(w, s, s', step);
      hide ClientInv, ServerInv, MessagesInv, JournalInv, SessionsGrow;
      ClientInvFrame(w, s, s');
    } else if ChunkStep(step) {
      hide ClientInv, ServerInv, MessagesInv, JournalInv;
      ChunkStepInv(w, s, s', step);
    } else {
      if step.BeginAnsweredStep? {
        AnswerIsOurSession(w, s);
      }
      hide ServerInv, MessagesInv;
    }
  }

  lemma InvNext(w: World, s: State, s': State, step: Step)
    requires Inv(w, s) && Next(w, s, s', step)
    ensures Inv(w, s')
  {
    ServerInvNext(w, s, s', step);
    MessagesInvNext(w, s, s', step);
    JournalInvNext(w, s, s', step);
    ClientInvNext(w, s, s', step);
  }

  // ---- Safety over whole runs ------------------------------------------------------------------

  ghost predicate IsRun(w: World, states: seq<State>, steps: seq<Step>) {
    && |states| == |steps| + 1 && Init(states[0])
    && forall i :: 0 <= i < |steps| ==> Next(w, states[i], states[i + 1], steps[i])
  }

  lemma {:induction false} RunInv(w: World, states: seq<State>, steps: seq<Step>, i: nat)
    requires IsRun(w, states, steps) && i < |states|
    ensures Inv(w, states[i])
  {
    if i > 0 {
      RunInv(w, states, steps, i - 1);
      InvNext(w, states[i - 1], states[i], steps[i - 1]);
    }
  }

  /** The content a session publishes when it is committed. */
  function Published(w: World, session: Session): Bytes
    requires Holds(w, session)
  {
    Concat(seq(Total(w, session.fp), i requires 0 <= i < Total(w, session.fp) => session.chunks[i]))
  }

  lemma HeldIsFile(w: World, session: Session)
    requires Holds(w, session)
    ensures Published(w, session) == w.content(session.fp)
  {
    assert seq(Total(w, session.fp), i requires 0 <= i < Total(w, session.fp) => session.chunks[i])
        == ChunksOf(w.content(session.fp));
    ChunksRebuild(w.content(session.fp));
  }

  /** A commit request is only ever sent for a session that already holds every chunk, and what a
      committed session publishes is exactly the local file. */
  lemma CommitIsComplete(w: World, states: seq<State>, steps: seq<Step>, i: nat, sid: SessionId)
    requires IsRun(w, states, steps) && i < |states|
    ensures Commit(sid) in states[i].sent ==>
              sid in states[i].sessions && Holds(w, states[i].sessions[sid])
              && Published(w, states[i].sessions[sid]) == w.content(states[i].sessions[sid].fp)
    ensures sid in states[i].sessions && states[i].sessions[sid].status == Committed ==>
              Holds(w, states[i].sessions[sid])
              && Published(w, states[i].sessions[sid]) == w.content(states[i].sessions[sid].fp)
  {
    RunInv(w, states, steps, i);
    assert Commit(sid) in states[i].sent ==> MessageSound(w, states[i], Commit(sid));
    if sid in states[i].sessions && Holds(w, states[i].sessions[sid]) {
      HeldIsFile(w, states[i].sessions[sid]);
    }
  }

  /** The journal never claims more than the bucket has: its session exists for the journalled file and
      holds every recorded chunk. */
  lemma JournalIsTruthful(w: World, states: seq<State>, steps: seq<Step>, i: nat)
    requires IsRun(w, states, steps) && i < |states|
    requires states[i].journal.Some? && states[i].journal.value.session.Some?
    ensures var c := states[i].journal.value;
            c.session.value in states[i].sessions
            && states[i].sessions[c.session.value].fp == c.fp
            && c.ranges <= states[i].sessions[c.session.value].chunks.Keys
  {
    RunInv(w, states, steps, i);
  }

  /** The session loop turns at most twice per attempt. */
  lemma LoopTurnsTwice(w: World, states: seq<State>, steps: seq<Step>, i: nat)
    requires IsRun(w, states, steps) && i < |states| && states[i].client.Looping?
    ensures states[i].client.rounds <= 2
  {
    RunInv(w, states, steps, i);
  }

  // ---- How many sessions and chunk transfers a run can cause ------------------------------------

  /** The steps after which a new begin request id may be needed. */
  ghost predicate RenewsCheckpoint(s: State, s': State) {
    s'.nextRequest != s.nextRequest
  }

  ghost function Renewals(states: seq<State>): nat {
    if |states| < 2 then 0
    else Renewals(states[..|states| - 1])
         + if RenewsCheckpoint(states[|states| - 2], states[|states| - 1]) then 1 else 0
  }

  ghost predicate SessionsCounted(s: State) {
    && |s.sessions| == |s.begun|
    && forall r :: r in s.begun ==> r < s.nextRequest
  }

  /** A new begin request id is made only when the journal holds no checkpoint for this file. */
  lemma RenewalNeedsNoCheckpoint(w: World, s: State, s': State, step: Step)
    requires Inv(w, s) && Next(w, s, s', step) && RenewsCheckpoint(s, s')
    ensures s'.nextRequest == s.nextRequest + 1 && JournalIs(s', s'.client.fp)
    ensures s.journal.Some? ==> step.StartStep? && s.journal.value.fp != step.fp
  {
  }

  lemma MapGrows<V>(m: map<nat, V>, k: nat, v: V)
    requires k !in m
    ensures |m[k := v]| == |m| + 1
  {
    assert m[k := v].Keys == m.Keys + {k};
    assert |m[k := v]| == |m[k := v].Keys| && |m| == |m.Keys|;
  }

  lemma BeginCounted(s: State, s': State, request: RequestId, fp: Fingerprint)
    requires SessionsCounted(s) && ServeBegin(s, s', request, fp) && request < s.nextRequest
    requires s.nextSession !in s.sessions
    ensures SessionsCounted(s')
  {
    if request !in s.begun {
      MapGrows(s.begun, request, s.nextSession);
      MapGrows(s.sessions, s.nextSession, Session(fp, map[], Live));
    }
  }

  lemma SessionsCountedNext(w: World, s: State, s': State, step: Step)
    requires Inv(w, s) && SessionsCounted(s) && Next(w, s, s', step)
    ensures SessionsCounted(s')
  {
    if step.ServeBeginStep? {
      assert MessageSound(w, s, Begin(step.request, step.fp));
      BeginCounted(s, s', step.request, step.fp);
    } else {
      OtherStepsKeepSessions(w, s, s', step);
    }
  }

  lemma OtherStepsKeepSessions(w: World, s: State, s': State, step: Step)
    requires Next(w, s, s', step) && !step.ServeBeginStep?
    ensures |s'.sessions| == |s.sessions| && s'.begun == s.begun && s.nextRequest <= s'.nextRequest
  {
    if step.ServeChunkStep? || step.ServeCommitStep? || step.ExpireStep? {
      assert s'.sessions.Keys == s.sessions.Keys;
      assert |s'.sessions| == |s'.sessions.Keys|;
    }
  }

  lemma {:induction false} RunCounts(w: World, states: seq<State>, steps: seq<Step>, i: nat)
    requires IsRun(w, states, steps) && i < |states|
    ensures SessionsCounted(states[i]) && states[i].nextRequest == Renewals(states[..i + 1])
  {
    if i == 0 {
      assert states[..1] == [states[0]];
    } else {
      RunCounts(w, states, steps, i - 1);
      RunInv(w, states, steps, i - 1);
      SessionsCountedNext(w, states[i - 1], states[i], steps[i - 1]);
      assert states[..i + 1][..i] == states[..i];
      if RenewsCheckpoint(states[i - 1], states[i]) {
        RenewalNeedsNoCheckpoint(w, states[i - 1], states[i], steps[i - 1]);
      }
    }
  }

  ghost function FirstIds(n: nat): set<nat> {
    if n == 0 then {} else FirstIds(n - 1) + {n - 1}
  }

  lemma {:induction false} FirstIdsSize(n: nat)
    ensures |FirstIds(n)| == n && forall r: nat :: r in FirstIds(n) <==> r < n
  {
    if n > 0 {
      FirstIdsSize(n - 1);
    }
  }

  /** Crashes and lost replies alone never create a second session: there are at most as many sessions
      as checkpoints were made, and a checkpoint is only made when the journal has none for the file. */
  lemma SessionsBounded(w: World, states: seq<State>, steps: seq<Step>, i: nat)
    requires IsRun(w, states, steps) && i < |states|
    ensures |states[i].sessions| <= Renewals(states[..i + 1])
  {
    RunCounts(w, states, steps, i);
    var s := states[i];
    FirstIdsSize(s.nextRequest);
    SubsetSize(s.begun.Keys, FirstIds(s.nextRequest));
    assert |s.begun| == |s.begun.Keys|;
  }
}
