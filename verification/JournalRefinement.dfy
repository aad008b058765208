/** The journal and the upload protocol together: the operations of the recovery journal, called for one
    action, carry out the journal steps of `UploadProtocol` and leave the checkpoints of all other
    actions alone (src/sync/mod.rs:683-812, src/sync/journal.rs:63-190). */
module JournalRefinement {
  import opened Manifests
  import opened ChunkRanges
  import P = Planner
  import J = Journal
  import U = UploadProtocol

  /** What a checkpoint on disk means to the protocol. */
  ghost function CheckpointOf(upload: Option<J.UploadCheckpoint>): Option<U.Checkpoint> {
    match upload
    case None => None
    case Some(c) =>
      Some(U.Checkpoint(c.fingerprint, c.beginRequestId, c.sessionId, Expand(c.uploadedRanges)))
  }

  /** What is recorded for an action. */
  ghost function Recorded(data: J.JournalData, action: P.PlanAction): Option<U.Checkpoint> {
    match J.Target(data.actions, action)
    case None => None
    case Some(i) => CheckpointOf(data.actions[i].upload)
  }

  ghost predicate Represents(data: J.JournalData, action: P.PlanAction, s: U.State) {
    J.Target(data.actions, action).Some? && Recorded(data, action) == s.journal
  }

  /** The journal has gone on to stand for `s'`, and nothing else in it has changed. */
  ghost predicate Carried(before: J.JournalData, after: J.JournalData, action: P.PlanAction, s': U.State) {
    && Represents(after, action, s')
    && after.version == before.version && after.key == before.key
    && forall other: P.PlanAction {:trigger Recorded(after, other)} ::
         J.ActionIdentity(other) != J.ActionIdentity(action) ==> Recorded(after, other) == Recorded(before, other)
  }

  lemma {:induction false} FindKept(a: seq<J.JournalAction>, b: seq<J.JournalAction>, kind: J.ActionKind, path: string)
    requires |a| == |b| && forall i :: 0 <= i < |a| ==> a[i].kind == b[i].kind && a[i].path == b[i].path
    ensures J.Find(a, kind, path) == J.Find(b, kind, path)
  {
    if a != [] {
      FindKept(a[1..], b[1..], kind, path);
    }
  }

  lemma UploadReplaced(data: J.JournalData, action: P.PlanAction, i: nat, upload: Option<J.UploadCheckpoint>, s': U.State)
    requires J.Target(data.actions, action) == Some(i) && CheckpointOf(upload) == s'.journal
    ensures Carried(data, J.WithUpload(data, i, upload), action, s')
  {
    var after := J.WithUpload(data, i, upload);
    forall other: P.PlanAction ensures J.Target(after.actions, other) == J.Target(data.actions, other) {
      match J.ActionIdentity(other)
      case None =>
      case Some((kind, path)) => FindKept(after.actions, data.actions, kind, path);
    }
  }

  /** `prepare_upload` at the start of an attempt and after a reset; an id not used before is offered. */
  method Prepare(journal: J.RecoveryJournal, action: P.PlanAction, fingerprint: nat, beginRequestId: nat, ghost s: U.State)
    returns (upload: J.UploadCheckpoint, ghost s': U.State)
    requires journal.Valid() && Represents(journal.data, action, s) && beginRequestId == s.nextRequest
    requires s.client.Idle? || (s.client.Resetting? && s.client.fp == fingerprint)
    modifies journal
    ensures journal.Valid() && Carried(old(journal.data), journal.data, action, s')
    ensures CheckpointOf(Some(upload)) == s'.journal
    ensures if s.client.Idle? then U.StartAttempt(s, s', fingerprint) else U.PrepareAgain(s, s')
  {
    ghost var before := journal.data;
    var r := journal.PrepareUpload(action, fingerprint, beginRequestId);
    upload := r.value;
    s' := U.PrepareUpload(s, fingerprint).(client :=
      U.Looping(fingerprint, if s.client.Idle? then 1 else s.client.rounds + 1));
    assert Expand([]) == {};
    UploadReplaced(before, action, J.Target(before.actions, action).value, Some(upload), s');
  }

  /** The recorded session is alive: the bucket's answer replaces the recorded chunks. */
  method Resume(journal: J.RecoveryJournal, action: P.PlanAction, stored: set<u32>, ghost s: U.State)
    returns (ghost s': U.State)
    requires journal.Valid() && Represents(journal.data, action, s)
    requires s.client.Looping? && s.journal.Some? && s.journal.value.session.Some?
    requires var sid := s.journal.value.session.value;
             sid in s.sessions && s.sessions[sid].status == U.Live
             && s.sessions[sid].chunks.Keys == stored
    modifies journal
    ensures journal.Valid() && Carried(old(journal.data), journal.data, action, s')
    ensures U.Resume(s, s', s.journal.value.session.value)
  {
    ghost var before := journal.data;
    ghost var i := J.Target(before.actions, action).value;
    var r := journal.SetUploadedChunks(action, stored);
    ghost var sid := s.journal.value.session.value;
    ghost var chunks := s.sessions[sid].chunks.Keys;
    s' := s.(journal := Some(s.journal.value.(ranges := chunks)), client := U.Uploading(s.client.fp, sid, chunks, 0));
    UploadReplaced(before, action, i, journal.data.actions[i].upload, s');
  }

  /** The recorded session is gone, or its commit has been answered. */
  method Drop(journal: J.RecoveryJournal, action: P.PlanAction, ghost s: U.State) returns (ghost s': U.State)
    requires journal.Valid() && Represents(journal.data, action, s)
    requires s.client.Committing? || (s.client.Looping? && s.journal.Some? && s.journal.value.session.Some?)
    requires var sid := if s.client.Committing? then s.client.session else s.journal.value.session.value;
             if s.client.Committing? then sid in s.sessions && s.sessions[sid].status == U.Committed
             else sid !in s.sessions || s.sessions[sid].status != U.Live
    modifies journal
    ensures journal.Valid() && Carried(old(journal.data), journal.data, action, s')
    ensures if s.client.Committing? then U.CommitAnswered(s, s') else U.Reset(s, s', s.journal.value.session.value)
  {
    ghost var before := journal.data;
    var r := journal.ResetUpload(action);
    s' := s.(journal := None,
             client := if s.client.Committing? then U.Idle else U.Resetting(s.client.fp, s.client.rounds));
    UploadReplaced(before, action, J.Target(before.actions, action).value, None, s');
  }

  /** Begin has been answered. */
  method SaveSession(journal: J.RecoveryJournal, action: P.PlanAction, sessionId: nat, ghost s: U.State)
    returns (ghost s': U.State)
    requires journal.Valid() && Represents(journal.data, action, s)
    requires s.client.Begun? && s.client.session == sessionId && s.journal.Some?
    modifies journal
    ensures journal.Valid() && Carried(old(journal.data), journal.data, action, s') && U.SaveSession(s, s')
  {
    ghost var before := journal.data;
    ghost var i := J.Target(before.actions, action).value;
    var r := journal.SetUploadSession(action, sessionId);
    s' := s.(journal := Some(s.journal.value.(session := Some(sessionId))),
             client := U.Uploading(s.client.fp, sessionId, {}, 0));
    UploadReplaced(before, action, i, journal.data.actions[i].upload, s');
  }

  /** A chunk has been acknowledged. */
  method MarkChunk(journal: J.RecoveryJournal, action: P.PlanAction, chunk: u32, ghost s: U.State)
    returns (ghost s': U.State)
    requires journal.Valid() && Represents(journal.data, action, s)
    requires s.client.Stored? && s.client.next == chunk && s.journal.Some?
    modifies journal
    ensures journal.Valid() && Carried(old(journal.data), journal.data, action, s') && U.MarkChunk(s, s')
  {
    ghost var before := journal.data;
    ghost var i := J.Target(before.actions, action).value;
    var r := journal.MarkUploadedChunk(action, chunk);
    ghost var c := s.client;
    s' := s.(journal := Some(s.journal.value.(ranges := s.journal.value.ranges + {c.next})),
             client := U.Uploading(c.fp, c.session, c.uploaded + {c.next}, c.next + 1));
    UploadReplaced(before, action, i, journal.data.actions[i].upload, s');
  }

  /** The client starts again after it has died anywhere in a run: with the same local manifest and
      target the journal on disk is taken over, and all that is lost is what the client had in memory;
      with another one, or a journal of another version, the checkpoint is forgotten. */
  method Restart(key: J.JournalKey, actions: seq<P.PlanAction>, last: J.RecoveryJournal, action: P.PlanAction,
                 ghost s: U.State)
    returns (journal: J.RecoveryJournal, ghost s': U.State)
    requires last.Valid() && Represents(last.disk, action, s)
    requires J.Target(J.FreshActions(actions), action).Some?
    ensures fresh(journal) && journal.Valid() && journal.data.key == key && Represents(journal.data, action, s')
    ensures if key == last.disk.key && last.disk.version == J.JOURNAL_VERSION then U.Crash(s, s') else U.Forget(s, s')
  {
    journal := new J.RecoveryJournal(key, actions, Some(last.disk));
    s' := s.(client := U.Idle, journal := if key == last.disk.key && last.disk.version == J.JOURNAL_VERSION then s.journal else None);
    J.FreshHaveNoUpload(actions);
    var (kind, path) := J.ActionIdentity(action).value;
    FindKept(journal.data.actions, J.FreshActions(actions), kind, path);
  }

  /** So what the journal on disk records is true at every moment of a run. */
  lemma RecordedIsStored(
    w: U.World, states: seq<U.State>, steps: seq<U.Step>, k: nat, data: J.JournalData, action: P.PlanAction, i: nat)
    requires U.IsRun(w, states, steps) && k < |states| && Represents(data, action, states[k])
    requires J.Target(data.actions, action) == Some(i) && data.actions[i].upload.Some?
    requires data.actions[i].upload.value.sessionId.Some?
    ensures var upload := data.actions[i].upload.value;
            && upload.sessionId.value in states[k].sessions
            && states[k].sessions[upload.sessionId.value].fp == upload.fingerprint
            && forall chunk: u32 :: Covers(upload.uploadedRanges, chunk) ==>
                 chunk in states[k].sessions[upload.sessionId.value].chunks
  {
    var upload := data.actions[i].upload.value;
    U.JournalIsTruthful(w, states, steps, k);
    forall chunk: u32 | Covers(upload.uploadedRanges, chunk)
      ensures chunk in states[k].sessions[upload.sessionId.value].chunks
    {
      assert chunk in Expand(upload.uploadedRanges);
    }
  }
}
