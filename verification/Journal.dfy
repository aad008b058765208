/** The recovery journal (src/sync/journal.rs). */
module Journal {
  import opened Manifests
  import opened ChunkRanges
  import P = Planner

  const JOURNAL_VERSION: nat := 2

  datatype ActionState = Pending | InProgress | Completed

  datatype ActionKind = CreateDirectory | UploadFile | ReplaceFile | DeleteFile | DeleteDirectory

  /** Fingerprints, request ids and session ids are opaque; they are only compared. */
  datatype UploadCheckpoint = UploadCheckpoint(
    fingerprint: nat, beginRequestId: nat, sessionId: Option<nat>, uploadedRanges: seq<ChunkRange>)

  datatype JournalAction = JournalAction(
    kind: ActionKind, path: string, state: ActionState, remoteId: Option<nat>, upload: Option<UploadCheckpoint>)

  datatype JournalKey = JournalKey(bucket: string, remoteParent: nat, localRoot: string, manifestHash: Digest)

  datatype JournalData = JournalData(version: nat, key: JournalKey, actions: seq<JournalAction>)

  datatype JournalError = UnsupportedAction | MissingAction(path: string) | NotPrepared

  function ActionIdentity(a: P.PlanAction): Option<(ActionKind, string)> {
    match a
    case CreateDirectory(path) => Some((CreateDirectory, path))
    case UploadFile(path, _) => Some((UploadFile, path))
    case ReplaceFile(path, _, _) => Some((ReplaceFile, path))
    case DeleteFile(path, _) => Some((DeleteFile, path))
    case DeleteDirectory(path, _) => Some((DeleteDirectory, path))
    case Conflict(_, _) => None
  }

  /** `actions.iter().filter_map(journal_action)`. */
  function FreshActions(actions: seq<P.PlanAction>): seq<JournalAction> {
    if actions == [] then []
    else FreshActions(actions[..|actions| - 1])
         + match ActionIdentity(actions[|actions| - 1])
           case None => []
           case Some((kind, path)) => [JournalAction(kind, path, Pending, None, None)]
  }

  /** The index of the first entry with this kind and path. */
  function Find(actions: seq<JournalAction>, kind: ActionKind, path: string): (r: Option<nat>)
    ensures r.Some? ==> r.value < |actions| && actions[r.value].kind == kind && actions[r.value].path == path
    ensures r.None? ==> forall i :: 0 <= i < |actions| ==> actions[i].kind != kind || actions[i].path != path
  {
    if actions == [] then None
    else if actions[0].kind == kind && actions[0].path == path then Some(0)
    else
      match Find(actions[1..], kind, path)
      case None => assert actions == [actions[0]] + actions[1..]; None
      case Some(i) => Some(i + 1)
  }

  ghost predicate SoundCheckpoint(upload: Option<UploadCheckpoint>) {
    upload.Some? ==> Canonical(upload.value.uploadedRanges)
  }

  ghost predicate Sound(data: JournalData) {
    forall i :: 0 <= i < |data.actions| ==> SoundCheckpoint(data.actions[i].upload)
  }

  /** No two entries share kind and path. */
  ghost predicate Unambiguous(actions: seq<JournalAction>) {
    forall i, j :: 0 <= i < j < |actions| ==> actions[i].kind != actions[j].kind || actions[i].path != actions[j].path
  }

  /** The entry that an action gets in a new journal: its kind and path, with nothing done yet. */
  ghost predicate EntryFor(a: P.PlanAction, entry: JournalAction) {
    && entry.path == a.path && entry.state == Pending && entry.remoteId == None && entry.upload == None
    && (a.CreateDirectory? <==> entry.kind == CreateDirectory) && (a.UploadFile? <==> entry.kind == UploadFile)
    && (a.ReplaceFile? <==> entry.kind == ReplaceFile) && (a.DeleteFile? <==> entry.kind == DeleteFile)
    && (a.DeleteDirectory? <==> entry.kind == DeleteDirectory)
  }

  lemma {:induction false} FreshEntries(actions: seq<P.PlanAction>)
    requires forall i :: 0 <= i < |actions| ==> ActionIdentity(actions[i]).Some?
    ensures |FreshActions(actions)| == |actions|
    ensures forall i :: 0 <= i < |actions| ==> EntryFor(actions[i], FreshActions(actions)[i])
  {
    if actions != [] {
      FreshEntries(actions[..|actions| - 1]);
    }
  }

  /** For a conflict-free plan the lookup by kind and path finds the entry of the action itself. */
  lemma FreshActionsMatchPlan(actions: seq<P.PlanAction>)
    requires P.ConflictFree(actions)
    requires forall i, j :: 0 <= i < j < |actions| ==> actions[i].path != actions[j].path
    ensures |FreshActions(actions)| == |actions| && Unambiguous(FreshActions(actions))
    ensures forall i :: 0 <= i < |actions| ==> EntryFor(actions[i], FreshActions(actions)[i])
  {
    forall i | 0 <= i < |actions| ensures ActionIdentity(actions[i]).Some? {
      assert actions[i] in actions;
    }
    FreshEntries(actions);
    var entries := FreshActions(actions);
    forall i, j | 0 <= i < j < |entries| ensures entries[i].path != entries[j].path {
      assert EntryFor(actions[i], entries[i]) && EntryFor(actions[j], entries[j]);
    }
  }

  /** What a new journal takes over from a previous one: the checkpoints of the same actions, and only
      when the previous journal belongs to the same target and the same local manifest. */
  function CarriedOver(entry: JournalAction, key: JournalKey, previous: Option<JournalData>): Option<UploadCheckpoint> {
    if previous.Some? && previous.value.version == JOURNAL_VERSION && previous.value.key == key then
      match Find(previous.value.actions, entry.kind, entry.path)
      case Some(i) => previous.value.actions[i].upload
      case None => entry.upload
    else entry.upload
  }

  /** The entry an action refers to. */
  function Target(actions: seq<JournalAction>, action: P.PlanAction): (r: Option<nat>)
    ensures r.Some? ==> r.value < |actions|
                        && ActionIdentity(action) == Some((actions[r.value].kind, actions[r.value].path))
  {
    match ActionIdentity(action)
    case None => None
    case Some((kind, path)) => Find(actions, kind, path)
  }

  function Checkpointed(actions: seq<JournalAction>, action: P.PlanAction): (r: Option<nat>)
    ensures r.Some? ==> r.value < |actions| && actions[r.value].upload.Some?
  {
    match Target(actions, action)
    case None => None
    case Some(i) => if actions[i].upload.Some? then Some(i) else None
  }

  function Prepared(upload: Option<UploadCheckpoint>, fingerprint: nat, beginRequestId: nat): UploadCheckpoint {
    if upload.Some? && upload.value.fingerprint == fingerprint then upload.value
    else UploadCheckpoint(fingerprint, beginRequestId, None, [])
  }

  function WithUpload(data: JournalData, i: nat, upload: Option<UploadCheckpoint>): JournalData
    requires i < |data.actions|
  {
    data.(actions := data.actions[i := data.actions[i].(upload := upload)])
  }

  /** In the journal of a conflict-free plan every action finds its own entry, whatever has been
      recorded in the meantime. */
  lemma TargetIsOwnEntry(actions: seq<P.PlanAction>, entries: seq<JournalAction>, k: nat)
    requires P.ConflictFree(actions) && k < |actions| == |entries|
    requires forall i, j :: 0 <= i < j < |actions| ==> actions[i].path != actions[j].path
    requires |FreshActions(actions)| == |entries|
    requires forall i :: 0 <= i < |entries| ==>
      entries[i].kind == FreshActions(actions)[i].kind && entries[i].path == FreshActions(actions)[i].path
    ensures Target(entries, actions[k]) == Some(k)
  {
    FreshActionsMatchPlan(actions);
    var (kind, path) := ActionIdentity(actions[k]).value;
    var found := Find(entries, kind, path);
    assert entries[k].kind == kind && entries[k].path == path;
  }

  class RecoveryJournal {
    var data: JournalData
    /** What the last completed save left on disk. */
    var disk: JournalData

    ghost predicate Valid()
      reads this
    {
      Sound(data) && disk == data
    }

    /** `RecoveryJournal::start`. */
    constructor (key: JournalKey, actions: seq<P.PlanAction>, previous: Option<JournalData>)
      requires previous.Some? ==> Sound(previous.value)
      ensures Valid() && data.version == JOURNAL_VERSION && data.key == key
      ensures |data.actions| == |FreshActions(actions)|
      ensures forall i :: 0 <= i < |data.actions| ==>
        data.actions[i] == FreshActions(actions)[i].(upload := CarriedOver(FreshActions(actions)[i], key, previous))
    {
      var entries := FreshActions(actions);
      FreshHaveNoUpload(actions);
      var i := 0;
      while i < |entries|
        invariant i <= |entries| == |FreshActions(actions)|
        invariant forall k :: 0 <= k < i ==>
          entries[k] == FreshActions(actions)[k].(upload := CarriedOver(FreshActions(actions)[k], key, previous))
        invariant forall k :: i <= k < |entries| ==> entries[k] == FreshActions(actions)[k]
        invariant forall k :: 0 <= k < |entries| ==> SoundCheckpoint(entries[k].upload)
      {
        entries := entries[i := entries[i].(upload := CarriedOver(entries[i], key, previous))];
        i := i + 1;
      }
      data := JournalData(JOURNAL_VERSION, key, entries);
      disk := JournalData(JOURNAL_VERSION, key, entries);
    }

    /** Replaces one entry and saves. */
    method Update(i: nat, entry: JournalAction)
      requires Valid() && i < |data.actions| && SoundCheckpoint(entry.upload)
      modifies this
      ensures Valid() && data == old(data).(actions := old(data).actions[i := entry])
    {
      data := data.(actions := data.actions[i := entry]);
      disk := data;
    }

    /** `action_mut`. */
    method Lookup(action: P.PlanAction) returns (r: Result<nat, JournalError>)
      ensures match Target(data.actions, action)
              case Some(i) => r == Ok(i)
              case None => r.Err?
    {
      match ActionIdentity(action) {
        case None => return Err(UnsupportedAction);
        case Some((kind, path)) =>
          match Find(data.actions, kind, path) {
            case None => return Err(MissingAction(path));
            case Some(i) => return Ok(i);
          }
      }
    }

    /** `set_state`: a remote id, once known, is kept. */
    method SetState(action: P.PlanAction, state: ActionState, remoteId: Option<nat>) returns (r: Result<(), JournalError>)
      requires Valid()
      modifies this
      ensures Valid()
      ensures match Target(old(data).actions, action)
              case None => r.Err? && data == old(data)
              case Some(i) =>
                var entry := old(data).actions[i];
                r.Ok? && data == old(data).(actions := old(data).actions[i :=
                  entry.(state := state, remoteId := if remoteId.Some? then remoteId else entry.remoteId)])
    {
      var found := Lookup(action);
      match found {
        case Err(e) => return Err(e);
        case Ok(i) =>
          var entry := data.actions[i];
          assert SoundCheckpoint(entry.upload);
          Update(i, entry.(state := state, remoteId := if remoteId.Some? then remoteId else entry.remoteId));
          return Ok(());
      }
    }

    /** `prepare_upload`: a checkpoint with the same fingerprint survives with its begin request id, its
        session and its chunks; otherwise a new one is recorded before anything is sent. */
    method PrepareUpload(action: P.PlanAction, fingerprint: nat, beginRequestId: nat)
      returns (r: Result<UploadCheckpoint, JournalError>)
      requires Valid()
      modifies this
      ensures Valid()
      ensures match Target(old(data).actions, action)
              case None => r.Err? && data == old(data)
              case Some(i) =>
                var upload := Prepared(old(data).actions[i].upload, fingerprint, beginRequestId);
                r == Ok(upload) && data == WithUpload(old(data), i, Some(upload))
    {
      var found := Lookup(action);
      match found {
        case Err(e) => return Err(e);
        case Ok(i) =>
          var entry := data.actions[i];
          if entry.upload.Some? && entry.upload.value.fingerprint == fingerprint {
            assert data == WithUpload(data, i, Some(entry.upload.value));
            return Ok(entry.upload.value);
          }
          var upload := UploadCheckpoint(fingerprint, beginRequestId, None, []);
          Update(i, entry.(upload := Some(upload)));
          return Ok(upload);
      }
    }

    /** `set_upload_session`. */
    method SetUploadSession(action: P.PlanAction, sessionId: nat) returns (r: Result<(), JournalError>)
      requires Valid()
      modifies this
      ensures Valid()
      ensures match Checkpointed(old(data).actions, action)
              case None => r.Err? && data == old(data)
              case Some(i) =>
                var upload := old(data).actions[i].upload.value;
                r.Ok? && data == WithUpload(old(data), i, Some(upload.(sessionId := Some(sessionId))))
    {
      var found := Lookup(action);
      match found {
        case Err(e) => return Err(e);
        case Ok(i) =>
          match data.actions[i].upload {
            case None => return Err(NotPrepared);
            case Some(upload) =>
              assert SoundCheckpoint(data.actions[i].upload);
              Update(i, data.actions[i].(upload := Some(upload.(sessionId := Some(sessionId)))));
              return Ok(());
          }
      }
    }

    /** `set_uploaded_chunks`: the server's answer replaces the recorded set. */
    method SetUploadedChunks(action: P.PlanAction, chunks: set<u32>) returns (r: Result<(), JournalError>)
      requires Valid()
      modifies this
      ensures Valid()
      ensures match Checkpointed(old(data).actions, action)
              case None => r.Err? && data == old(data)
              case Some(i) =>
                && r.Ok? && i < |data.actions| && data.actions[i].upload.Some?
                && var upload := data.actions[i].upload.value;
                   Expand(upload.uploadedRanges) == chunks
                   && data == WithUpload(old(data), i,
                        Some(old(data).actions[i].upload.value.(uploadedRanges := upload.uploadedRanges)))
    {
      var found := Lookup(action);
      match found {
        case Err(e) => return Err(e);
        case Ok(i) =>
          match data.actions[i].upload {
            case None => return Err(NotPrepared);
            case Some(upload) =>
              var ranges := FromSet(chunks);
              ExpandInverse(ranges, chunks);
              Update(i, data.actions[i].(upload := Some(upload.(uploadedRanges := ranges))));
              return Ok(());
          }
      }
    }

    /** `mark_uploaded_chunk`: the recorded set grows by exactly this chunk. */
    method MarkUploadedChunk(action: P.PlanAction, chunk: u32) returns (r: Result<(), JournalError>)
      requires Valid()
      modifies this
      ensures Valid()
      ensures match Checkpointed(old(data).actions, action)
              case None => r.Err? && data == old(data)
              case Some(i) =>
                && r.Ok? && i < |data.actions| && data.actions[i].upload.Some?
                && var before, after := old(data).actions[i].upload.value, data.actions[i].upload.value;
                   Expand(after.uploadedRanges) == Expand(before.uploadedRanges) + {chunk}
                   && data == WithUpload(old(data), i, Some(before.(uploadedRanges := after.uploadedRanges)))
    {
      var found := Lookup(action);
      match found {
        case Err(e) => return Err(e);
        case Ok(i) =>
          match data.actions[i].upload {
            case None => return Err(NotPrepared);
            case Some(upload) =>
              assert SoundCheckpoint(data.actions[i].upload);
              var ranges := InsertChunk(upload.uploadedRanges, chunk);
              Update(i, data.actions[i].(upload := Some(upload.(uploadedRanges := ranges))));
              return Ok(());
          }
      }
    }

    /** `reset_upload`. */
    method ResetUpload(action: P.PlanAction) returns (r: Result<(), JournalError>)
      requires Valid()
      modifies this
      ensures Valid()
      ensures match Target(old(data).actions, action)
              case None => r.Err? && data == old(data)
              case Some(i) => r.Ok? && data == WithUpload(old(data), i, None)
    {
      var found := Lookup(action);
      match found {
        case Err(e) => return Err(e);
        case Ok(i) =>
          Update(i, data.actions[i].(upload := None));
          return Ok(());
      }
    }
  }

  lemma {:induction false} FreshHaveNoUpload(actions: seq<P.PlanAction>)
    ensures forall i :: 0 <= i < |FreshActions(actions)| ==> FreshActions(actions)[i].upload == None
  {
    if actions != [] {
      FreshHaveNoUpload(actions[..|actions| - 1]);
    }
  }
}
