/** An upload can always be finished (src/sync/mod.rs:626-800): from every reachable state the client, started
    again if need be, gets the file committed, if the bucket serves its messages and no further session
    expires. And it never sends a chunk that its journal records. */
module UploadProgress {
  import opened FileChunks
  import opened Manifests
  import opened UploadProtocol

  /** Steps of a client that uploads this file, and of the bucket serving it. */
  ghost predicate Helpful(step: Step, fp: Fingerprint) {
    !step.ExpireStep? && !step.ForgetStep? && (step.StartStep? ==> step.fp == fp)
  }

  ghost predicate HelpfulAt(w: World, fp: Fingerprint, states: seq<State>, steps: seq<Step>, k: nat) {
    && k < |steps| && k + 1 < |states|
    && Next(w, states[k], states[k + 1], steps[k]) && Helpful(steps[k], fp)
  }

  /** The steps lead from `s` to the answer to a commit of this file. */
  ghost predicate Finishes(w: World, s: State, fp: Fingerprint, states: seq<State>, steps: seq<Step>) {
    && |states| == |steps| + 1 && states[0] == s
    && (forall k {:trigger HelpfulAt(w, fp, states, steps, k)} :: 0 <= k < |steps| ==> HelpfulAt(w, fp, states, steps, k))
    && steps != [] && steps[|steps| - 1] == CommitAnsweredStep
    && states[|steps| - 1].client.Committing? && states[|steps| - 1].client.fp == fp
  }

  ghost predicate CanFinish(w: World, s: State, fp: Fingerprint) {
    exists states, steps :: Finishes(w, s, fp, states, steps)
  }

  lemma StepFirst(w: World, s: State, s': State, step: Step, fp: Fingerprint)
    requires Next(w, s, s', step) && Helpful(step, fp) && CanFinish(w, s', fp)
    ensures CanFinish(w, s, fp)
  {
    var states, steps :| Finishes(w, s', fp, states, steps);
    var states', steps' := [s] + states, [step] + steps;
    forall k | 0 <= k < |steps'| ensures HelpfulAt(w, fp, states', steps', k) {
      if k > 0 {
        assert HelpfulAt(w, fp, states, steps, k - 1);
      }
    }
    assert Finishes(w, s, fp, states', steps');
  }

  // ---- From the end to the beginning -----------------------------------------------------------

  lemma FromCommitted(w: World, s: State)
    requires s.client.Committing? && s.client.session in s.sessions
    requires s.sessions[s.client.session].status == Committed
    ensures CanFinish(w, s, s.client.fp)
  {
    var s' := s.(journal := None, client := Idle);
    assert Next(w, s, s', CommitAnsweredStep);
    assert HelpfulAt(w, s.client.fp, [s, s'], [CommitAnsweredStep], 0);
    assert Finishes(w, s, s.client.fp, [s, s'], [CommitAnsweredStep]);
  }

  lemma FromCommitting(w: World, s: State)
    requires Inv(w, s) && s.client.Committing? && s.sessions[s.client.session].status == Live
    ensures CanFinish(w, s, s.client.fp)
  {
    var sid := s.client.session;
    var s' := s.(sessions := s.sessions[sid := s.sessions[sid].(status := Committed)]);
    assert Next(w, s, s', ServeCommitStep(sid));
    FromCommitted(w, s');
    StepFirst(w, s, s', ServeCommitStep(sid), s.client.fp);
  }

  /** The rest of the file is sent, chunk by chunk. */
  lemma {:induction false} FromUploading(w: World, s: State)
    requires Inv(w, s) && s.client.Uploading? && s.sessions[s.client.session].status == Live
    ensures CanFinish(w, s, s.client.fp)
    decreases Total(w, s.client.fp) - s.client.next, 2
  {
    var c := s.client;
    if c.next == Total(w, c.fp) {
      var s' := s.(sent := s.sent + {Commit(c.session)}, client := Committing(c.fp, c.session));
      assert Next(w, s, s', SendCommitStep);
      InvNext(w, s, s', SendCommitStep);
      FromCommitting(w, s');
      StepFirst(w, s, s', SendCommitStep, c.fp);
    } else if c.next in c.uploaded {
      var s' := s.(client := Uploading(c.fp, c.session, c.uploaded, c.next + 1));
      assert Next(w, s, s', SkipChunkStep);
      InvNext(w, s, s', SkipChunkStep);
      FromUploading(w, s');
      StepFirst(w, s, s', SkipChunkStep, c.fp);
    } else {
      var content := ChunkAt(w.content(c.fp), c.next);
      var sent := s.(sent := s.sent + {StoreChunk(c.session, c.next, content)});
      assert Next(w, s, sent, SendChunkStep);
      InvNext(w, s, sent, SendChunkStep);
      FromSent(w, sent, content);
      StepFirst(w, s, sent, SendChunkStep, c.fp);
    }
  }

  /** A chunk is served, acknowledged ... */
  lemma {:induction false} FromSent(w: World, s: State, content: Bytes)
    requires Inv(w, s) && s.client.Uploading? && s.sessions[s.client.session].status == Live
    requires s.client.next < Total(w, s.client.fp) && s.client.next !in s.client.uploaded
    requires StoreChunk(s.client.session, s.client.next, content) in s.sent
    ensures CanFinish(w, s, s.client.fp)
    decreases Total(w, s.client.fp) - s.client.next, 1
  {
    var c := s.client;
    var session := s.sessions[c.session];
    var stored := s.(sessions := s.sessions[c.session := session.(chunks := session.chunks[c.next := content])]);
    var acknowledged := stored.(client := Stored(c.fp, c.session, c.uploaded, c.next));
    assert Next(w, s, stored, ServeChunkStep(c.session, c.next, content));
    assert Next(w, stored, acknowledged, ChunkAnsweredStep);
    hide Next, Inv, ChunkAt, Total, CanFinish;
    InvNext(w, s, stored, ServeChunkStep(c.session, c.next, content));
    InvNext(w, stored, acknowledged, ChunkAnsweredStep);
    FromStored(w, acknowledged);
    StepFirst(w, stored, acknowledged, ChunkAnsweredStep, c.fp);
    StepFirst(w, s, stored, ServeChunkStep(c.session, c.next, content), c.fp);
  }

  /** ... and recorded. */
  lemma {:induction false} FromStored(w: World, s: State)
    requires Inv(w, s) && s.client.Stored? && s.sessions[s.client.session].status == Live
    ensures CanFinish(w, s, s.client.fp)
    decreases Total(w, s.client.fp) - s.client.next, 0
  {
    var c := s.client;
    var s' := s.(journal := Some(s.journal.value.(ranges := s.journal.value.ranges + {c.next})),
                 client := Uploading(c.fp, c.session, c.uploaded + {c.next}, c.next + 1));
    assert Next(w, s, s', MarkChunkStep);
    InvNext(w, s, s', MarkChunkStep);
    FromUploading(w, s');
    StepFirst(w, s, s', MarkChunkStep, c.fp);
  }

  /** A session that the client has just been given, or finds in its journal. */
  lemma FromBegun(w: World, s: State)
    requires Inv(w, s) && s.client.Begun? && s.sessions[s.client.session].status == Live
    ensures CanFinish(w, s, s.client.fp)
  {
    var s' := s.(journal := Some(s.journal.value.(session := Some(s.client.session))),
                 client := Uploading(s.client.fp, s.client.session, {}, 0));
    assert Next(w, s, s', SaveSessionStep);
    InvNext(w, s, s', SaveSessionStep);
    FromUploading(w, s');
    StepFirst(w, s, s', SaveSessionStep, s.client.fp);
  }

  lemma FromLiveSession(w: World, s: State, sid: SessionId)
    requires Inv(w, s) && s.client.Looping? && s.journal.value.session == Some(sid) && s.sessions[sid].status == Live
    ensures CanFinish(w, s, s.client.fp)
  {
    var stored := s.sessions[sid].chunks.Keys;
    var s' := s.(journal := Some(s.journal.value.(ranges := stored)), client := Uploading(s.client.fp, sid, stored, 0));
    assert Next(w, s, s', ResumeStep(sid));
    InvNext(w, s, s', ResumeStep(sid));
    FromUploading(w, s');
    StepFirst(w, s, s', ResumeStep(sid), s.client.fp);
  }

  /** A new session is asked for. */
  lemma FromNoSession(w: World, s: State)
    requires Inv(w, s) && s.client.Looping? && s.journal.value.session == None && s.journal.value.begin !in s.begun
    ensures CanFinish(w, s, s.client.fp)
  {
    var request, fp := s.journal.value.begin, s.client.fp;
    var sent := s.(sent := s.sent + {Begin(request, fp)});
    var served := sent.(begun := s.begun[request := s.nextSession],
                        sessions := s.sessions[s.nextSession := Session(fp, map[], Live)],
                        nextSession := s.nextSession + 1);
    var answered := served.(client := Begun(fp, s.nextSession));
    assert Next(w, s, sent, SendBeginStep);
    InvNext(w, s, sent, SendBeginStep);
    assert Next(w, sent, served, ServeBeginStep(request, fp));
    InvNext(w, sent, served, ServeBeginStep(request, fp));
    assert Next(w, served, answered, BeginAnsweredStep);
    InvNext(w, served, answered, BeginAnsweredStep);
    FromBegun(w, answered);
    StepFirst(w, served, answered, BeginAnsweredStep, fp);
    StepFirst(w, sent, served, ServeBeginStep(request, fp), fp);
    StepFirst(w, s, sent, SendBeginStep, fp);
  }

  /** The journalled session is gone: a second round with a new one. */
  lemma FromLostSession(w: World, s: State, sid: SessionId)
    requires Inv(w, s) && s.client.Looping? && s.journal.value.session == Some(sid) && s.sessions[sid].status != Live
    ensures CanFinish(w, s, s.client.fp)
  {
    var fp, rounds := s.client.fp, s.client.rounds;
    var reset := s.(journal := None, client := Resetting(fp, rounds));
    var prepared := PrepareUpload(reset, fp).(client := Looping(fp, rounds + 1));
    assert Next(w, s, reset, ResetStep(sid));
    InvNext(w, s, reset, ResetStep(sid));
    assert Next(w, reset, prepared, PrepareAgainStep);
    InvNext(w, reset, prepared, PrepareAgainStep);
    NewRequestUnserved(w, reset);
    FromNoSession(w, prepared);
    StepFirst(w, reset, prepared, PrepareAgainStep, fp);
    StepFirst(w, s, reset, ResetStep(sid), fp);
  }

  lemma NewRequestUnserved(w: World, s: State)
    requires Inv(w, s)
    ensures s.nextRequest !in s.begun
  {
    NextRequestUnsent(w, s);
    assert s.nextRequest in s.begun ==> exists fp :: Begin(s.nextRequest, fp) in s.sent;
  }

  /** The session that was begun has expired before the client recorded it: the next start finds out. */
  lemma FromExpiredAnswer(w: World, s: State)
    requires Inv(w, s) && s.client.Looping? && s.journal.value.session == None && s.journal.value.begin in s.begun
    ensures CanFinish(w, s, s.client.fp)
  {
    var fp, sid := s.client.fp, s.begun[s.journal.value.begin];
    var answered := s.(client := Begun(fp, sid));
    assert Next(w, s, answered, BeginAnsweredStep);
    InvNext(w, s, answered, BeginAnsweredStep);
    if answered.sessions[sid].status == Live {
      FromBegun(w, answered);
    } else {
      var saved := answered.(journal := Some(s.journal.value.(session := Some(sid))), client := Uploading(fp, sid, {}, 0));
      var died := saved.(client := Idle);
      var started := PrepareUpload(died, fp).(client := Looping(fp, 1));
      assert Next(w, answered, saved, SaveSessionStep);
      InvNext(w, answered, saved, SaveSessionStep);
      assert Next(w, saved, died, CrashStep);
      InvNext(w, saved, died, CrashStep);
      assert Next(w, died, started, StartStep(fp));
      InvNext(w, died, started, StartStep(fp));
      FromLostSession(w, started, sid);
      StepFirst(w, died, started, StartStep(fp), fp);
      StepFirst(w, saved, died, CrashStep, fp);
      StepFirst(w, answered, saved, SaveSessionStep, fp);
    }
    StepFirst(w, s, answered, BeginAnsweredStep, fp);
  }

  lemma FromLooping(w: World, s: State)
    requires Inv(w, s) && s.client.Looping?
    ensures CanFinish(w, s, s.client.fp)
  {
    match s.journal.value.session {
      case Some(sid) =>
        if s.sessions[sid].status == Live {
          FromLiveSession(w, s, sid);
        } else {
          FromLostSession(w, s, sid);
        }
      case None =>
        if s.journal.value.begin in s.begun {
          FromExpiredAnswer(w, s);
        } else {
          FromNoSession(w, s);
        }
    }
  }

  /** Wherever a run has got to, and whatever it was uploading, it has a continuation in which this file
      is committed. */
  lemma UploadCanFinish(w: World, states: seq<State>, steps: seq<Step>, k: nat, fp: Fingerprint)
    requires IsRun(w, states, steps) && k < |states|
    ensures CanFinish(w, states[k], fp)
  {
    var s := states[k];
    var died := s.(client := Idle);
    var started := PrepareUpload(died, fp).(client := Looping(fp, 1));
    RunInv(w, states, steps, k);
    assert Next(w, s, died, CrashStep);
    InvNext(w, s, died, CrashStep);
    assert Next(w, died, started, StartStep(fp));
    InvNext(w, died, started, StartStep(fp));
    FromLooping(w, started);
    StepFirst(w, died, started, StartStep(fp), fp);
    StepFirst(w, s, died, CrashStep, fp);
  }

  // ---- A live session is used --------------------------------------------------------------------

  /** In the session loop there is one way on: an upload without a session begins one, a live session is
      resumed, and a lost one is reset. */
  lemma OneWayOn(w: World, s: State)
    requires Inv(w, s) && s.client.Looping?
    ensures var session := s.journal.value.session;
            && ((exists s' :: Next(w, s, s', SendBeginStep)) <==> session == None)
            && forall sid {:trigger s.sessions[sid]} :: sid in s.sessions ==>
                 && ((exists s' :: Next(w, s, s', ResumeStep(sid))) <==> session == Some(sid) && s.sessions[sid].status == Live)
                 && ((exists s' :: Next(w, s, s', ResetStep(sid))) <==> session == Some(sid) && s.sessions[sid].status != Live)
  {
    var c := s.journal.value;
    if c.session == None {
      assert Next(w, s, s.(sent := s.sent + {Begin(c.begin, s.client.fp)}), SendBeginStep);
    } else {
      var sid := c.session.value;
      var stored := s.sessions[sid].chunks.Keys;
      if s.sessions[sid].status == Live {
        assert Next(w, s, s.(journal := Some(c.(ranges := stored)), client := Uploading(s.client.fp, sid, stored, 0)), ResumeStep(sid));
      } else {
        assert Next(w, s, s.(journal := None, client := Resetting(s.client.fp, s.client.rounds)), ResetStep(sid));
      }
    }
  }

  /** The journal gives up a live session only for another file or another manifest. */
  lemma LiveSessionIsKept(w: World, s: State, s': State, step: Step)
    requires Inv(w, s) && Next(w, s, s', step) && s.journal.Some? && s.journal.value.session.Some?
    requires s.sessions[s.journal.value.session.value].status == Live
    ensures || (s'.journal.Some? && s'.journal.value.session == s.journal.value.session && s'.journal.value.fp == s.journal.value.fp)
            || step == ForgetStep || (step.StartStep? && step.fp != s.journal.value.fp)
  {
    hide ServerInv, MessagesInv;
  }

  // ---- Nothing is sent twice without need ------------------------------------------------------

  /** What the client skips is what its journal records. */
  ghost predicate SkipsRecorded(s: State) {
    && (s.client.Uploading? || s.client.Stored? ==> s.journal.Some? && s.client.uploaded == s.journal.value.ranges)
    && (s.journal.Some? && s.journal.value.session == None ==> s.journal.value.ranges == {})
  }

  lemma SkipsRecordedNext(w: World, s: State, s': State, step: Step)
    requires Inv(w, s) && SkipsRecorded(s) && Next(w, s, s', step)
    ensures SkipsRecorded(s')
  {
    hide ServerInv, MessagesInv;
  }

  lemma {:induction false} RunSkipsRecorded(w: World, states: seq<State>, steps: seq<Step>, k: nat)
    requires IsRun(w, states, steps) && k < |states|
    ensures Inv(w, states[k]) && SkipsRecorded(states[k])
  {
    RunInv(w, states, steps, k);
    if k > 0 {
      RunSkipsRecorded(w, states, steps, k - 1);
      SkipsRecordedNext(w, states[k - 1], states[k], steps[k - 1]);
    }
  }

  /** A chunk is sent only if the journal does not record it as stored. */
  lemma RecordedIsNotResent(w: World, states: seq<State>, steps: seq<Step>, k: nat)
    requires IsRun(w, states, steps) && k < |steps| && steps[k].SendChunkStep?
    ensures states[k].client.Uploading? && states[k].journal.Some?
    ensures states[k].client.next !in states[k].journal.value.ranges
  {
    RunSkipsRecorded(w, states, steps, k);
    assert Next(w, states[k], states[k + 1], steps[k]);
  }
}
