/** How many chunk calls of one upload are in flight. Each attempt has permits of its own
    (crates/ic-oss/src/bucket.rs:756-770), and the calls of a failed attempt are not aborted, so the
    configured concurrency bounds every attempt but not the upload. */
module UploadConcurrency {
  import opened Collections
  import opened FileChunks
  import opened Manifests
  import opened ChunkUploader

  function Min(a: nat, b: nat): nat {
    if a <= b then a else b
  }

  ghost function Below(n: nat): (numbers: set<nat>)
    ensures |numbers| == n && forall i: nat :: i in numbers <==> i < n
  {
    if n == 0 then {} else Below(n - 1) + {n - 1}
  }

  /** The chunks that an attempt has to send when it is told to skip `excluded`. */
  ghost function Missing(c: Setting, excluded: set<nat>): set<nat> {
    Below(|c.frames|) - excluded
  }

  // ---- Upper bounds ----------------------------------------------------------------------------

  /** Calls of one attempt are for different chunks. */
  lemma CallsWithin(c: Setting, s: State, a: nat, chunks: set<nat>)
    requires CallsInv(c, s) && forall call :: call in CallsOf(s, a) ==> call.index in chunks
    ensures |CallsOf(s, a)| <= Min(c.limit, |chunks|)
  {
    InjectiveSize(CallsOf(s, a), a);
    SubsetSize(set call | call in CallsOf(s, a) :: call.index, chunks);
  }

  ghost function CallsUpTo(s: State, a: nat): set<Call> {
    set call | call in s.calls && call.attempt <= a
  }

  lemma UnionSize(a: set<Call>, b: set<Call>)
    ensures |a + b| <= |a| + |b|
  {
    assert a + b == a + (b - a);
    SubsetSize(b - a, b);
  }

  lemma OneMoreAttempt(peak: nat, a: nat)
    ensures peak * a + peak == peak * (a + 1)
  {
  }

  lemma {:induction false} SumOfAttempts(c: Setting, s: State, a: nat)
    requires CallsInv(c, s)
    ensures |CallsUpTo(s, a)| <= Min(c.limit, |c.frames|) * a
  {
    if a == 0 {
      assert CallsUpTo(s, 0) == {};
    } else {
      SumOfAttempts(c, s, a - 1);
      CallsWithin(c, s, a, Below(|c.frames|));
      OneMoreAttempt(Min(c.limit, |c.frames|), a - 1);
      hide CallsInv, Min;
      assert CallsUpTo(s, a) == CallsUpTo(s, a - 1) + CallsOf(s, a);
      UnionSize(CallsUpTo(s, a - 1), CallsOf(s, a));
    }
  }

  /** In every interleaving, each attempt has at most as many calls in flight as the configured
      concurrency, also counting what is left of it after it has failed. Over all attempts the bound
      is as many times that. */
  lemma CallsAreBounded(c: Setting, given: Option<nat>, states: seq<State>, steps: seq<Step>, k: nat)
    requires IsRun(c, given, states, steps) && k < |states|
    ensures forall a :: |CallsOf(states[k], a)| <= Min(c.limit, |c.frames|)
    ensures |states[k].calls| <= Min(c.limit, |c.frames|) * states[k].attempt
    ensures states[k].attempt <= c.retry + 1
  {
    RunInv(c, given, states, steps, k);
    var s := states[k];
    forall a ensures |CallsOf(s, a)| <= Min(c.limit, |c.frames|) {
      CallsWithin(c, s, a, Below(|c.frames|));
    }
    SumOfAttempts(c, s, s.attempt);
    assert CallsUpTo(s, s.attempt) == s.calls;
  }

  // ---- Steps put together ----------------------------------------------------------------------

  ghost predicate PathBetween(c: Setting, s: State, t: State, states: seq<State>, steps: seq<Step>) {
    IsPath(c, states, steps) && states[0] == s && states[|steps|] == t
  }

  ghost predicate Leads(c: Setting, s: State, t: State) {
    exists states, steps :: PathBetween(c, s, t, states, steps)
  }

  lemma LeadsHere(c: Setting, s: State)
    ensures Leads(c, s, s)
  {
    assert PathBetween(c, s, s, [s], []);
  }

  lemma LeadsOn(c: Setting, s: State, t: State, u: State, step: Step)
    requires Leads(c, s, t) && Next(c, t, u, step)
    ensures Leads(c, s, u)
  {
    var states, steps :| PathBetween(c, s, t, states, steps);
    var states', steps' := states + [u], steps + [step];
    forall k | 0 <= k < |steps'| ensures StepAt(c, states', steps', k) {
      if k < |steps| {
        assert StepAt(c, states, steps, k);
      }
    }
    assert PathBetween(c, s, u, states', steps');
  }

  /** A property of the first state that every step keeps holds along the way. */
  lemma {:induction false} PathKeeps(c: Setting, inv: State -> bool, states: seq<State>, steps: seq<Step>, k: nat)
    requires IsPath(c, states, steps) && k < |states| && inv(states[0])
    requires forall s, t, step {:trigger Next(c, s, t, step)} :: inv(s) && Next(c, s, t, step) ==> inv(t)
    ensures inv(states[k])
  {
    if k > 0 {
      PathKeeps(c, inv, states, steps, k - 1);
      assert StepAt(c, states, steps, k - 1);
    }
  }

  // ---- An attempt that keeps all its calls in flight --------------------------------------------

  /** An attempt that has just been started. */
  ghost predicate Begins(s: State) {
    && s.phase == Active && s.loop == AtPermit && s.next == 0 && s.tasks == map[] && s.channel == []
    && forall call :: call in s.calls ==> call.attempt < s.attempt
  }

  ghost function SentBy(s: State, j: nat): set<nat> {
    Below(j) - s.excluded
  }

  ghost function CallsFor(a: nat, chunks: set<nat>): set<Call> {
    set i | i in chunks :: Call(a, i)
  }

  ghost function AllRunning(chunks: set<nat>): map<nat, Task> {
    map i | i in chunks :: Running
  }

  lemma OneMoreSent(s: State, j: nat)
    ensures SentBy(s, j + 1) == if j in s.excluded then SentBy(s, j) else SentBy(s, j) + {j}
    ensures CallsFor(s.attempt, SentBy(s, j) + {j}) == CallsFor(s.attempt, SentBy(s, j)) + {Call(s.attempt, j)}
    ensures AllRunning(SentBy(s, j) + {j}) == AllRunning(SentBy(s, j))[j := Running]
  {
  }

  function HashedAfter(c: Setting, s: State, j: nat): Bytes
    requires j <= |c.frames|
  {
    if s.given.Some? then s.hashed else s.hashed + Concat(c.frames[..j])
  }

  lemma OneMoreHashed(c: Setting, s: State, j: nat)
    requires j < |c.frames|
    ensures HashedAfter(c, s, j + 1) == if s.given.Some? then HashedAfter(c, s, j) else HashedAfter(c, s, j) + c.frames[j]
  {
    assert c.frames[..j + 1][..j] == c.frames[..j];
    assert s.hashed + (Concat(c.frames[..j]) + c.frames[j]) == s.hashed + Concat(c.frames[..j]) + c.frames[j];
  }

  /** The attempt after `j` frames if no call has ended yet. */
  ghost function After(c: Setting, s: State, j: nat): State
    requires j <= |c.frames|
  {
    s.(next := j,
       hashed := HashedAfter(c, s, j),
       tasks := AllRunning(SentBy(s, j)),
       calls := s.calls + CallsFor(s.attempt, SentBy(s, j)),
       sent := s.sent + SentBy(s, j))
  }

  lemma AfterNothing(c: Setting, s: State)
    requires Begins(s)
    ensures After(c, s, 0) == s
  {
    assert SentBy(s, 0) == {};
    assert c.frames[..0] == [];
    assert CallsFor(s.attempt, {}) == {};
    assert AllRunning({}) == s.tasks;
  }

  lemma FrameRead(c: Setting, s: State, j: nat)
    requires Begins(s) && j < |c.frames|
    ensures j in s.excluded ==> After(c, s, j + 1) == After(c, s, j).(next := j + 1, hashed := Hashed(c, After(c, s, j)))
    ensures j !in s.excluded ==>
              After(c, s, j + 1) == After(c, s, j).(next := j + 1, hashed := Hashed(c, After(c, s, j)),
                                                    tasks := After(c, s, j).tasks[j := Running],
                                                    calls := After(c, s, j).calls + {Call(s.attempt, j)},
                                                    sent := After(c, s, j).sent + {j})
  {
    OneMoreHashed(c, s, j);
    OneMoreSent(s, j);
    hide HashedAfter, SentBy, CallsFor, AllRunning;
    assert s.calls + (CallsFor(s.attempt, SentBy(s, j)) + {Call(s.attempt, j)})
           == s.calls + CallsFor(s.attempt, SentBy(s, j)) + {Call(s.attempt, j)};
    assert s.sent + (SentBy(s, j) + {j}) == s.sent + SentBy(s, j) + {j};
  }

  lemma ReadFrame(c: Setting, s: State, j: nat) returns (held: State, step: Step)
    requires Begins(s) && j < |c.frames| && |SentBy(s, j)| < c.limit
    ensures Next(c, After(c, s, j), held, AcquireStep) && Next(c, held, After(c, s, j + 1), step)
  {
    var t := After(c, s, j);
    assert Holders(t.tasks) == SentBy(s, j);
    held := t.(loop := Holding);
    step := if j in s.excluded then SkipFrameStep else SpawnTaskStep;
    FrameRead(c, s, j);
    hide After;
  }

  lemma ReadOneMore(c: Setting, s: State, j: nat)
    requires Begins(s) && j < |c.frames| && |SentBy(s, j)| < c.limit && Leads(c, s, After(c, s, j))
    ensures Leads(c, s, After(c, s, j + 1)) && |SentBy(s, j + 1)| <= c.limit
  {
    hide Leads, Next, After, SentBy;
    var held, step := ReadFrame(c, s, j);
    LeadsOn(c, s, After(c, s, j), held, AcquireStep);
    LeadsOn(c, s, held, After(c, s, j + 1), step);
    OneMoreSent(s, j);
    AddedSize(SentBy(s, j), j);
  }

  lemma SentSize(c: Setting, s: State, n: nat)
    requires n <= |c.frames| && |SentBy(s, n)| <= c.limit
    requires n < |c.frames| ==> |SentBy(s, n)| == c.limit
    ensures |SentBy(s, n)| == Min(c.limit, |Missing(c, s.excluded)|)
  {
    SubsetSize(SentBy(s, n), Missing(c, s.excluded));
  }

  /** Until the permits or the frames run out. */
  lemma {:induction false} ReadOn(c: Setting, s: State, j: nat) returns (n: nat)
    requires Begins(s) && j <= |c.frames| && |SentBy(s, j)| <= c.limit && Leads(c, s, After(c, s, j))
    ensures n <= |c.frames| && Leads(c, s, After(c, s, n))
    ensures |SentBy(s, n)| == Min(c.limit, |Missing(c, s.excluded)|)
    decreases |c.frames| - j
  {
    hide Begins, Leads, After, SentBy, Missing;
    if j < |c.frames| && |SentBy(s, j)| < c.limit {
      ReadOneMore(c, s, j);
      n := ReadOn(c, s, j + 1);
    } else {
      SentSize(c, s, j);
      n := j;
    }
  }

  lemma CallsAdded(s: State, chunks: set<nat>)
    requires forall call :: call in s.calls ==> call.attempt < s.attempt
    ensures |s.calls + CallsFor(s.attempt, chunks)| == |s.calls| + |chunks|
  {
    var added := CallsFor(s.attempt, chunks);
    InjectiveSize(added, s.attempt);
    assert (set call | call in added :: call.index) == chunks by {
      forall i | i in chunks ensures i in set call | call in added :: call.index {
        assert Call(s.attempt, i) in added;
      }
    }
    assert s.calls !! added;
  }

  /** From its start an attempt can get to have as many calls in flight, besides those that earlier
      attempts have left behind, as it has permits and chunks to send. */
  lemma FullAttempt(c: Setting, s: State) returns (t: State)
    requires Begins(s)
    ensures Leads(c, s, t) && |t.calls| == |s.calls| + Min(c.limit, |Missing(c, s.excluded)|)
    ensures t.phase == Active && t.loop == AtPermit && t.attempt == s.attempt && t.uploaded == s.uploaded
    ensures forall call :: call in t.calls ==> call.attempt <= s.attempt
  {
    AfterNothing(c, s);
    LeadsHere(c, s);
    assert SentBy(s, 0) == {};
    var n := ReadOn(c, s, 0);
    t := After(c, s, n);
    CallsAdded(s, SentBy(s, n));
  }

  lemma RetryBegins(c: Setting, s: State)
    requires s.phase == Failed && s.attempt <= c.retry
    requires forall call :: call in s.calls ==> call.attempt <= s.attempt
    ensures Next(c, s, Started(s), RetryStep) && Begins(Started(s))
  {
  }

  // ---- What a retry adds -----------------------------------------------------------------------

  /** From a failed attempt to the end of the next one. */
  ghost predicate SinceFailure(s: State, t: State) {
    && s.attempt <= t.attempt
    && (t.attempt == s.attempt ==> t.phase == Failed && t.uploaded == s.uploaded && t.calls <= s.calls)
    && (t.attempt == s.attempt + 1 ==>
          t.excluded == s.uploaded && forall call :: call in t.calls && call.attempt != t.attempt ==> call in s.calls)
  }

  lemma SinceFailureNext(c: Setting, s: State, t: State, u: State, step: Step)
    requires SinceFailure(s, t) && Next(c, t, u, step)
    ensures SinceFailure(s, u)
  {
  }

  lemma NextAttemptIsBounded(c: Setting, s: State, given: Option<nat>, t: State)
    requires Inv(c, s, given) && s.phase == Failed && Leads(c, s, t) && t.attempt == s.attempt + 1
    ensures |t.calls| <= |s.calls| + Min(c.limit, |Missing(c, s.uploaded)|)
  {
    var states, steps :| PathBetween(c, s, t, states, steps);
    var inv := (u: State) => Inv(c, u, given) && SinceFailure(s, u);
    forall u, v, step {:trigger Next(c, u, v, step)} | inv(u) && Next(c, u, v, step) ensures inv(v) {
      InvNext(c, u, v, given, step);
      SinceFailureNext(c, s, u, v, step);
    }
    PathKeeps(c, inv, states, steps, |steps|);
    assert inv(t);
    CallsWithin(c, t, t.attempt, Missing(c, s.uploaded));
    SubsetSize(t.calls, s.calls + CallsOf(t, t.attempt));
  }

  /** The configured concurrency survives a retry if and only if what the failed attempts have left
      running and what the next attempt may start fit below it together. With enough chunks left to
      send this means that no call is left running. */
  lemma RetryKeepsLimitIff(c: Setting, s: State, given: Option<nat>)
    requires Inv(c, s, given) && s.phase == Failed && s.attempt <= c.retry
    ensures (forall t :: Leads(c, s, t) && t.attempt == s.attempt + 1 ==> |t.calls| <= c.limit)
            <==> |s.calls| + Min(c.limit, |Missing(c, s.uploaded)|) <= c.limit
    ensures |Missing(c, s.uploaded)| >= c.limit ==>
              (|s.calls| + Min(c.limit, |Missing(c, s.uploaded)|) <= c.limit <==> s.calls == {})
  {
    forall t | Leads(c, s, t) && t.attempt == s.attempt + 1
      ensures |t.calls| <= |s.calls| + Min(c.limit, |Missing(c, s.uploaded)|)
    {
      NextAttemptIsBounded(c, s, given, t);
    }
    RetryBegins(c, s);
    var full := FullAttempt(c, Started(s));
    LeadsHere(c, s);
    LeadsOn(c, s, s, Started(s), RetryStep);
    LeadsFurther(c, s, Started(s), full);
  }

  lemma LeadsFurther(c: Setting, s: State, t: State, u: State)
    requires Leads(c, s, t) && Leads(c, t, u)
    ensures Leads(c, s, u)
  {
    var states, steps :| PathBetween(c, t, u, states, steps);
    var inv := (v: State) => Leads(c, s, v);
    forall v, w, step {:trigger Next(c, v, w, step)} | inv(v) && Next(c, v, w, step) ensures inv(w) {
      LeadsOn(c, s, v, w, step);
    }
    PathKeeps(c, inv, states, steps, |steps|);
    assert inv(u);
  }

  // ---- The bound is reached ---------------------------------------------------------------------

  ghost predicate Reached(c: Setting, given: Option<nat>, t: State) {
    exists s :: Init(c, s, given) && Leads(c, s, t)
  }

  /** The access token is lost with every call in flight, and the upload is retried. */
  lemma LoseAndRetry(c: Setting, s: State, before: State) returns (next: State)
    requires Leads(c, s, before) && before.phase == Active && before.loop == AtPermit && before.attempt <= c.retry
    requires forall call :: call in before.calls ==> call.attempt <= before.attempt
    ensures Leads(c, s, next) && Begins(next)
    ensures next.attempt == before.attempt + 1 && next.calls == before.calls
    ensures next.excluded == next.uploaded == before.uploaded
  {
    var ended := before.(loop := EndedErr);
    var failed := ended.(phase := Failed, tasks := map[]);
    next := Started(failed);
    RetryBegins(c, failed);
    assert Next(c, before, ended, LoopFailsStep) && Next(c, ended, failed, AttemptFailsStep);
    hide Leads, Next;
    LeadsOn(c, s, before, ended, LoopFailsStep);
    LeadsOn(c, s, ended, failed, AttemptFailsStep);
    LeadsOn(c, s, failed, next, RetryStep);
  }

  /** `n` attempts that all lose their access token with every call in flight. */
  lemma {:induction false} FullAttempts(c: Setting, given: Option<nat>, n: nat) returns (t: State)
    requires c.retry <= MAX_UPLOAD_RETRIES && 1 <= n <= c.retry + 1
    ensures Reached(c, given, t) && |t.calls| == Min(c.limit, |c.frames|) * n
    ensures t.phase == Active && t.loop == AtPermit && t.attempt == n && t.uploaded == {}
    ensures forall call :: call in t.calls ==> call.attempt <= n
  {
    hide Leads, Begins, Min;
    assert Missing(c, {}) == Below(|c.frames|);
    if n == 1 {
      var first := State(1, {}, given, 0, [], AtPermit, map[], {}, [], Receiving, Active, {}, {}, map[], {});
      FirstBegins(c, first, given);
      t := FullAttempt(c, first);
    } else {
      var before := FullAttempts(c, given, n - 1);
      var s :| Init(c, s, given) && Leads(c, s, before);
      var next := LoseAndRetry(c, s, before);
      t := FullAttempt(c, next);
      LeadsFurther(c, s, next, t);
      OneMoreAttempt(Min(c.limit, |c.frames|), n - 1);
    }
  }

  lemma FirstBegins(c: Setting, s: State, given: Option<nat>)
    requires Init(c, s, given)
    ensures Begins(s)
  {
  }

  /** The number of calls in flight never exceeds the configured concurrency, whatever happens, if and
      only if all attempts together fit below it: with at least as many chunks as permits, and a
      permit, only if there are no retries. */
  lemma LimitHoldsIff(c: Setting, given: Option<nat>)
    requires c.retry <= MAX_UPLOAD_RETRIES
    ensures (forall t :: Reached(c, given, t) ==> |t.calls| <= c.limit)
            <==> Min(c.limit, |c.frames|) * (c.retry + 1) <= c.limit
  {
    forall t | Reached(c, given, t) ensures |t.calls| <= Min(c.limit, |c.frames|) * (c.retry + 1) {
      var s :| Init(c, s, given) && Leads(c, s, t);
      var states, steps :| PathBetween(c, s, t, states, steps);
      CallsAreBounded(c, given, states, steps, |steps|);
      MoreAttempts(Min(c.limit, |c.frames|), t.attempt, c.retry + 1);
    }
    var full := FullAttempts(c, given, c.retry + 1);
  }

  lemma MoreAttempts(peak: nat, a: nat, b: nat)
    requires a <= b
    ensures peak * a <= peak * b
  {
  }
}
