/** Downloads from a bucket in which the remote file may change at any moment (src/sync/pull.rs:502-563):
    what is published is the whole content of one version. */
module DownloadVersions {
  import opened FileChunks
  import opened LocalTree
  import opened Manifests
  import opened Download
  import opened PullSync
  import opened PullExecutor

  /** Every change of a file raises its revision or its generation. */
  datatype Version = Version(revision: nat, generation: nat)

  /** Which version is current when the n-th call of a download is answered, what each version holds,
      and which versions are complete: a file that is being filled is not. */
  datatype History = History(at: nat -> Version, content: Version -> Bytes, complete: Version -> bool)
  {
    ghost predicate Advances() {
      forall m, n {:trigger at(m), at(n)} :: m <= n ==>
        at(m).revision <= at(n).revision && at(m).generation <= at(n).generation
    }
  }

  /** Every reply shows the version that is current at its call. */
  ghost predicate ShowsCurrent(h: History, infos: InfoServer, server: ChunkServer) {
    && (forall n {:trigger infos(n)} :: infos(n).Some? ==> ShowsVersion(h, h.at(n), infos(n).value))
    && (forall n, index {:trigger server(n, index)} :: server(n, index).Some? && h.complete(h.at(n)) ==>
          exists count :: HonestReply(server(n, index).value, h.content(h.at(n)), index, count))
  }

  ghost predicate ShowsVersion(h: History, v: Version, info: FileInfo) {
    && info.revision == v.revision && info.generation == v.generation
    && (info.filled == info.size ==> h.complete(v) && Fits(info, h.content(v)))
  }

  /** While the version stays the same, an info reply before and one after it are replies about it. */
  ghost predicate Stays(h: History, i: nat, j: nat) {
    forall n {:trigger h.at(n)} :: i <= n <= j ==> h.at(n) == h.at(i)
  }

  /** The replies between two calls, as if there were no others. */
  function Between(server: ChunkServer, i: nat, j: nat): ChunkServer {
    (call: nat, index: nat) => if i < call < j then server(call, index) else None
  }

  lemma BetweenIsHonest(h: History, infos: InfoServer, server: ChunkServer, i: nat, j: nat)
    requires ShowsCurrent(h, infos, server) && Stays(h, i, j) && h.complete(h.at(i))
    ensures Honest(Between(server, i, j), h.content(h.at(i)))
  {
    var between := Between(server, i, j);
    forall call, index | between(call, index).Some?
      ensures exists count :: HonestReply(between(call, index).value, h.content(h.at(i)), index, count)
    {
      assert between(call, index) == server(call, index) && h.at(call) == h.at(i);
    }
  }

  lemma VerifiedBetween(
    server: ChunkServer, sha3: Bytes -> Digest, info: FileInfo, content: Bytes, i: nat, j: nat)
    requires Verified(server, Calls(i + 1, j), sha3, info, content)
    ensures Verified(Between(server, i, j), Calls(i + 1, j), sha3, info, content)
  {
    var calls, between := Calls(i + 1, j), Between(server, i, j);
    var bodies :| Assembled(server, calls, info, bodies, content);
    forall k | 0 <= k < |bodies| ensures Served(between, calls, k, bodies[k]) {
      var call, start :| calls.from <= call < calls.to && InReply(server, k, bodies[k], call, start);
      assert InReply(between, k, bodies[k], call, start);
    }
    assert Assembled(between, calls, info, bodies, content);
  }

  /** The content is that of the version that both info replies describe, which is as planned. */
  ghost predicate OneVersion(
    h: History, infos: InfoServer, sha3: Bytes -> Digest, expected: RemoteEntry, content: Bytes, i: nat, j: nat)
  {
    && i < j && infos(i).Some? && infos(j).Some?
    && var before, after := infos(i).value, infos(j).value;
    && before.revision == after.revision && before.generation == after.generation
    && before.size == after.size && before.filled == after.filled && before.hash == after.hash
    && before.id == expected.id && before.size == before.filled == expected.size == expected.filled
    && before.hash == expected.hash
    && content == h.content(Version(before.revision, before.generation))
    && |content| == expected.size && (expected.hash.Some? ==> expected.hash.value == sha3(content))
  }

  /** Whatever may be published is the whole content of one version of the file, however the file
      changes before, between and after the calls, and whether or not a hash is known. */
  lemma PublishedIsOneVersion(
    h: History, infos: InfoServer, server: ChunkServer, sha3: Bytes -> Digest, expected: RemoteEntry, content: Bytes)
    returns (i: nat, j: nat)
    requires h.Advances() && ShowsCurrent(h, infos, server)
    requires Publishable(server, infos, sha3, expected, content)
    ensures OneVersion(h, infos, sha3, expected, content, i, j)
  {
    i, j :| PublishableBetween(server, infos, sha3, expected, content, i, j);
    var info := infos(i).value;
    assert ShowsVersion(h, h.at(i), info) && ShowsVersion(h, h.at(j), infos(j).value);
    forall n | i <= n <= j ensures h.at(n) == h.at(i) {
    }
    BetweenIsHonest(h, infos, server, i, j);
    VerifiedBetween(server, sha3, info, content, i, j);
    HonestIsExact(Between(server, i, j), Calls(i + 1, j), sha3, info, content, h.content(h.at(i)));
    assert h.at(i) == Version(info.revision, info.generation);
  }

  /** So it is at every moment of a pull: each path whose download has been executed holds one version
      of the file that was planned. */
  lemma PulledIsOneVersion(
    job: PullJob, env: Setting, files: Files, done: set<string>, path: string, h: History)
    returns (i: nat, j: nat)
    requires Published(job, env, files, done) && path in done
    requires job.Plan(path).Some? && Downloads(job.Plan(path).value)
    requires h.Advances() && ShowsCurrent(h, env.sources(path).infos, env.sources(path).chunks)
    ensures path in job.remote.entries && path in files && files[path].Regular?
    ensures OneVersion(h, env.sources(path).infos, job.sha3, job.remote.entries[path], files[path].content, i, j)
  {
    assert PublishedAt(job, env, files, path);
    i, j := PublishedIsOneVersion(h, env.sources(path).infos, env.sources(path).chunks, job.sha3,
                                  job.remote.entries[path], files[path].content);
  }
}
