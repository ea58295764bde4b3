/**
 * Cloud-function bundles in the backend store: the lookup of the latest
 * deployed version, the single-slot cache in front of it, and the chunked,
 * strictly sequential upload of a new bundle.
 *
 * The network is replaced by inputs: what a lookup settles to is a
 * `LookupReply`, what each upload settles to is given by `respond`, and the
 * clock readings are parameters. Requests that go out are recorded.
 */
module FunctionDeploy {
  import opened Wrappers
  import opened ParseServer

  /** REST path of the class that holds deployed bundles. */
  const ClassUrl := "/classes/Ndl_CF"
  /** Query of the latest-version lookup: one row, newest first, version field only. */
  const LatestVersionQuery := "?limit=1&order=-createdAt&keys=version"
  /** How long a looked-up version is served from the cache, in milliseconds. */
  const CacheTtl: int := 15 * 1000
  /** Largest chunk handed to one upload. */
  const ChunkBound: nat := 100 * 1024
  /** Text put in front of the deployed data before it is chunked. */
  const ExportPrefix := "const _exportedComponents = "

  datatype CFVersion = CFVersion(functionVersion: string)

  // ---------------------------------------------------------------------------
  // fetchLatestVersion

  datatype LookupRequest = LookupRequest(url: string, headers: Headers)

  /** One row of the lookup's `results`: only the projected `version` field. */
  datatype VersionRow = VersionRow(version: string)

  /**
   * What the lookup settles to: a response whose status is or is not a success
   * (`ok`) with a body whose `results` may be absent, or a rejection (the
   * request or the reading of its JSON body failed).
   */
  datatype LookupReply =
    | Reply(ok: bool, results: Option<seq<VersionRow>>)
    | LookupFailed

  datatype LookupError = LookupRejected

  /** The GET request of the latest-version lookup. */
  function LatestVersionRequest(server: NoodlServer): LookupRequest {
    LookupRequest(server.options.serverURL + ClassUrl + LatestVersionQuery, MasterKeyHeaders(server.options))
  }

  /**
   * The decision `fetchLatestVersion` takes on the reply: a version exactly
   * when the status is a success and `results` holds exactly one row, and then
   * that row's version; nothing otherwise. A rejection propagates.
   */
  function FetchLatestVersion(reply: LookupReply): (r: Result<Option<CFVersion>, LookupError>)
    ensures r.Failure? <==> reply.LookupFailed?
    ensures r.Success? && r.value.Some? <==>
              reply.Reply? && reply.ok && reply.results.Some? && |reply.results.value| == 1
    ensures r.Success? && r.value.Some? ==> r.value.value.functionVersion == reply.results.value[0].version
  {
    match reply
    case LookupFailed => Failure(LookupRejected)
    case Reply(ok, results) =>
      if !ok then Success(None)
      else if results.Some? && |results.value| == 1 then Success(Some(CFVersion(results.value[0].version)))
      else Success(None)
  }

  // ---------------------------------------------------------------------------
  // getLatestVersion and _latestVersionCache

  /** The cached version and the time (milliseconds) until which it is served. */
  datatype CacheEntry = CacheEntry(functionVersion: string, ttl: int)

  /** A call made at `now` is answered from the slot, without a lookup. */
  predicate IsHit(slot: Option<CacheEntry>, now: int) {
    slot.Some? && slot.value.ttl > now
  }

  /** The slot after one call, what the call returned, and whether it looked the version up. */
  datatype CacheStep = CacheStep(slot: Option<CacheEntry>, returned: Result<Option<CacheEntry>, LookupError>, lookedUp: bool)

  /**
   * One call of `getLatestVersion` on `slot`, made at `now`; when it looks the
   * version up, the lookup settles to `reply` at time `resolvedAt`.
   */
  function GetLatestVersionStep(slot: Option<CacheEntry>, now: int, reply: LookupReply, resolvedAt: int): (s: CacheStep)
    // a hit answers from the slot and changes nothing
    ensures IsHit(slot, now) ==> s.returned == Success(slot) && s.slot == slot && !s.lookedUp
    // an entry whose ttl is not after `now` is a miss: exactly one lookup
    ensures !IsHit(slot, now) ==> s.lookedUp
    // a miss installs an entry exactly when the lookup found one version, replacing the old one
    ensures !IsHit(slot, now) ==>
              (s.slot.Some? <==> reply.Reply? && reply.ok && reply.results.Some? && |reply.results.value| == 1)
    ensures !IsHit(slot, now) && s.slot.Some? ==>
              s.slot.value == CacheEntry(reply.results.value[0].version, resolvedAt + CacheTtl) && s.returned == Success(s.slot)
    // otherwise the slot stays empty and the call yields undefined, or the rejection
    ensures !IsHit(slot, now) && s.slot.None? ==>
              s.returned == if reply.LookupFailed? then Failure(LookupRejected) else Success(None)
  {
    if IsHit(slot, now) then CacheStep(slot, Success(slot), false)
    else
      match FetchLatestVersion(reply)
      case Failure(e) => CacheStep(None, Failure(e), true)
      case Success(None) => CacheStep(None, Success(None), true)
      case Success(Some(v)) =>
        var entry := Some(CacheEntry(v.functionVersion, resolvedAt + CacheTtl));
        CacheStep(entry, Success(entry), true)
  }

  /** The process-wide version cache: one slot, and the lookups it has issued. */
  class VersionCache {
    var slot: Option<CacheEntry>
    ghost var lookups: seq<LookupRequest>

    constructor ()
      ensures slot == None && lookups == []
    {
      slot := None;
      lookups := [];
    }

    /**
     * `getLatestVersion`. `now` is the clock when the call starts; `reply` and
     * `resolvedAt` are what the lookup settles to, and when, if one is made.
     */
    method GetLatestVersion(server: NoodlServer, now: int, reply: LookupReply, resolvedAt: int)
      returns (r: Result<Option<CacheEntry>, LookupError>)
      modifies this
      ensures var step := GetLatestVersionStep(old(slot), now, reply, resolvedAt);
              slot == step.slot && r == step.returned &&
              lookups == old(lookups) + if step.lookedUp then [LatestVersionRequest(server)] else []
    {
      if slot.Some? && slot.value.ttl > now {
        return Success(slot);
      }
      slot := None;
      lookups := lookups + [LatestVersionRequest(server)];
      var latest := FetchLatestVersion(reply);
      match latest
      case Failure(e) =>
        r := Failure(e);
      case Success(found) =>
        if found.Some? {
          slot := Some(CacheEntry(found.value.functionVersion, resolvedAt + CacheTtl));
          r := Success(slot);
        } else {
          r := Success(None);
        }
    }
  }

  /** One call in a run of calls on the cache. */
  datatype Call = Call(now: int, reply: LookupReply, resolvedAt: int)

  /** The slot after a run of calls, what each call returned, and how many lookups were made. */
  datatype CacheRun = CacheRun(slot: Option<CacheEntry>, returned: seq<Result<Option<CacheEntry>, LookupError>>, lookups: nat)

  function RunCalls(slot: Option<CacheEntry>, calls: seq<Call>): (run: CacheRun)
    decreases |calls|
    ensures |run.returned| == |calls| && run.lookups <= |calls|
  {
    if calls == [] then CacheRun(slot, [], 0)
    else
      var step := GetLatestVersionStep(slot, calls[0].now, calls[0].reply, calls[0].resolvedAt);
      var rest := RunCalls(step.slot, calls[1..]);
      CacheRun(rest.slot, [step.returned] + rest.returned, (if step.lookedUp then 1 else 0) + rest.lookups)
  }

  /** Every call made before an entry's ttl is answered by that entry, and none of them looks up. */
  lemma {:induction false} HitsWithinTtl(entry: CacheEntry, calls: seq<Call>)
    requires forall i :: 0 <= i < |calls| ==> calls[i].now < entry.ttl
    ensures var run := RunCalls(Some(entry), calls);
            run.slot == Some(entry) && run.lookups == 0 &&
            forall i :: 0 <= i < |run.returned| ==> run.returned[i] == Success(Some(entry))
  {
    if calls != [] {
      HitsWithinTtl(entry, calls[1..]);
      var rest := RunCalls(Some(entry), calls[1..]);
      var run := RunCalls(Some(entry), calls);
      assert run.returned == [Success(Some(entry))] + rest.returned;
    }
  }

  /**
   * A miss that finds no version leaves the slot empty, so the next call,
   * whenever it is made, looks the version up again and behaves exactly as a
   * call on a fresh cache.
   */
  lemma FailureDoesNotPoison(slot: Option<CacheEntry>, first: Call, next: Call)
    requires !IsHit(slot, first.now)
    requires !(FetchLatestVersion(first.reply).Success? && FetchLatestVersion(first.reply).value.Some?)
    ensures var s1 := GetLatestVersionStep(slot, first.now, first.reply, first.resolvedAt);
            var s2 := GetLatestVersionStep(s1.slot, next.now, next.reply, next.resolvedAt);
            s1.slot == None && s2.lookedUp && s2 == GetLatestVersionStep(None, next.now, next.reply, next.resolvedAt)
  {
  }

  /**
   * A lookup that finds version `v` at time `t`, a second call 5 s later and a
   * third once the 15 s have run out: the first two return the same entry and
   * share one lookup, the third looks up again.
   */
  lemma TtlScenario(v: string, t: int, second: Call, third: Call)
    requires second.now == t + 5000 && third.now == t + CacheTtl
    ensures var run := RunCalls(None, [Call(t, Reply(true, Some([VersionRow(v)])), t), second, third]);
            run.returned[0] == run.returned[1] == Success(Some(CacheEntry(v, t + CacheTtl))) &&
            run.lookups == 2
  {
    var calls := [Call(t, Reply(true, Some([VersionRow(v)])), t), second, third];
    var entry := Some(CacheEntry(v, t + CacheTtl));
    assert calls[1..] == [second, third];
    assert calls[1..][1..] == [third];
    var s3run := RunCalls(entry, [third]);
    assert s3run.lookups == 1;
  }

  // ---------------------------------------------------------------------------
  // deployFunctions

  /** One ACL entry. */
  datatype Permission = Permission(read: bool, write: bool)

  /** Every uploaded record is closed to everyone; only the master key can reach it. */
  const DenyAll: map<string, Permission> := map["*" := Permission(false, false)]

  /** The JSON body of one upload. */
  datatype DeployRecord = DeployRecord(code: string, version: string, runtime: string, acl: map<string, Permission>)

  /** One POST to the bundles class. */
  datatype UploadRequest = UploadRequest(url: string, headers: Headers, body: DeployRecord)

  /** What one awaited POST settles to: a response with any status, or a rejection. */
  datatype UploadOutcome = Responded(status: int) | UploadFailed

  /** The upload of chunk `chunk` was rejected; the deploy stops there. */
  datatype DeployError = UploadRejected(chunk: nat)

  /** What a finished deploy returns. */
  datatype Deployed = Deployed(version: string)

  /** The upload of one chunk. */
  function Upload(server: NoodlServer, runtime: string, version: string, chunk: string): UploadRequest {
    UploadRequest(server.options.serverURL + ClassUrl, MasterKeyHeaders(server.options),
                  DeployRecord(chunk, version, runtime, DenyAll))
  }

  /** The uploads of `chunks`, in order. */
  function Uploads(server: NoodlServer, runtime: string, version: string, chunks: seq<string>): (ps: seq<UploadRequest>)
    ensures |ps| == |chunks|
  {
    if chunks == [] then []
    else Uploads(server, runtime, version, chunks[..|chunks| - 1]) + [Upload(server, runtime, version, chunks[|chunks| - 1])]
  }

  /**
   * Where the upload loop, started at chunk `i` of `n`, stops: at the first
   * upload that is rejected, or at `n` when none is.
   */
  function StopAt(i: nat, n: nat, respond: nat -> UploadOutcome): (k: nat)
    requires i <= n
    decreases n - i
    ensures i <= k <= n
    ensures forall j :: i <= j < k ==> !respond(j).UploadFailed?
    ensures k < n ==> respond(k).UploadFailed?
  {
    if i == n then n
    else if respond(i).UploadFailed? then i
    else StopAt(i + 1, n, respond)
  }

  /** The uploads a deploy issues, in issue order, and what it returns. */
  datatype DeployRun = DeployRun(posts: seq<UploadRequest>, result: Result<Deployed, DeployError>)

  /**
   * `deployFunctions` with version `version`, chunker `chunkString` and upload
   * outcomes `respond`: the deploy succeeds exactly when no upload is rejected,
   * and then it has uploaded every chunk and returns its version; otherwise it
   * has uploaded the chunks up to and including the first rejected one.
   */
  function Deployment(server: NoodlServer, runtime: string, data: string, version: string,
                      chunkString: (string, nat) -> seq<string>, respond: nat -> UploadOutcome): (run: DeployRun)
    ensures var chunks := chunkString(ExportPrefix + data, ChunkBound);
            (run.result.Success? <==> forall j :: 0 <= j < |chunks| ==> !respond(j).UploadFailed?) &&
            (run.result.Success? ==>
               run.result.value.version == version && run.posts == Uploads(server, runtime, version, chunks)) &&
            (run.result.Failure? ==>
               var k := run.result.error.chunk;
               k < |chunks| && respond(k).UploadFailed? &&
               (forall j :: 0 <= j < k ==> !respond(j).UploadFailed?) &&
               run.posts == Uploads(server, runtime, version, chunks[..k + 1]))
  {
    var chunks := chunkString(ExportPrefix + data, ChunkBound);
    var k := StopAt(0, |chunks|, respond);
    if k == |chunks| then DeployRun(Uploads(server, runtime, version, chunks), Success(Deployed(version)))
    else DeployRun(Uploads(server, runtime, version, chunks[..k + 1]), Failure(UploadRejected(k)))
  }

  /** The backend as this process sees it: the POSTs issued to it, in issue order. */
  class Backend {
    var posts: seq<UploadRequest>

    constructor ()
      ensures posts == []
    {
      posts := [];
    }

    method Post(request: UploadRequest)
      modifies this
      ensures posts == old(posts) + [request]
    {
      posts := posts + [request];
    }
  }

  /**
   * `deployFunctions`: `version` is the fresh random version, `chunkString`
   * the chunker, `respond(i)` what the i-th awaited POST settles to.
   */
  method DeployFunctions(backend: Backend, server: NoodlServer, runtime: string, data: string, version: string,
                         chunkString: (string, nat) -> seq<string>, respond: nat -> UploadOutcome)
    returns (r: Result<Deployed, DeployError>)
    modifies backend
    ensures var run := Deployment(server, runtime, data, version, chunkString, respond);
            backend.posts == old(backend.posts) + run.posts && r == run.result
  {
    var deploy := ExportPrefix + data;
    var chunks := chunkString(deploy, ChunkBound);
    var i := 0;
    while i < |chunks|
      invariant 0 <= i <= |chunks|
      invariant StopAt(i, |chunks|, respond) == StopAt(0, |chunks|, respond)
      invariant backend.posts == old(backend.posts) + Uploads(server, runtime, version, chunks[..i])
    {
      backend.Post(Upload(server, runtime, version, chunks[i]));
      assert chunks[..i + 1][..i] == chunks[..i];
      if respond(i).UploadFailed? {
        return Failure(UploadRejected(i));
      }
      i := i + 1;
    }
    assert chunks[..i] == chunks;
    return Success(Deployed(version));
  }

  /** The i-th upload carries the i-th chunk: one upload per chunk, in index order. */
  lemma {:induction false} UploadsAt(server: NoodlServer, runtime: string, version: string, chunks: seq<string>, i: nat)
    requires i < |chunks|
    ensures Uploads(server, runtime, version, chunks)[i] == Upload(server, runtime, version, chunks[i])
  {
    var init := chunks[..|chunks| - 1];
    if i < |init| {
      UploadsAt(server, runtime, version, init, i);
    }
  }

  /**
   * Every upload goes to the bundles class with the master-key headers, and
   * carries the one version, the one runtime and the deny-all ACL.
   */
  lemma UploadsUniformlyTagged(server: NoodlServer, runtime: string, version: string, chunks: seq<string>)
    ensures forall p :: p in Uploads(server, runtime, version, chunks) ==>
              p.url == server.options.serverURL + ClassUrl && p.headers == MasterKeyHeaders(server.options) &&
              p.body.version == version && p.body.runtime == runtime && p.body.acl == DenyAll
  {
    var ps := Uploads(server, runtime, version, chunks);
    forall p | p in ps
      ensures p.url == server.options.serverURL + ClassUrl && p.headers == MasterKeyHeaders(server.options) &&
              p.body.version == version && p.body.runtime == runtime && p.body.acl == DenyAll
    {
      var i :| 0 <= i < |ps| && ps[i] == p;
      UploadsAt(server, runtime, version, chunks, i);
    }
  }

  /** The chunks joined in order. */
  function Concat(chunks: seq<string>): string {
    if chunks == [] then [] else Concat(chunks[..|chunks| - 1]) + chunks[|chunks| - 1]
  }

  /** What the chunker is expected to do: the chunks join back to `s`, and none is longer than `bound`. */
  predicate IsChunking(chunks: seq<string>, s: string, bound: nat) {
    Concat(chunks) == s && forall c :: c in chunks ==> |c| <= bound
  }

  /** The code obtained by joining the `code` of issued POST bodies in issue order. */
  function Reassembled(posts: seq<UploadRequest>): string {
    if posts == [] then [] else Reassembled(posts[..|posts| - 1]) + posts[|posts| - 1].body.code
  }

  lemma {:induction false} ReassembledUploads(server: NoodlServer, runtime: string, version: string, chunks: seq<string>)
    ensures Reassembled(Uploads(server, runtime, version, chunks)) == Concat(chunks)
  {
    if chunks != [] {
      var init := chunks[..|chunks| - 1];
      ReassembledUploads(server, runtime, version, init);
      var us := Uploads(server, runtime, version, init);
      var u := Upload(server, runtime, version, chunks[|chunks| - 1]);
      assert (us + [u])[..|us|] == us;
    }
  }

  /** A string cut into chunks of at most `bound` needs at least |s| / bound of them. */
  lemma {:induction false} ChunkCount(chunks: seq<string>, s: string, bound: nat)
    requires IsChunking(chunks, s, bound)
    ensures |s| <= |chunks| * bound
  {
    if chunks != [] {
      var init, last := chunks[..|chunks| - 1], chunks[|chunks| - 1];
      assert chunks == init + [last];
      assert forall c :: c in init ==> c in chunks;
      ChunkCount(init, Concat(init), bound);
      assert |s| == |Concat(init)| + |last|;
      assert |last| <= bound;
      MulSucc(|init|, bound);
    }
  }

  lemma MulSucc(n: nat, b: nat)
    ensures (n + 1) * b == n * b + b
  {
  }

  /**
   * Every upload of a deploy, finished or not, carries the deploy's version,
   * runtime and deny-all ACL; a finished deploy returns that version.
   */
  lemma DeployTagsEveryUpload(server: NoodlServer, runtime: string, data: string, version: string,
                              chunkString: (string, nat) -> seq<string>, respond: nat -> UploadOutcome)
    ensures var run := Deployment(server, runtime, data, version, chunkString, respond);
            (run.result.Success? ==> run.result.value.version == version) &&
            forall p :: p in run.posts ==>
              p.body.version == version && p.body.runtime == runtime && p.body.acl == DenyAll
  {
    var chunks := chunkString(ExportPrefix + data, ChunkBound);
    var run := Deployment(server, runtime, data, version, chunkString, respond);
    if run.result.Success? {
      UploadsUniformlyTagged(server, runtime, version, chunks);
    } else {
      UploadsUniformlyTagged(server, runtime, version, chunks[..run.result.error.chunk + 1]);
    }
  }

  /**
   * When the chunker does its job, the `code` of a finished deploy's issued
   * POST bodies, joined in issue order, gives back the prefixed payload; each
   * holds at most `ChunkBound` characters, so there are at least
   * |payload| / `ChunkBound` of them. These are the requests sent, not the
   * rows stored: the HTTP status is not checked, so a finished deploy does not
   * mean every body was stored.
   */
  lemma DeployReassembles(server: NoodlServer, runtime: string, data: string, version: string,
                          chunkString: (string, nat) -> seq<string>, respond: nat -> UploadOutcome)
    requires IsChunking(chunkString(ExportPrefix + data, ChunkBound), ExportPrefix + data, ChunkBound)
    ensures var run := Deployment(server, runtime, data, version, chunkString, respond);
            run.result.Success? ==>
              Reassembled(run.posts) == ExportPrefix + data &&
              (forall p :: p in run.posts ==> |p.body.code| <= ChunkBound) &&
              |ExportPrefix + data| <= |run.posts| * ChunkBound
  {
    var chunks := chunkString(ExportPrefix + data, ChunkBound);
    var run := Deployment(server, runtime, data, version, chunkString, respond);
    if run.result.Success? {
      ReassembledUploads(server, runtime, version, chunks);
      ChunkCount(chunks, ExportPrefix + data, ChunkBound);
      forall p | p in run.posts
        ensures |p.body.code| <= ChunkBound
      {
        var i :| 0 <= i < |run.posts| && run.posts[i] == p;
        UploadsAt(server, runtime, version, chunks, i);
      }
    }
  }

  /**
   * The HTTP status of an upload is never looked at: two runs whose uploads
   * are rejected at the same places issue the same uploads and return the same.
   */
  lemma StatusNotChecked(server: NoodlServer, runtime: string, data: string, version: string,
                         chunkString: (string, nat) -> seq<string>, respond1: nat -> UploadOutcome,
                         respond2: nat -> UploadOutcome)
    requires forall j :: respond1(j).UploadFailed? == respond2(j).UploadFailed?
    ensures Deployment(server, runtime, data, version, chunkString, respond1) ==
            Deployment(server, runtime, data, version, chunkString, respond2)
  {
    var chunks := chunkString(ExportPrefix + data, ChunkBound);
    assert StopAt(0, |chunks|, respond1) == StopAt(0, |chunks|, respond2);
  }
}
