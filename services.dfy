/** internal/services/gitlab.go: the adapter between the tool and the go-gitlab
    client. It turns the platform's records into the tool's own `Project` and
    `Blob` records and searches one project on three fixed refs. */
module Services {
  import opened Environment
  import opened Seqs

  datatype Project = Project(id: int, name: string, archived: bool)

  /** One search hit. */
  datatype Blob = Blob(ref: string, path: string, data: string, line: int)

  /** The refs `Search` looks at, in this order. */
  const References: seq<string> := ["staging", "demo", "master"]

  /** Page size asked for when listing a group's projects (not enforced by the tool). */
  const ProjectsPerPage: int := 150

  function GroupID(g: GroupRecord): int
  {
    g.id
  }

  function ToProject(p: ProjectRecord): Project
  {
    Project(p.id, p.nameWithNamespace, p.archived)
  }

  function ToBlob(b: BlobRecord): Blob
  {
    Blob(b.ref, b.filename, b.data, b.startline)
  }

  /** What `GetGroups` returns for a given reply of the platform. */
  function GroupsOf(reply: Result<seq<GroupRecord>>): (r: Result<seq<int>>)
    ensures r.Ok? <==> reply.Ok?
    ensures r.Err? ==> r.error == reply.error
    ensures r.Ok? ==>
      && |r.value| == |reply.value|
      && forall i :: 0 <= i < |r.value| ==> r.value[i] == reply.value[i].id
  {
    match reply
    case Err(e) => Err(e)
    case Ok(gs) => Ok(Map(GroupID, gs))
  }

  /** What `GetProjects` returns for a given reply of the platform. */
  function ProjectsOf(reply: Result<seq<ProjectRecord>>): (r: Result<seq<Project>>)
    ensures r.Ok? <==> reply.Ok?
    ensures r.Err? ==> r.error == reply.error
    ensures r.Ok? ==>
      && |r.value| == |reply.value|
      && forall i :: 0 <= i < |r.value| ==>
           var p, q := r.value[i], reply.value[i];
           p.id == q.id && p.name == q.nameWithNamespace && p.archived == q.archived
  {
    match reply
    case Err(e) => Err(e)
    case Ok(ps) => Ok(Map(ToProject, ps))
  }

  /** The hits one ref's query adds to the result: none when the query failed. */
  function Found(reply: Result<seq<BlobRecord>>): (r: seq<Blob>)
    ensures reply.Err? ==> r == []
    ensures reply.Ok? ==>
      && |r| == |reply.value|
      && forall i :: 0 <= i < |r| ==>
           var b, q := r[i], reply.value[i];
           b.ref == q.ref && b.path == q.filename && b.data == q.data && b.line == q.startline
  {
    if reply.Ok? then Map(ToBlob, reply.value) else []
  }

  /** The hits of a run of ref queries, in query order. */
  function Hits(replies: seq<Result<seq<BlobRecord>>>): seq<Blob>
  {
    if replies == [] then [] else Found(replies[0]) + Hits(replies[1..])
  }

  /** How many of a run of ref queries failed. */
  function Failures(replies: seq<Result<seq<BlobRecord>>>): (n: nat)
    ensures n <= |replies|
  {
    if replies == [] then 0 else (if replies[0].Err? then 1 else 0) + Failures(replies[1..])
  }

  /** The hits of consecutive runs of queries follow each other: the hits of an
      earlier ref always come before those of a later ref. */
  lemma {:induction false} HitsAppend(a: seq<Result<seq<BlobRecord>>>, b: seq<Result<seq<BlobRecord>>>)
    ensures Hits(a + b) == Hits(a) + Hits(b)
  {
    if a == [] {
      assert a + b == b;
    } else {
      assert (a + b)[1..] == a[1..] + b;
      HitsAppend(a[1..], b);
    }
  }

  lemma {:induction false} FailuresAppend(a: seq<Result<seq<BlobRecord>>>, b: seq<Result<seq<BlobRecord>>>)
    ensures Failures(a + b) == Failures(a) + Failures(b)
  {
    if a == [] {
      assert a + b == b;
    } else {
      assert (a + b)[1..] == a[1..] + b;
      FailuresAppend(a[1..], b);
    }
  }

  /** Extending a run of queries by one more adds that query's hits and failure. */
  lemma PrefixStep(replies: seq<Result<seq<BlobRecord>>>, i: nat)
    requires i < |replies|
    ensures Hits(replies[..i + 1]) == Hits(replies[..i]) + Found(replies[i])
    ensures Failures(replies[..i + 1]) == Failures(replies[..i]) + (if replies[i].Err? then 1 else 0)
  {
    assert replies[..i + 1] == replies[..i] + [replies[i]];
    HitsAppend(replies[..i], [replies[i]]);
    FailuresAppend(replies[..i], [replies[i]]);
    assert Hits([replies[i]]) == Found(replies[i]) + [];
  }

  /** The hits of the k-th query follow those of the queries before it, ahead of
      those of the queries after it. */
  lemma HitsAt(replies: seq<Result<seq<BlobRecord>>>, k: nat)
    requires k < |replies|
    ensures Hits(replies[..k]) + Found(replies[k]) <= Hits(replies)
  {
    assert replies == replies[..k + 1] + replies[k + 1..];
    HitsAppend(replies[..k + 1], replies[k + 1..]);
    PrefixStep(replies, k);
  }

  /** A failed query contributes nothing, so when every query fails there is no hit. */
  lemma {:induction false} HitsAllFailed(replies: seq<Result<seq<BlobRecord>>>)
    requires Failures(replies) == |replies|
    ensures Hits(replies) == []
  {
    if replies != [] {
      HitsAllFailed(replies[1..]);
    }
  }

  /** The requests `Search` sends, one per ref, in ref order. */
  function SearchRequests(projectID: int, keyword: string, amount: int): (rs: seq<Event>)
    ensures |rs| == |References|
    ensures rs == [
      BlobSearchRequest(projectID, keyword, amount, "staging"),
      BlobSearchRequest(projectID, keyword, amount, "demo"),
      BlobSearchRequest(projectID, keyword, amount, "master")]
  {
    Map((ref: string) => BlobSearchRequest(projectID, keyword, amount, ref), References)
  }

  /** The platform's replies to those requests. */
  function Replies(gc: Host, projectID: int, keyword: string, amount: int): (rs: seq<Result<seq<BlobRecord>>>)
    ensures |rs| == |References|
  {
    Map((ref: string) => gc.blobsReply(projectID, keyword, amount, ref), References)
  }

  /** The i-th request and reply of `Search` are those for the i-th ref. */
  lemma SearchStepAt(gc: Host, projectID: int, keyword: string, amount: int, i: nat)
    requires i < |References|
    ensures SearchRequests(projectID, keyword, amount)[i] == BlobSearchRequest(projectID, keyword, amount, References[i])
    ensures Replies(gc, projectID, keyword, amount)[i] == gc.blobsReply(projectID, keyword, amount, References[i])
  {
  }

  /** The ref loop of `Search` exactly as written, as a function of the replies it
      gets, for any number of refs: a failure is skipped and counted, except that
      the failure seen while `errCounter` is already 3 aborts with that error. */
  function SearchLoop(replies: seq<Result<seq<BlobRecord>>>, errCounter: nat, res: seq<Blob>): (r: Result<seq<Blob>>)
    ensures r.Err? ==> errCounter + Failures(replies) > 3
  {
    if replies == [] then Ok(res)
    else if replies[0].Err? then
      if errCounter == 3 then Err(replies[0].error)
      else SearchLoop(replies[1..], errCounter + 1, res)
    else SearchLoop(replies[1..], errCounter, res + Found(replies[0]))
  }

  /** The loop as written, started with counter `errCounter` (at most 3), aborts
      exactly when the failures it meets take the counter past 3. */
  lemma {:induction false} SearchLoopFails(replies: seq<Result<seq<BlobRecord>>>, errCounter: nat, res: seq<Blob>)
    requires errCounter <= 3
    ensures SearchLoop(replies, errCounter, res).Err? <==> errCounter + Failures(replies) > 3
  {
    if replies != [] {
      var rest := replies[1..];
      if replies[0].Err? {
        assert Failures(replies) == 1 + Failures(rest);
        if errCounter < 3 {
          SearchLoopFails(rest, errCounter + 1, res);
          assert SearchLoop(replies, errCounter, res) == SearchLoop(rest, errCounter + 1, res);
        } else {
          assert SearchLoop(replies, errCounter, res) == Err(replies[0].error);
        }
      } else {
        assert Failures(replies) == Failures(rest);
        var res' := res + Found(replies[0]);
        SearchLoopFails(rest, errCounter, res');
        assert SearchLoop(replies, errCounter, res) == SearchLoop(rest, errCounter, res');
      }
    }
  }

  /** When the loop as written does not abort, it ends with `res` followed by
      every hit in order. */
  lemma {:induction false} SearchLoopHits(replies: seq<Result<seq<BlobRecord>>>, errCounter: nat, res: seq<Blob>)
    ensures SearchLoop(replies, errCounter, res).Ok? ==>
      SearchLoop(replies, errCounter, res).value == res + Hits(replies)
  {
    if replies == [] {
      assert res + Hits(replies) == res;
    } else {
      var rest := replies[1..];
      var r := SearchLoop(replies, errCounter, res);
      if replies[0].Err? {
        assert Hits(replies) == Hits(rest);
        if errCounter != 3 {
          SearchLoopHits(rest, errCounter + 1, res);
          assert r == SearchLoop(rest, errCounter + 1, res);
        }
      } else {
        var res' := res + Found(replies[0]);
        assert Hits(replies) == Found(replies[0]) + Hits(rest);
        SearchLoopHits(rest, errCounter, res');
        assert r == SearchLoop(rest, errCounter, res');
        assert res' + Hits(rest) == res + Hits(replies);
      }
    }
  }

  /** An abort returns the error of one of the queries, never one of its own. */
  lemma {:induction false} SearchLoopError(replies: seq<Result<seq<BlobRecord>>>, errCounter: nat, res: seq<Blob>)
    ensures SearchLoop(replies, errCounter, res).Err? ==>
      Err(SearchLoop(replies, errCounter, res).error) in replies
  {
    if replies != [] {
      var rest := replies[1..];
      if replies[0].Err? {
        if errCounter != 3 {
          SearchLoopError(rest, errCounter + 1, res);
        }
      } else {
        SearchLoopError(rest, errCounter, res + Found(replies[0]));
      }
    }
  }

  /** The loop as written, started with counter `errCounter` (at most 3) and hits
      `res`, aborts exactly when the failures it meets take the counter past 3;
      otherwise it ends with `res` followed by every hit in order. */
  lemma SearchLoopAborts(replies: seq<Result<seq<BlobRecord>>>, errCounter: nat, res: seq<Blob>)
    requires errCounter <= 3
    ensures SearchLoop(replies, errCounter, res).Err? <==> errCounter + Failures(replies) > 3
    ensures SearchLoop(replies, errCounter, res).Ok? ==>
      SearchLoop(replies, errCounter, res).value == res + Hits(replies)
  {
    SearchLoopFails(replies, errCounter, res);
    SearchLoopHits(replies, errCounter, res);
  }

  /** With the three fixed refs, at most three failures can happen, so the error
      return of the loop is never taken. */
  lemma SearchNeverFails(replies: seq<Result<seq<BlobRecord>>>)
    requires |replies| == |References|
    ensures SearchLoop(replies, 0, []) == Ok(Hits(replies))
  {
    SearchLoopAborts(replies, 0, []);
    assert [] + Hits(replies) == Hits(replies);
  }

  /** The inner loop of `Search`: one converted hit per platform hit, appended in order. */
  method AppendHits(res: seq<Blob>, blobs: seq<BlobRecord>) returns (res': seq<Blob>)
    ensures res' == res + Map(ToBlob, blobs)
  {
    res' := res;
    for j := 0 to |blobs|
      invariant res' == res + Map(ToBlob, blobs[..j])
    {
      MapStep(ToBlob, blobs, j);
      var b := blobs[j];
      res' := res' + [Blob(b.ref, b.filename, b.data, b.startline)];
    }
    assert blobs[..|blobs|] == blobs;
  }

  /** The tool's service, over one go-gitlab client. */
  class GitLabSvc {
    const gc: Host

    constructor (gc: Host)
      ensures this.gc == gc
    {
      this.gc := gc;
    }

    /** The IDs of the groups the platform lists, in its order; the error otherwise. */
    method GetGroups() returns (r: Result<seq<int>>)
      modifies gc
      ensures gc.trace == old(gc.trace) + [GroupsRequest]
      ensures gc.clock == old(gc.clock) + gc.latency(GroupsRequest)
      ensures r == GroupsOf(gc.groupsReply)
    {
      var groups := gc.ListGroups();
      if groups.Err? {
        return Err(groups.error);
      }
      var res: seq<int> := [];
      for k := 0 to |groups.value|
        invariant res == Map(GroupID, groups.value[..k])
      {
        assert groups.value[..k + 1][..k] == groups.value[..k];
        res := res + [groups.value[k].id];
      }
      assert groups.value[..|groups.value|] == groups.value;
      return Ok(res);
    }

    /** The projects of one group (one page of at most 150), converted record by
        record and in the platform's order; the error otherwise. */
    method GetProjects(groupID: int) returns (r: Result<seq<Project>>)
      modifies gc
      ensures gc.trace == old(gc.trace) + [GroupProjectsRequest(groupID, ProjectsPerPage)]
      ensures gc.clock == old(gc.clock) + gc.latency(GroupProjectsRequest(groupID, ProjectsPerPage))
      ensures r == ProjectsOf(gc.projectsReply(groupID))
    {
      var projects := gc.ListGroupProjects(groupID, ProjectsPerPage);
      if projects.Err? {
        return Err(projects.error);
      }
      var res: seq<Project> := [];
      for k := 0 to |projects.value|
        invariant res == Map(ToProject, projects.value[..k])
      {
        assert projects.value[..k + 1][..k] == projects.value[..k];
        var p := projects.value[k];
        res := res + [Project(p.id, p.nameWithNamespace, p.archived)];
      }
      assert projects.value[..|projects.value|] == projects.value;
      return Ok(res);
    }

    /** Queries "staging", "demo" and "master" in that order, skips the refs whose
        query fails, and returns the hits of the others in order, together with the
        time the three queries took. It never returns an error. */
    method Search(projectID: int, keyword: string, amount: int) returns (r: Result<seq<Blob>>, elapsed: nat)
      modifies gc
      ensures gc.trace == old(gc.trace) + SearchRequests(projectID, keyword, amount)
      ensures elapsed == Latency(gc.latency, SearchRequests(projectID, keyword, amount))
      ensures gc.clock == old(gc.clock) + elapsed
      ensures r == Ok(Hits(Replies(gc, projectID, keyword, amount)))
    {
      var start := gc.Now();
      var references := References;
      ghost var requests := SearchRequests(projectID, keyword, amount);
      ghost var replies := Replies(gc, projectID, keyword, amount);
      var res: seq<Blob> := [];
      var errCounter := 0;
      for i := 0 to |references|
        invariant errCounter == Failures(replies[..i]) <= i
        invariant res == Hits(replies[..i])
        invariant gc.trace == old(gc.trace) + requests[..i]
        invariant gc.clock == start + Latency(gc.latency, requests[..i])
      {
        var blobs := gc.BlobsByProject(projectID, keyword, amount, references[i]);
        SearchStepAt(gc, projectID, keyword, amount, i);
        PrefixStep(replies, i);
        LatencyStep(gc.latency, requests, i);
        AppendPrefixStep(old(gc.trace), requests, i);
        if blobs.Err? {
          if errCounter == 3 {
            // gitlab.go returns the error here; the branch is dead: errCounter <= i < 3.
            assert false;
          }
          errCounter := errCounter + 1;
          assert Hits(replies[..i + 1]) == res + [];
          continue;
        }
        res := AppendHits(res, blobs.value);
        assert res == Hits(replies[..i + 1]);
      }
      assert replies[..|references|] == replies;
      assert requests[..|references|] == requests;
      var end := gc.Now();
      elapsed := end - start;
      r := Ok(res);
    }
  }
}
