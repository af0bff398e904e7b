/** The world the search tool talks to: the GitLab server, reached through the
    go-gitlab client, and the wall clock. Neither is part of the tool; both are
    modelled as a `Host` whose answers are fixed in advance (oracles) and which
    records every request and every sleep in its `trace`. */
module Environment {

  datatype Option<T> = None | Some(value: T)

  /** An error surfaced by the go-gitlab client (transport, authentication, not found, ...). */
  datatype ApiError = ApiError(message: string)

  /** A Go `(value, error)` pair: `Ok(v)` is `(v, nil)`, `Err(e)` is `(nil, e)`. */
  datatype Result<T> = Ok(value: T) | Err(error: ApiError)

  /** The platform's own records, as the client decodes them (only a few of their fields). */
  datatype GroupRecord = GroupRecord(id: int, name: string, fullPath: string)

  datatype ProjectRecord = ProjectRecord(id: int, name: string, nameWithNamespace: string, archived: bool)

  datatype BlobRecord = BlobRecord(
    basename: string,
    data: string,
    path: string,
    filename: string,
    ref: string,
    startline: int,
    projectID: int)

  /** What the tool does to the outside world, in order. */
  datatype Event =
    | GroupsRequest
    | GroupProjectsRequest(groupID: int, perPage: int)
    | BlobSearchRequest(projectID: int, keyword: string, perPage: int, ref: string)
    | Slept(ms: nat)

  /** The server (through the client) and the clock. Replies are fixed functions of the
      request; each request advances the clock (in milliseconds) by its latency. */
  class Host {
    const groupsReply: Result<seq<GroupRecord>>
    const projectsReply: int -> Result<seq<ProjectRecord>>
    const blobsReply: (int, string, int, string) -> Result<seq<BlobRecord>>
    const latency: Event -> nat

    var trace: seq<Event>
    var clock: nat

    constructor (
      groupsReply: Result<seq<GroupRecord>>,
      projectsReply: int -> Result<seq<ProjectRecord>>,
      blobsReply: (int, string, int, string) -> Result<seq<BlobRecord>>,
      latency: Event -> nat,
      startTime: nat)
      ensures this.groupsReply == groupsReply && this.projectsReply == projectsReply
      ensures this.blobsReply == blobsReply && this.latency == latency
      ensures trace == [] && clock == startTime
    {
      this.groupsReply := groupsReply;
      this.projectsReply := projectsReply;
      this.blobsReply := blobsReply;
      this.latency := latency;
      trace := [];
      clock := startTime;
    }

    /** `Groups.ListGroups` with default options. */
    method ListGroups() returns (r: Result<seq<GroupRecord>>)
      modifies this
      ensures r == groupsReply
      ensures trace == old(trace) + [GroupsRequest]
      ensures clock == old(clock) + latency(GroupsRequest)
    {
      r := groupsReply;
      trace := trace + [GroupsRequest];
      clock := clock + latency(GroupsRequest);
    }

    /** `Groups.ListGroupProjects` for one group, one page of `perPage` projects. */
    method ListGroupProjects(groupID: int, perPage: int) returns (r: Result<seq<ProjectRecord>>)
      modifies this
      ensures r == projectsReply(groupID)
      ensures trace == old(trace) + [GroupProjectsRequest(groupID, perPage)]
      ensures clock == old(clock) + latency(GroupProjectsRequest(groupID, perPage))
    {
      r := projectsReply(groupID);
      trace := trace + [GroupProjectsRequest(groupID, perPage)];
      clock := clock + latency(GroupProjectsRequest(groupID, perPage));
    }

    /** `Search.BlobsByProject` restricted to one ref, one page of `perPage` hits. */
    method BlobsByProject(projectID: int, keyword: string, perPage: int, ref: string)
      returns (r: Result<seq<BlobRecord>>)
      modifies this
      ensures r == blobsReply(projectID, keyword, perPage, ref)
      ensures trace == old(trace) + [BlobSearchRequest(projectID, keyword, perPage, ref)]
      ensures clock == old(clock) + latency(BlobSearchRequest(projectID, keyword, perPage, ref))
    {
      r := blobsReply(projectID, keyword, perPage, ref);
      trace := trace + [BlobSearchRequest(projectID, keyword, perPage, ref)];
      clock := clock + latency(BlobSearchRequest(projectID, keyword, perPage, ref));
    }

    /** `time.Now`, in milliseconds. */
    method Now() returns (t: nat)
      ensures t == clock
    {
      t := clock;
    }

    /** `time.Sleep`. */
    method Sleep(ms: nat)
      modifies this
      ensures trace == old(trace) + [Slept(ms)]
      ensures clock == old(clock) + ms
    {
      trace := trace + [Slept(ms)];
      clock := clock + ms;
    }
  }

  /** Total latency of a run of events: what the clock advances by while they happen. */
  function Latency(latency: Event -> nat, events: seq<Event>): nat
  {
    if events == [] then 0
    else Latency(latency, events[..|events| - 1]) + EventCost(latency, events[|events| - 1])
  }

  lemma LatencyStep(latency: Event -> nat, events: seq<Event>, i: nat)
    requires i < |events|
    ensures Latency(latency, events[..i + 1]) == Latency(latency, events[..i]) + EventCost(latency, events[i])
  {
    assert events[..i + 1][..i] == events[..i];
  }

  /** The clock advances over consecutive runs of events by the sum of their costs. */
  lemma {:induction false} LatencyAppend(latency: Event -> nat, a: seq<Event>, b: seq<Event>)
    ensures Latency(latency, a + b) == Latency(latency, a) + Latency(latency, b)
  {
    if b != [] {
      assert (a + b)[..|a + b| - 1] == a + b[..|b| - 1];
      LatencyAppend(latency, a, b[..|b| - 1]);
    } else {
      assert a + b == a;
    }
  }

  /** A sleep costs its own duration; a request costs its latency. */
  function EventCost(latency: Event -> nat, e: Event): nat
  {
    if e.Slept? then e.ms else latency(e)
  }
}
