/** cmd/search/main.go: the `search` command. It lists the groups, gathers the
    projects of every group, searches each project in turn and prints one report
    per project. What it prints is modelled as the sequence of its formatted
    prints, in order; `Render` gives the text of each. */
module SearchCmd {
  import opened Environment
  import opened Seqs
  import opened Text
  import opened Services

  const DelayCallSeconds: nat := 1
  const MaxSearchResults: nat := 5

  /** The size shown in a project's summary line, and the comment that follows it. */
  datatype SizeLabel = SizeLabel(size: string, comment: string)

  /** One formatted print of the command, by the format it uses; `Render` gives
      the exact text written. */
  datatype Print =
    | GroupsCount(groups: nat)
    | ProjectsCount(projects: nat)
    | Summary(projectName: string, shown: SizeLabel, costMs: int)
    | NoResults(projectName: string, costMs: int)
    | HitPath(path: string)
    | HitBranch(ref: string, line: int)
    | HitSnippet(data: string)
    | Fence

  /** The text of a print. Every print ends a line. */
  function Render(p: Print): (s: string)
    ensures |s| >= 1 && s[|s| - 1] == '\n'
  {
    match p
    case GroupsCount(n) => "There are [" + NatToString(n) + "] groups\n"
    case ProjectsCount(n) => "There are [" + NatToString(n) + "] projects\n"
    case Summary(name, shown, ms) =>
      "\U{1F50D} Project [" + name + "] has [" + shown.size + "] results " + shown.comment
        + ", cost " + IntToString(ms) + " ms \n\n"
    case NoResults(name, ms) => "\U{1F50D} Project [" + name + "] has no code results, cost " + IntToString(ms) + " ms\n\n"
    case HitPath(path) => "\U{1F449} " + path + "\n\n"
    case HitBranch(ref, line) => "```# branch: " + ref + ", line: " + IntToString(line) + "\n"
    case HitSnippet(data) => NormalizeSnippet(data) + "\n"
    case Fence => "```\n\n"
  }

  /** The report's summary and "no code results" prints open with a magnifying
      glass, and each hit's path print with a pointing hand, each followed by a space. */
  lemma PrintOpenings(name: string, shown: SizeLabel, costMs: int, path: string)
    ensures "\U{1F50D} " <= Render(Summary(name, shown, costMs))
    ensures "\U{1F50D} " <= Render(NoResults(name, costMs))
    ensures "\U{1F449} " <= Render(HitPath(path))
  {
  }

  /** A printed snippet holds no tab, and its text neither begins nor ends with a
      newline except the one that ends the print. */
  lemma SnippetPrint(data: string)
    ensures var s := Render(HitSnippet(data));
      && '\t' !in s
      && (|s| == 1 || (s[0] != '\n' && s[|s| - 2] != '\n'))
  {
    var t := NormalizeSnippet(data);
    assert Render(HitSnippet(data)) == t + "\n";
  }

  /** `getGroups`: the group IDs, and a line with their number; the error otherwise. */
  method GetGroups(svc: GitLabSvc) returns (r: Result<seq<int>>, out: seq<Print>)
    modifies svc.gc
    ensures svc.gc.trace == old(svc.gc.trace) + [GroupsRequest]
    ensures svc.gc.clock == old(svc.gc.clock) + Latency(svc.gc.latency, [GroupsRequest])
    ensures r == GroupsOf(svc.gc.groupsReply)
    ensures out == if r.Ok? then [GroupsCount(|r.value|)] else []
  {
    assert [GroupsRequest][..0] == [];
    var groupIDs := svc.GetGroups();
    if groupIDs.Err? {
      return Err(groupIDs.error), [];
    }
    out := [GroupsCount(|groupIDs.value|)];
    r := groupIDs;
  }

  // ---------------------------------------------------------------------------
  // Gathering the projects of every group

  /** The projects of every group, group after group, or the error of the first
      group whose listing fails. */
  function Collect(replies: int -> Result<seq<ProjectRecord>>, groupIDs: seq<int>): (r: Result<seq<Project>>)
    ensures r.Err? ==> exists k :: 0 <= k < |groupIDs| && replies(groupIDs[k]) == Err(r.error)
  {
    if groupIDs == [] then Ok([])
    else match ProjectsOf(replies(groupIDs[0]))
      case Err(e) => Err(e)
      case Ok(ps) =>
        match Collect(replies, groupIDs[1..])
        case Err(e) => Err(e)
        case Ok(rest) => Ok(ps + rest)
  }

  /** How many groups `getProjects` asks for: up to and including the first that fails. */
  function Queried(replies: int -> Result<seq<ProjectRecord>>, groupIDs: seq<int>): (n: nat)
    ensures n <= |groupIDs|
  {
    if groupIDs == [] then 0
    else if ProjectsOf(replies(groupIDs[0])).Err? then 1
    else 1 + Queried(replies, groupIDs[1..])
  }

  function ProjectsRequest(groupID: int): Event
  {
    GroupProjectsRequest(groupID, ProjectsPerPage)
  }

  /** Gathering over consecutive runs of groups: the second run counts only when
      the first succeeded. */
  lemma {:induction false} CollectAppend(replies: int -> Result<seq<ProjectRecord>>, a: seq<int>, b: seq<int>)
    ensures Collect(replies, a + b) ==
      match Collect(replies, a)
      case Err(e) => Err(e)
      case Ok(x) =>
        match Collect(replies, b)
        case Err(e) => Err(e)
        case Ok(y) => Ok(x + y)
    ensures Queried(replies, a + b) ==
      if Collect(replies, a).Err? then Queried(replies, a) else |a| + Queried(replies, b)
  {
    if a == [] {
      assert a + b == b;
      if Collect(replies, b).Ok? {
        assert [] + Collect(replies, b).value == Collect(replies, b).value;
      }
    } else {
      assert (a + b)[0] == a[0] && (a + b)[1..] == a[1..] + b;
      CollectAppend(replies, a[1..], b);
      if ProjectsOf(replies(a[0])).Ok? && Collect(replies, a[1..]).Ok? && Collect(replies, b).Ok? {
        var ps := ProjectsOf(replies(a[0])).value;
        assert ps + (Collect(replies, a[1..]).value + Collect(replies, b).value)
            == (ps + Collect(replies, a[1..]).value) + Collect(replies, b).value;
      }
    }
  }

  /** Gathering succeeds exactly when every group's listing succeeds, and then
      every group was asked. */
  lemma {:induction false} CollectSucceeds(replies: int -> Result<seq<ProjectRecord>>, groupIDs: seq<int>)
    ensures Collect(replies, groupIDs).Ok? <==>
      forall k :: 0 <= k < |groupIDs| ==> ProjectsOf(replies(groupIDs[k])).Ok?
    ensures Collect(replies, groupIDs).Ok? ==> Queried(replies, groupIDs) == |groupIDs|
  {
    if groupIDs != [] {
      CollectSucceeds(replies, groupIDs[1..]);
      assert forall k :: 1 <= k < |groupIDs| ==> groupIDs[k] == groupIDs[1..][k - 1];
    }
  }

  /** When gathering fails, the last group asked is the first whose listing fails,
      its error is the result, and every group before it succeeded. */
  lemma {:induction false} CollectFailsAt(replies: int -> Result<seq<ProjectRecord>>, groupIDs: seq<int>)
    requires Collect(replies, groupIDs).Err?
    ensures var q := Queried(replies, groupIDs);
      && 1 <= q
      && ProjectsOf(replies(groupIDs[q - 1])) == Err(Collect(replies, groupIDs).error)
      && forall k :: 0 <= k < q - 1 ==> ProjectsOf(replies(groupIDs[k])).Ok?
  {
    if ProjectsOf(replies(groupIDs[0])).Ok? {
      CollectFailsAt(replies, groupIDs[1..]);
      var q := Queried(replies, groupIDs[1..]);
      assert groupIDs[q] == groupIDs[1..][q - 1];
      assert forall k :: 1 <= k < q ==> groupIDs[k] == groupIDs[1..][k - 1];
    }
  }

  /** The number of projects of every group whose listing succeeds. */
  function ProjectTotal(replies: int -> Result<seq<ProjectRecord>>, groupIDs: seq<int>): nat
  {
    if groupIDs == [] then 0
    else
      var here := if replies(groupIDs[0]).Ok? then |replies(groupIDs[0]).value| else 0;
      here + ProjectTotal(replies, groupIDs[1..])
  }

  /** When gathering succeeds, it holds exactly as many projects as the groups have together. */
  lemma {:induction false} CollectCount(replies: int -> Result<seq<ProjectRecord>>, groupIDs: seq<int>)
    requires Collect(replies, groupIDs).Ok?
    ensures |Collect(replies, groupIDs).value| == ProjectTotal(replies, groupIDs)
  {
    if groupIDs != [] {
      CollectCount(replies, groupIDs[1..]);
    }
  }

  /** One more group listed successfully: its projects follow those gathered so far. */
  lemma CollectStep(replies: int -> Result<seq<ProjectRecord>>, groupIDs: seq<int>, i: nat, res: seq<Project>)
    requires i < |groupIDs| && ProjectsOf(replies(groupIDs[i])).Ok?
    requires Collect(replies, groupIDs[..i]) == Ok(res) && Queried(replies, groupIDs[..i]) == i
    ensures Collect(replies, groupIDs[..i + 1]) == Ok(res + ProjectsOf(replies(groupIDs[i])).value)
    ensures Queried(replies, groupIDs[..i + 1]) == i + 1
  {
    assert groupIDs[..i + 1] == groupIDs[..i] + [groupIDs[i]];
    CollectAppend(replies, groupIDs[..i], [groupIDs[i]]);
    var ps := ProjectsOf(replies(groupIDs[i])).value;
    assert [groupIDs[i]][1..] == [];
    assert ps + [] == ps;
  }

  /** A failing group after successful ones ends the gathering with its error. */
  lemma CollectStop(replies: int -> Result<seq<ProjectRecord>>, groupIDs: seq<int>, i: nat)
    requires i < |groupIDs| && ProjectsOf(replies(groupIDs[i])).Err?
    requires Collect(replies, groupIDs[..i]).Ok? && Queried(replies, groupIDs[..i]) == i
    ensures Collect(replies, groupIDs) == Err(ProjectsOf(replies(groupIDs[i])).error)
    ensures Queried(replies, groupIDs) == i + 1
  {
    assert groupIDs == groupIDs[..i] + groupIDs[i..];
    CollectAppend(replies, groupIDs[..i], groupIDs[i..]);
    assert groupIDs[i..][0] == groupIDs[i];
  }

  /** `getProjects`: asks for the projects of each group in order, stops at the
      first failure, and otherwise returns them all, group after group, with a
      line giving their number. */
  method GetProjects(svc: GitLabSvc, groupIDs: seq<int>) returns (r: Result<seq<Project>>, out: seq<Print>)
    modifies svc.gc
    ensures r == Collect(svc.gc.projectsReply, groupIDs)
    ensures svc.gc.trace == old(svc.gc.trace)
      + Map(ProjectsRequest, groupIDs)[..Queried(svc.gc.projectsReply, groupIDs)]
    ensures svc.gc.clock == old(svc.gc.clock)
      + Latency(svc.gc.latency, Map(ProjectsRequest, groupIDs)[..Queried(svc.gc.projectsReply, groupIDs)])
    ensures out == if r.Ok? then [ProjectsCount(|r.value|)] else []
  {
    ghost var replies := svc.gc.projectsReply;
    ghost var requests := Map(ProjectsRequest, groupIDs);
    var res: seq<Project> := [];
    for i := 0 to |groupIDs|
      invariant Collect(replies, groupIDs[..i]) == Ok(res)
      invariant Queried(replies, groupIDs[..i]) == i
      invariant svc.gc.trace == old(svc.gc.trace) + requests[..i]
      invariant svc.gc.clock == old(svc.gc.clock) + Latency(svc.gc.latency, requests[..i])
    {
      LatencyStep(svc.gc.latency, requests, i);
      AppendPrefixStep(old(svc.gc.trace), requests, i);
      var projects := svc.GetProjects(groupIDs[i]);
      if projects.Err? {
        CollectStop(replies, groupIDs, i);
        return Err(projects.error), [];
      }
      CollectStep(replies, groupIDs, i, res);
      res := res + projects.value;
    }
    assert groupIDs[..|groupIDs|] == groupIDs;
    out := [ProjectsCount(|res|)];
    r := Ok(res);
  }

  // ---------------------------------------------------------------------------
  // The report of one project

  /** The count shown for `n` hits: the count itself up to the cap, "5+" with a
      comment beyond it. */
  function ResultSize(n: nat): (l: SizeLabel)
    ensures l.size == "5+" <==> n > MaxSearchResults
    ensures l.comment != [] <==> n > MaxSearchResults
    ensures n <= MaxSearchResults ==> |l.size| == 1 && AllDigits(l.size) && ParseNat(l.size) == n
    ensures n > MaxSearchResults ==> l.comment == "(only show 5 results)"
  {
    if n > MaxSearchResults then
      assert NatToString(MaxSearchResults) == "5";
      assert "(only show " + "5" + " results)" == "(only show 5 results)";
      SizeLabel(NatToString(MaxSearchResults) + "+", "(only show " + NatToString(MaxSearchResults) + " results)")
    else
      ParseNatToString(n);
      SizeLabel(NatToString(n), "")
  }

  /** The four prints that show one hit. */
  function SnippetBlock(b: Blob): seq<Print>
  {
    [HitPath(b.path), HitBranch(b.ref, b.line), HitSnippet(b.data), Fence]
  }

  /** The snippet blocks of a run of hits, in order. */
  function Blocks(blobs: seq<Blob>): (r: seq<Print>)
    ensures |r| == 4 * |blobs|
  {
    if blobs == [] then [] else Blocks(blobs[..|blobs| - 1]) + SnippetBlock(blobs[|blobs| - 1])
  }

  /** The i-th block of a run of blocks shows the i-th hit. */
  lemma {:induction false} BlocksAt(blobs: seq<Blob>, i: nat)
    requires i < |blobs|
    ensures Blocks(blobs)[4 * i .. 4 * i + 4] == SnippetBlock(blobs[i])
  {
    var n := |blobs| - 1;
    var front := Blocks(blobs[..n]);
    var last := SnippetBlock(blobs[n]);
    var lo := 4 * i;
    assert Blocks(blobs) == front + last;
    if i < n {
      calc {
        Blocks(blobs)[lo .. lo + 4];
        (front + last)[lo .. lo + 4];
        { SliceOfAppend(front, last, lo, lo + 4); }
        front[lo .. lo + 4];
        { BlocksAt(blobs[..n], i); }
        SnippetBlock(blobs[..n][i]);
        { assert blobs[..n][i] == blobs[i]; }
        SnippetBlock(blobs[i]);
      }
    } else {
      calc {
        Blocks(blobs)[lo .. lo + 4];
        (front + last)[lo .. lo + 4];
        { assert |front| == lo; }
        last;
        { assert i == n; }
        SnippetBlock(blobs[i]);
      }
    }
  }

  /** What `printResults` prints for one project. */
  function Report(projectName: string, blobs: seq<Blob>, costMs: int): (r: seq<Print>)
    ensures |r| == 1 + 4 * Min(MaxSearchResults, |blobs|)
    ensures r[0] == if |blobs| > 0 then Summary(projectName, ResultSize(|blobs|), costMs) else NoResults(projectName, costMs)
  {
    if |blobs| > 0 then
      [Summary(projectName, ResultSize(|blobs|), costMs)] + Blocks(blobs[..Min(MaxSearchResults, |blobs|)])
    else
      [NoResults(projectName, costMs)]
  }

  /** With no hit, the report is the single "no code results" line. Otherwise it is
      the summary line followed by one block for each of the first min(5, n) hits, in
      order, and nothing else. */
  lemma ReportShape(projectName: string, blobs: seq<Blob>, costMs: int)
    ensures |blobs| == 0 ==> Report(projectName, blobs, costMs) == [NoResults(projectName, costMs)]
    ensures |blobs| > 0 ==>
      var out := Report(projectName, blobs, costMs);
      var k := Min(MaxSearchResults, |blobs|);
      && |out| == 1 + 4 * k
      && out[0] == Summary(projectName, ResultSize(|blobs|), costMs)
      && forall i :: 0 <= i < k ==> out[1 + 4 * i .. 5 + 4 * i] == SnippetBlock(blobs[i])
  {
    if |blobs| > 0 {
      var head := [Summary(projectName, ResultSize(|blobs|), costMs)];
      var k := Min(MaxSearchResults, |blobs|);
      var blocks := Blocks(blobs[..k]);
      forall i | 0 <= i < k
        ensures (head + blocks)[1 + 4 * i .. 5 + 4 * i] == SnippetBlock(blobs[i])
      {
        BlocksAt(blobs[..k], i);
        SliceOfAppendRight(head, blocks, 4 * i, 4 * i + 4);
        assert blobs[..k][i] == blobs[i];
      }
    }
  }

  /** One more hit shown appends its block. */
  lemma BlocksStep(blobs: seq<Blob>, i: nat)
    requires i < |blobs|
    ensures Blocks(blobs[..i + 1]) == Blocks(blobs[..i]) + SnippetBlock(blobs[i])
  {
    assert blobs[..i + 1][..i] == blobs[..i];
  }

  /** `printResults`. */
  method PrintResults(projectName: string, blobs: seq<Blob>, costMs: int) returns (out: seq<Print>)
    ensures out == Report(projectName, blobs, costMs)
  {
    if |blobs| > 0 {
      var shown := ResultSize(|blobs|);
      out := [Summary(projectName, shown, costMs)];
      for i := 0 to Min(MaxSearchResults, |blobs|)
        invariant out == [Summary(projectName, shown, costMs)] + Blocks(blobs[..i])
      {
        BlocksStep(blobs, i);
        var b := blobs[i];
        AppendFour(out, HitPath(b.path), HitBranch(b.ref, b.line), HitSnippet(b.data), Fence);
        out := out + [HitPath(b.path)];
        out := out + [HitBranch(b.ref, b.line)];
        out := out + [HitSnippet(b.data)];
        out := out + [Fence];
      }
    } else {
      out := [NoResults(projectName, costMs)];
    }
  }

  // ---------------------------------------------------------------------------
  // The whole command

  /** What searching one project does to the outside world: three ref queries, then
      the pause between projects. */
  function ProjectEvents(p: Project, keyword: string): (r: seq<Event>)
    ensures r == [
      BlobSearchRequest(p.id, keyword, 6, "staging"),
      BlobSearchRequest(p.id, keyword, 6, "demo"),
      BlobSearchRequest(p.id, keyword, 6, "master"),
      Slept(1000)]
  {
    SearchRequests(p.id, keyword, MaxSearchResults + 1) + [Slept(DelayCallSeconds * 1000)]
  }

  /** The events of the search loop over `projects`. */
  function RunEvents(projects: seq<Project>, keyword: string): (r: seq<Event>)
    ensures |r| == 4 * |projects|
  {
    if projects == [] then []
    else RunEvents(projects[..|projects| - 1], keyword) + ProjectEvents(projects[|projects| - 1], keyword)
  }

  /** The report printed for one project, given what the platform answers. */
  function ProjectReport(host: Host, p: Project, keyword: string): seq<Print>
  {
    Report(p.name,
      Hits(Replies(host, p.id, keyword, MaxSearchResults + 1)),
      Latency(host.latency, SearchRequests(p.id, keyword, MaxSearchResults + 1)))
  }

  /** The reports of the search loop over `projects`. */
  function RunReports(host: Host, projects: seq<Project>, keyword: string): seq<Print>
  {
    if projects == [] then []
    else RunReports(host, projects[..|projects| - 1], keyword) + ProjectReport(host, projects[|projects| - 1], keyword)
  }

  lemma RunStep(host: Host, projects: seq<Project>, keyword: string, k: nat)
    requires k < |projects|
    ensures RunEvents(projects[..k + 1], keyword) == RunEvents(projects[..k], keyword) + ProjectEvents(projects[k], keyword)
    ensures RunReports(host, projects[..k + 1], keyword)
         == RunReports(host, projects[..k], keyword) + ProjectReport(host, projects[k], keyword)
  {
    assert projects[..k + 1][..k] == projects[..k];
  }

  /** Searching one project takes its three queries and the pause. */
  lemma ProjectLatency(latency: Event -> nat, p: Project, keyword: string)
    ensures Latency(latency, ProjectEvents(p, keyword))
         == Latency(latency, SearchRequests(p.id, keyword, MaxSearchResults + 1)) + DelayCallSeconds * 1000
  {
    var pause := [Slept(DelayCallSeconds * 1000)];
    LatencyAppend(latency, SearchRequests(p.id, keyword, MaxSearchResults + 1), pause);
    assert pause[..0] == [];
  }

  /** The search loop of `SearchCmdRun`: every project in order is searched once, with
      a page of MaxSearchResults + 1 hits, reported, and followed by a one-second pause. */
  method SearchProjects(svc: GitLabSvc, projects: seq<Project>, keyword: string) returns (out: seq<Print>)
    modifies svc.gc
    ensures svc.gc.trace == old(svc.gc.trace) + RunEvents(projects, keyword)
    ensures svc.gc.clock == old(svc.gc.clock) + Latency(svc.gc.latency, RunEvents(projects, keyword))
    ensures out == RunReports(svc.gc, projects, keyword)
  {
    out := [];
    for k := 0 to |projects|
      invariant svc.gc.trace == old(svc.gc.trace) + RunEvents(projects[..k], keyword)
      invariant svc.gc.clock == old(svc.gc.clock) + Latency(svc.gc.latency, RunEvents(projects[..k], keyword))
      invariant out == RunReports(svc.gc, projects[..k], keyword)
    {
      var p := projects[k];
      RunStep(svc.gc, projects, keyword, k);
      ProjectLatency(svc.gc.latency, p, keyword);
      ghost var done := RunEvents(projects[..k], keyword);
      ghost var queries := SearchRequests(p.id, keyword, MaxSearchResults + 1);
      LatencyAppend(svc.gc.latency, done, ProjectEvents(p, keyword));
      var blobs, cost := svc.Search(p.id, keyword, MaxSearchResults + 1);
      if blobs.Err? {
        // main.go exits with the error here; Search never returns one.
        assert false;
      }
      var lines := PrintResults(p.name, blobs.value, cost);
      out := out + lines;
      svc.gc.Sleep(DelayCallSeconds * 1000);
      AppendAssoc(old(svc.gc.trace), done, queries, [Slept(DelayCallSeconds * 1000)]);
    }
    assert projects[..|projects|] == projects;
  }

  /** Everything the command does to the outside world, given the platform's answers. */
  function CommandEvents(host: Host, keyword: string): (r: seq<Event>)
    ensures |r| >= 1 && r[0] == GroupsRequest
  {
    [GroupsRequest] +
      match GroupsOf(host.groupsReply)
      case Err(_) => []
      case Ok(ids) =>
        Map(ProjectsRequest, ids)[..Queried(host.projectsReply, ids)] +
          match Collect(host.projectsReply, ids)
          case Err(_) => []
          case Ok(projects) => RunEvents(projects, keyword)
  }

  /** Everything the command prints, given the platform's answers. */
  function CommandOutput(host: Host, keyword: string): (r: seq<Print>)
    ensures |r| >= 2 <==> CommandError(host).None?
    ensures r != [] ==> host.groupsReply.Ok? && r[0] == GroupsCount(|host.groupsReply.value|)
  {
    match GroupsOf(host.groupsReply)
    case Err(_) => []
    case Ok(ids) =>
      [GroupsCount(|ids|)] +
        match Collect(host.projectsReply, ids)
        case Err(_) => []
        case Ok(projects) => [ProjectsCount(|projects|)] + RunReports(host, projects, keyword)
  }

  /** The error the command ends with: that of the group listing, else that of the
      first failing project listing, else none. */
  function CommandError(host: Host): (r: Option<ApiError>)
    ensures host.groupsReply.Err? ==> r == Some(host.groupsReply.error)
    ensures host.groupsReply.Ok? && r.Some? ==>
      exists k :: 0 <= k < |host.groupsReply.value| && host.projectsReply(host.groupsReply.value[k].id) == Err(r.value)
  {
    match GroupsOf(host.groupsReply)
    case Err(e) => Some(e)
    case Ok(ids) =>
      match Collect(host.projectsReply, ids)
      case Err(e) => Some(e)
      case Ok(_) => None
  }

  /** The search loop's events are, project after project and in the order of the
      projects, that project's searches followed by its pause. */
  lemma {:induction false} RunEventsAt(projects: seq<Project>, keyword: string, k: nat)
    requires k < |projects|
    ensures RunEvents(projects, keyword)[4 * k .. 4 * k + 4] == ProjectEvents(projects[k], keyword)
  {
    var n := |projects| - 1;
    var front := RunEvents(projects[..n], keyword);
    var last := ProjectEvents(projects[n], keyword);
    var lo := 4 * k;
    assert RunEvents(projects, keyword) == front + last;
    if k < n {
      calc {
        RunEvents(projects, keyword)[lo .. lo + 4];
        (front + last)[lo .. lo + 4];
        { SliceOfAppend(front, last, lo, lo + 4); }
        front[lo .. lo + 4];
        { RunEventsAt(projects[..n], keyword, k); }
        ProjectEvents(projects[..n][k], keyword);
        { assert projects[..n][k] == projects[k]; }
        ProjectEvents(projects[k], keyword);
      }
    } else {
      calc {
        RunEvents(projects, keyword)[lo .. lo + 4];
        (front + last)[lo .. lo + 4];
        { assert |front| == lo; }
        last;
        { assert k == n; }
        ProjectEvents(projects[k], keyword);
      }
    }
  }

  /** The command gets past the listings exactly when the groups are listed and the
      projects of every listed group are too. */
  lemma CommandSucceeds(host: Host, keyword: string)
    ensures CommandError(host).None? <==>
      && host.groupsReply.Ok?
      && forall k :: 0 <= k < |host.groupsReply.value| ==> host.projectsReply(host.groupsReply.value[k].id).Ok?
  {
    if host.groupsReply.Ok? {
      var ids := GroupsOf(host.groupsReply).value;
      CollectSucceeds(host.projectsReply, ids);
      assert forall k :: 0 <= k < |ids| ==> ids[k] == host.groupsReply.value[k].id;
    }
  }

  /** A run that fails while listing sends no search and sleeps not at all, and
      prints nothing but the number of groups, when those were listed. */
  lemma FailedCommandSearchesNothing(host: Host, keyword: string)
    requires CommandError(host).Some?
    ensures forall e :: e in CommandEvents(host, keyword) ==> e.GroupsRequest? || e.GroupProjectsRequest?
    ensures CommandOutput(host, keyword) ==
      if host.groupsReply.Ok? then [GroupsCount(|host.groupsReply.value|)] else []
  {
    if GroupsOf(host.groupsReply).Ok? {
      var ids := GroupsOf(host.groupsReply).value;
      var asked := Map(ProjectsRequest, ids)[..Queried(host.projectsReply, ids)];
      assert CommandEvents(host, keyword) == [GroupsRequest] + (asked + []);
      assert forall e :: e in asked ==> e.GroupProjectsRequest?;
    }
  }

  /** `SearchCmdRun` from the point where the service exists: groups, then the
      projects of every group, then the search loop. A failure to list the groups
      or the projects of a group ends the run with that error. */
  method SearchCmdRun(svc: GitLabSvc, keyword: string) returns (err: Option<ApiError>, out: seq<Print>)
    modifies svc.gc
    ensures err == CommandError(svc.gc)
    ensures out == CommandOutput(svc.gc, keyword)
    ensures svc.gc.trace == old(svc.gc.trace) + CommandEvents(svc.gc, keyword)
    ensures svc.gc.clock == old(svc.gc.clock) + Latency(svc.gc.latency, CommandEvents(svc.gc, keyword))
  {
    ghost var t0 := svc.gc.trace;
    ghost var c0 := svc.gc.clock;
    var groupIDs, groupsOut := GetGroups(svc);
    if groupIDs.Err? {
      assert CommandEvents(svc.gc, keyword) == [GroupsRequest] + [];
      return Some(groupIDs.error), groupsOut;
    }
    ghost var ids := groupIDs.value;
    ghost var asked := Map(ProjectsRequest, ids)[..Queried(svc.gc.projectsReply, ids)];
    var projects, projectsOut := GetProjects(svc, groupIDs.value);
    assert svc.gc.trace == t0 + [GroupsRequest] + asked;
    assert svc.gc.clock == c0 + Latency(svc.gc.latency, [GroupsRequest]) + Latency(svc.gc.latency, asked);
    if projects.Err? {
      assert asked + [] == asked;
      assert CommandEvents(svc.gc, keyword) == [GroupsRequest] + asked;
      AppendAssoc(t0, [GroupsRequest], asked, []);
      LatencyAppend(svc.gc.latency, [GroupsRequest], asked);
      return Some(projects.error), groupsOut + projectsOut;
    }
    var reports := SearchProjects(svc, projects.value, keyword);
    ghost var searched := RunEvents(projects.value, keyword);
    assert CommandEvents(svc.gc, keyword) == [GroupsRequest] + (asked + searched);
    AppendAssoc(t0, [GroupsRequest], asked, searched);
    LatencyAppend(svc.gc.latency, [GroupsRequest], asked + searched);
    LatencyAppend(svc.gc.latency, asked, searched);
    out := groupsOut + (projectsOut + reports);
    err := None;
  }
}
