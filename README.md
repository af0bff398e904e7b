# gitlab-search, modelled in Dafny

`gs search` searches the code of every project a GitLab token can see. It lists
the groups, then the projects of each group, and searches each project for a
keyword. For each project it queries three fixed refs ("staging", "demo" and
"master"), and it prints a short report per project: at most five hits, each
shown as its path, its branch and line, and a normalised snippet.

This project models that core:

- `internal/services/gitlab.go` is modelled in `services.dfy`, module `Services`. The
  `GitLabSvc` adapter becomes a class over the client. It converts the platform's
  records into the tool's `Project` and `Blob` records, and `Search` runs the ref
  loop with its error counter.
- `cmd/search/main.go` is modelled in `search_cmd.dfy`, module `SearchCmd`. This covers
  `getGroups`, `getProjects`, the search loop of `SearchCmdRun` and `printResults`.
  Each formatted print is a `Print` value, and `Render` gives its exact text.
- `text.dfy` (module `Text`) holds the string operations the report uses:
  - `strconv.Itoa` and `%d`;
  - `strings.Replace(s, "\t", "  ", -1)`;
  - `strings.Trim(s, "\n")`.
- `seqs.dfy` (module `Seqs`) holds the element-wise mapping that each
  "append one converted record per platform record" loop computes, plus small
  sequence facts.
- `environment.dfy` (module `Environment`) stands for the GitLab server, reached
  through the go-gitlab client, and for the wall clock. A `Host` answers each
  request from fixed reply functions. It records every request and every sleep in
  its `trace` and advances its `clock`, in milliseconds, by each request's latency.

Every method is proved against specification functions of the host's answers.
The service's `Search` returns `Hits(Replies(...))`, the in-order hits of the
refs whose query succeeded. `getProjects` returns `Collect(...)`, the
concatenation of every group's projects or the first error. `SearchCmdRun` ends
with `CommandError`, prints `CommandOutput` and sends `CommandEvents`. Lemmas
then state what these functions promise.

## Model

| member | source | states |
|---|---|---|
| Text.NatToString | cmd/search/main.go:104 | the decimal text of a count is a non-empty run of digits with no leading zero |
| Text.ParseNatToString | cmd/search/main.go:104 | reading the decimal text of `n` back gives `n` |
| Text.IntToString | cmd/search/main.go:107 | the `%d` text of an integer starts with '-' exactly when it is negative; the rest is a non-empty run of digits with no leading zero |
| Text.ParseIntToString | cmd/search/main.go:112 | the `%d` text of an integer is well-formed and reads back as that integer |
| Text.ReplaceTabs | cmd/search/main.go:113 | after replacing, no tab remains; text without a tab is unchanged |
| Text.ReplaceTabsChar | cmd/search/main.go:113 | a tab becomes two spaces, and every other character stays as it is |
| Text.ReplaceTabsAppend | cmd/search/main.go:113 | tab replacement works piece by piece: replacing a concatenation concatenates the replacements |
| Text.TrimLeadingNewlines | cmd/search/main.go:113 | the input is a run of newlines followed by the result, and the result does not begin with a newline |
| Text.TrimTrailingNewlines | cmd/search/main.go:113 | the input is the result followed by a run of newlines, and the result does not end with a newline |
| Text.TrimNewlines | cmd/search/main.go:113 | the input is newlines, then the result, then newlines; the result neither begins nor ends with a newline |
| Text.NormalizeSnippet | cmd/search/main.go:113 | a normalised snippet holds no tab and neither begins nor ends with a newline |
| Text.NormalizeSnippetIdempotent | cmd/search/main.go:113 | normalising a normalised snippet changes nothing |
| Text.ReplaceTabsExample | cmd/search/main.go:113 | "\tfoo\n" becomes "  foo\n" |
| Text.TrimNewlinesExample | cmd/search/main.go:113 | "  foo\n" is trimmed to "  foo" |
| Text.NormalizeSnippetExample | cmd/search/main.go:113 | the snippet "\tfoo\n" is shown as "  foo" |
| Services.GroupsOf | internal/services/gitlab.go:40-51 | the listing succeeds exactly when the platform's does, with the same error on failure; on success it has one ID per group, in the platform's order |
| Services.ProjectsOf | internal/services/gitlab.go:53-72 | the listing succeeds exactly when the platform's does, with the same error on failure; on success each project keeps its ID and archived flag, takes its name from the name with namespace, and keeps its place |
| Services.Found | internal/services/gitlab.go:86-101 | a failed ref query adds no hit; a successful one adds one hit per platform hit, in order, with ref, path from the file name, data and line from the start line |
| Services.HitsAt | internal/services/gitlab.go:79-102 | the hits of the k-th ref query come right after those of the refs before it |
| Services.HitsAppend | internal/services/gitlab.go:79-102 | the hits of earlier refs come before those of later refs |
| Services.HitsAllFailed | internal/services/gitlab.go:86-92 | when every ref query fails there are no hits |
| Services.SearchRequests | internal/services/gitlab.go:76-85 | the search sends exactly three queries, for "staging", "demo" and "master" in that order, each with the caller's keyword and page size |
| Services.SearchLoop | internal/services/gitlab.go:78-102 | the ref loop as written aborts only when the counter, together with the failures it meets, goes past 3 |
| Services.SearchLoopFails | internal/services/gitlab.go:86-91 | the ref loop as written aborts exactly when its failures take the counter past 3 |
| Services.SearchLoopHits | internal/services/gitlab.go:79-102 | when the ref loop as written does not abort, it returns the hits it started with followed by the hits of the successful refs, in order |
| Services.SearchLoopError | internal/services/gitlab.go:86-88 | an abort returns the error of one of the ref queries |
| Services.SearchLoopAborts | internal/services/gitlab.go:78-102 | the ref loop as written, for any number of refs, returns an error exactly when its failures take the counter past 3; otherwise it returns the hits of the successful refs, in order |
| Services.SearchNeverFails | internal/services/gitlab.go:86-90 | with the three fixed refs the loop as written returns all the hits of the successful refs and never an error |
| Services.AppendHits | internal/services/gitlab.go:94-101 | one converted hit is appended per platform hit, in order |
| Services.GitLabSvc.GetGroups | internal/services/gitlab.go:40-51 | one listing request is sent, the clock advances by its latency, and the result is `GroupsOf` the reply |
| Services.GitLabSvc.GetProjects | internal/services/gitlab.go:53-72 | one listing request is sent, for that group with a page of 150, the clock advances by its latency, and the result is `ProjectsOf` the reply |
| Services.GitLabSvc.Search | internal/services/gitlab.go:74-105 | the three ref queries are sent in order; the elapsed time is exactly their latency; the result is never an error and holds the hits of the successful refs, in ref order |
| SearchCmd.Render | cmd/search/main.go:107-117 | every print ends a line |
| SearchCmd.PrintOpenings | cmd/search/main.go:107-117 | the summary and "no code results" prints open with the magnifying-glass emoji and a space, a hit's path print with the pointing-hand emoji and a space |
| SearchCmd.SnippetPrint | cmd/search/main.go:113 | a printed snippet holds no tab, and its text neither begins nor ends with a newline except the one that ends the print |
| SearchCmd.GetGroups | cmd/search/main.go:134-141 | returns the adapter's group IDs and prints their number; on error it prints nothing and returns the error |
| SearchCmd.Collect | cmd/search/main.go:121-131 | a failed gathering returns the error of one of the groups' listings |
| SearchCmd.CollectAppend | cmd/search/main.go:121-129 | gathering projects over consecutive runs of groups concatenates the runs' projects; a failure in the first run ends the gathering there |
| SearchCmd.CollectSucceeds | cmd/search/main.go:123-128 | gathering succeeds exactly when every group's listing succeeds, and then every group was asked |
| SearchCmd.CollectFailsAt | cmd/search/main.go:123-127 | when gathering fails, the last group asked is the first whose listing failed; its error is the result and every earlier group succeeded |
| SearchCmd.CollectCount | cmd/search/main.go:128-130 | a successful gathering holds exactly as many projects as the groups have together |
| SearchCmd.GetProjects | cmd/search/main.go:121-132 | asks for each group's projects in order and asks for no group after the first failure; returns the gathered projects or that failure's error, and prints the project count only on success |
| SearchCmd.ResultSize | cmd/search/main.go:97-105 | the shown size is "5+" with the comment "(only show 5 results)" exactly when there are more than 5 hits; otherwise it is the single digit of the count, which reads back as the count, and the comment is empty |
| SearchCmd.BlocksAt | cmd/search/main.go:109-115 | the i-th block of four prints shows the i-th hit: path, branch and line, snippet, fence |
| SearchCmd.Report | cmd/search/main.go:95-119 | a report has one opening print and four prints per shown hit, min(5, n) of them; it opens with the summary when there are hits and with "no code results" otherwise |
| SearchCmd.ReportShape | cmd/search/main.go:95-119 | no hits give only the "no code results" print; otherwise the summary comes first, followed by exactly min(5, n) blocks that show the first hits in order |
| SearchCmd.PrintResults | cmd/search/main.go:95-119 | prints exactly the report `Report` describes |
| SearchCmd.ProjectEvents | cmd/search/main.go:83-90 | each project is searched with a page of 6 on "staging", "demo" and "master", then followed by a 1000 ms pause |
| SearchCmd.RunEvents | cmd/search/main.go:82-91 | the search loop sends four events per project |
| SearchCmd.RunEventsAt | cmd/search/main.go:82-91 | the search loop's events for the k-th project come k-th: once per project, in project order |
| SearchCmd.SearchProjects | cmd/search/main.go:82-91 | searches every project in order, prints each project's report, and pauses after each; the clock advances by the queries' latencies and the pauses |
| SearchCmd.CommandEvents | cmd/search/main.go:67-93 | the run's first request is the group listing |
| SearchCmd.CommandOutput | cmd/search/main.go:67-93 | the run prints at least two lines exactly when both listings succeed; its first print, when there is one, is the group count |
| SearchCmd.CommandError | cmd/search/main.go:67-79 | a failed group listing is the run's error; any other error is that of a listed group's project listing |
| SearchCmd.CommandSucceeds | cmd/search/main.go:67-79 | the run gets past the listings exactly when the groups are listed and so is every listed group's projects |
| SearchCmd.FailedCommandSearchesNothing | cmd/search/main.go:67-79 | a run that fails while listing sends no search and does not sleep; it prints the group count when the groups were listed and nothing otherwise |
| SearchCmd.SearchCmdRun | cmd/search/main.go:67-93 | the run ends with the first listing error, or none; it prints `CommandOutput` and sends `CommandEvents`, and the clock advances by their cost |

## Left out

- The go-gitlab client and HTTP are not modelled. Requests are answered by the `Host`'s fixed reply functions. The page sizes (150 projects, 6 hits) are recorded in each request, but a reply is not bounded by them.
- `NewGitLabService` (gitlab.go:32-38), which builds the client and parses the URL, is not modelled. The model starts from an existing service.
- Reading the cobra flags, the `println` echoes of url, token and keyword, and `main` and `InitialCmdFlags` are not modelled. The keyword is a parameter.
- The `log.Fatalf` calls are not modelled as such. `SearchCmdRun` returns the error in their place, and the message written to stderr and the process exit are not modelled.
- What the command prints (`out`) and what it sends to the host (`trace`) are two separate sequences, so the model does not relate them in time. It does not state that a project's report is printed before its pause and before the next project's searches (main.go:89-90), or that the group count is printed before any project listing.
- Time is whole milliseconds of a modelled clock. Each request costs a fixed latency determined by the request, and a pause costs its duration. Go's nanosecond `time.Duration` and the truncation done by `Milliseconds()` are not modelled.
- main.go:90 pauses after every project, including the last one. The pause is only needed between projects, but the model follows the code.
- Services.GitLabSvc.Search: the early return at gitlab.go:87-88 is unreachable with three refs, so the method marks it dead. The as-written behaviour for any number of refs is `SearchLoop`, with `SearchLoopAborts`.
- SearchCmd.SearchProjects: main.go:84-87, the exit on a search error, is unreachable because `Search` never fails, and it is marked dead.
- Slices of pointers (`[]*Project`, `[]*Blob`) become sequences of values. No record is changed after it is created, so aliasing plays no part.
- `helpers.Min` is `Seqs.Min`. The Go test `main_test.go` calls a real server and is not modelled.
