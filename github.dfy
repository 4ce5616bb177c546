/** The aggregation step of src/monitor/github.js: the events of the
    last 24 hours are tallied into commit, pull-request, release, star and
    issue counters plus the distinct repository names. The HTTP call is an
    input (the decoded event list, or the message of the error it threw),
    and "24 hours ago" is the timestamp `since`. */
module GithubMonitor {
  import opened Wrappers
  import opened Js
  import Seqs

  /** The fields of a GitHub event the monitor reads: `type`, `repo.name`,
      `created_at` (as a timestamp), `payload.action`, `payload.commits`. */
  datatype Event = Event(
    kind: string,
    repoName: string,
    createdAt: int,
    action: Option<string>,
    commits: Option<seq<string>>)

  datatype GithubActivity = GithubActivity(
    commits: nat,
    prs: nat,
    releases: nat,
    stars: nat,
    issues: nat,
    repoNames: seq<string>)

  function CreatedAfter(since: int): Event -> bool
  {
    (e: Event) => e.createdAt > since
  }

  /** The events created strictly after `since`. */
  function RecentEvents(events: seq<Event>, since: int): (r: seq<Event>)
    ensures |r| <= |events|
    ensures forall i :: 0 <= i < |r| ==> r[i] in events && r[i].createdAt > since
    ensures forall i :: 0 <= i < |events| && events[i].createdAt > since ==> events[i] in r
  {
    Seqs.Filter(events, CreatedAfter(since))
  }

  /** The filter keeps the events' order and multiplicity: the recent events
      of a concatenation are the concatenation of the recent events. */
  lemma RecentEventsAppend(a: seq<Event>, b: seq<Event>, since: int)
    ensures RecentEvents(a + b, since) == RecentEvents(a, since) + RecentEvents(b, since)
  {
    Seqs.FilterAppend(a, b, CreatedAfter(since));
  }

  /** A single event is kept, once, exactly when it was created after `since`. */
  lemma RecentEventsSingle(e: Event, since: int)
    ensures RecentEvents([e], since) == if e.createdAt > since then [e] else []
  {
    assert [e][..0] == [];
  }

  /** What a PushEvent adds to `commits`; a missing list counts as 0. */
  function PushedCommits(e: Event): nat
  {
    if e.kind == "PushEvent" && e.commits.Some? then |e.commits.value| else 0
  }

  predicate OpenedPullRequest(e: Event)
  {
    e.kind == "PullRequestEvent" && e.action == Some("opened")
  }

  predicate PublishedRelease(e: Event)
  {
    e.kind == "ReleaseEvent" && e.action == Some("published")
  }

  predicate StartedWatch(e: Event)
  {
    e.kind == "WatchEvent" && e.action == Some("started")
  }

  predicate OpenedIssue(e: Event)
  {
    e.kind == "IssuesEvent" && e.action == Some("opened")
  }

  function RepoName(e: Event): string
  {
    e.repoName
  }

  function Bump(b: bool): nat
  {
    if b then 1 else 0
  }

  /** What one event adds to the tallies (one iteration of the `forEach`). */
  function Record(a: GithubActivity, e: Event): GithubActivity
  {
    GithubActivity(
      a.commits + PushedCommits(e),
      a.prs + Bump(OpenedPullRequest(e)),
      a.releases + Bump(PublishedRelease(e)),
      a.stars + Bump(StartedWatch(e)),
      a.issues + Bump(OpenedIssue(e)),
      if e.repoName in a.repoNames then a.repoNames else a.repoNames + [e.repoName])
  }

  const NoActivity := GithubActivity(0, 0, 0, 0, 0, [])

  /** The activity a list of (already recent) events adds up to. */
  function Tally(events: seq<Event>): GithubActivity
  {
    if events == [] then NoActivity else Record(Tally(events[..|events| - 1]), events[|events| - 1])
  }

  /** An independent description of the same activity: each counter counts
      (or sums over) the events its rule matches, and the repository names
      are the distinct `repo.name`s in order of first occurrence. */
  function TallyByCounting(events: seq<Event>): GithubActivity
  {
    GithubActivity(
      Seqs.Sum(events, PushedCommits),
      Seqs.Count(events, OpenedPullRequest),
      Seqs.Count(events, PublishedRelease),
      Seqs.Count(events, StartedWatch),
      Seqs.Count(events, OpenedIssue),
      Seqs.Dedup(Seqs.Map(events, RepoName)))
  }

  lemma {:induction false} TallyCountersAreCounts(events: seq<Event>)
    ensures Tally(events).commits == Seqs.Sum(events, PushedCommits)
    ensures Tally(events).prs == Seqs.Count(events, OpenedPullRequest)
    ensures Tally(events).releases == Seqs.Count(events, PublishedRelease)
    ensures Tally(events).stars == Seqs.Count(events, StartedWatch)
    ensures Tally(events).issues == Seqs.Count(events, OpenedIssue)
  {
    if events != [] {
      TallyCountersAreCounts(events[..|events| - 1]);
    }
  }

  lemma {:induction false} TallyRepoNamesAreDistinctNames(events: seq<Event>)
    ensures Tally(events).repoNames == Seqs.Dedup(Seqs.Map(events, RepoName))
  {
    if events != [] {
      var p := events[..|events| - 1];
      TallyRepoNamesAreDistinctNames(p);
      var names := Seqs.Map(events, RepoName);
      assert names[..|names| - 1] == Seqs.Map(p, RepoName);
    }
  }

  lemma TallyIsCounting(events: seq<Event>)
    ensures Tally(events) == TallyByCounting(events)
  {
    TallyCountersAreCounts(events);
    TallyRepoNamesAreDistinctNames(events);
  }

  /** Each event bumps at most one of the four event counters. */
  lemma {:induction false} CountersBounded(events: seq<Event>)
    ensures var a := Tally(events); a.prs + a.releases + a.stars + a.issues <= |events|
  {
    if events != [] {
      CountersBounded(events[..|events| - 1]);
    }
  }

  /** An event whose type and action match none of the rules changes no counter. */
  lemma UncountedEventChangesNoCounter(events: seq<Event>, e: Event)
    requires e.kind != "PushEvent"
    requires !OpenedPullRequest(e) && !PublishedRelease(e) && !StartedWatch(e) && !OpenedIssue(e)
    ensures var before, after := Tally(events), Tally(events + [e]);
      after.commits == before.commits && after.prs == before.prs && after.releases == before.releases
      && after.stars == before.stars && after.issues == before.issues
  {
    assert (events + [e])[..|events|] == events;
  }

  /** `repoNames` lists every recent event's repository exactly once, in the
      order in which the repositories were first seen. */
  lemma RepoNamesDistinctInFirstSeenOrder(events: seq<Event>)
    ensures var names, r := Seqs.Map(events, RepoName), Tally(events).repoNames;
      Seqs.NoDuplicates(r)
      && (forall i :: 0 <= i < |events| ==> events[i].repoName in r)
      && (forall i :: 0 <= i < |r| ==> r[i] in names)
      && (forall i, j :: 0 <= i < j < |r| ==> Seqs.FirstIndex(names, r[i]) < Seqs.FirstIndex(names, r[j]))
  {
    TallyIsCounting(events);
    var names := Seqs.Map(events, RepoName);
    Seqs.DedupFirstSeenOrder(names);
    assert forall i :: 0 <= i < |events| ==> names[i] == events[i].repoName;
  }

  lemma TallyPrefix(events: seq<Event>, i: nat)
    requires i < |events|
    ensures Tally(events[..i + 1]) == Record(Tally(events[..i]), events[i])
  {
    assert events[..i + 1][..i] == events[..i];
  }

  /** The `forEach` over the recent events, updating the counters and the
      `repoNames` set in place. */
  method Aggregate(recent: seq<Event>) returns (activity: GithubActivity)
    ensures activity == Tally(recent)
  {
    var commits: nat, prs: nat, releases: nat, stars: nat, issues: nat := 0, 0, 0, 0, 0;
    var repoNames: seq<string> := [];
    var i := 0;
    while i < |recent|
      invariant 0 <= i <= |recent|
      invariant GithubActivity(commits, prs, releases, stars, issues, repoNames) == Tally(recent[..i])
    {
      var event := recent[i];
      ghost var before := GithubActivity(commits, prs, releases, stars, issues, repoNames);
      if event.repoName !in repoNames {
        repoNames := repoNames + [event.repoName];
      }
      ghost var after := Record(before, event);
      assert repoNames == after.repoNames;
      match event.kind {
        case "PushEvent" =>
          commits := commits + (if event.commits.Some? then |event.commits.value| else 0);
        case "PullRequestEvent" =>
          if event.action == Some("opened") { prs := prs + 1; }
        case "ReleaseEvent" =>
          if event.action == Some("published") { releases := releases + 1; }
        case "WatchEvent" =>
          if event.action == Some("started") { stars := stars + 1; }
        case "IssuesEvent" =>
          if event.action == Some("opened") { issues := issues + 1; }
        case _ =>
      }
      assert commits == after.commits && prs == after.prs && releases == after.releases;
      assert stars == after.stars && issues == after.issues;
      TallyPrefix(recent, i);
      i := i + 1;
    }
    assert recent[..i] == recent;
    activity := GithubActivity(commits, prs, releases, stars, issues, repoNames);
  }

  /** `getGithubActivity()`: `null` without a username or when the fetch
      throws; otherwise the tally of the events created after `since`. */
  method GetGithubActivity(username: Option<string>, response: Result<seq<Event>, string>, since: int)
    returns (r: Option<GithubActivity>)
    ensures !Truthy(username) ==> r == None
    ensures Truthy(username) && response.Err? ==> r == None
    ensures Truthy(username) && response.Ok? ==> r == Some(Tally(RecentEvents(response.value, since)))
  {
    if !Truthy(username) {
      return None;
    }
    match response {
      case Err(_) =>
        r := None;
      case Ok(events) =>
        var recentEvents := RecentEvents(events, since);
        var activity := Aggregate(recentEvents);
        r := Some(activity);
    }
  }
}
