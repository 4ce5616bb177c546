/** src/formatter.js: the daily report (GitHub activity, Vercel deployments,
    Render deploys, each possibly missing) rendered as a LinkedIn post and
    as a tweet. Each formatter is a method that builds the text the way the
    source does, by appending to `content`, and is proved equal to the text
    of a structured post whose parts are stated in terms of the report. The
    date shown in the LinkedIn header comes from the clock and is a
    parameter here. */
module Formatter {
  import opened Wrappers
  import Seqs
  import Text
  import opened GithubMonitor
  import opened VercelMonitor
  import opened RenderMonitor

  /** The `{ github, vercel, render }` object; `None` is a monitor that returned `null`. */
  datatype ReportData = ReportData(
    github: Option<GithubActivity>,
    vercel: Option<VercelReport>,
    render: Option<RenderReport>)

  /** The commit count, 0 when the GitHub monitor returned nothing. */
  function TotalCommits(d: ReportData): (n: nat)
    ensures d.github.None? ==> n == 0
    ensures d.github.Some? ==> n == d.github.value.commits
  {
    if d.github.Some? then d.github.value.commits else 0
  }

  /** The number of Vercel deployments, 0 when the monitor returned nothing. */
  function VercelCount(d: ReportData): nat
  {
    if d.vercel.Some? then |d.vercel.value.deployments| else 0
  }

  /** The number of Render deploys, 0 when the monitor returned nothing. */
  function RenderCount(d: ReportData): nat
  {
    if d.render.Some? then |d.render.value.deploys| else 0
  }

  function TotalDeploys(d: ReportData): (n: nat)
    ensures n == 0 <==> VercelCount(d) == 0 && RenderCount(d) == 0
  {
    VercelCount(d) + RenderCount(d)
  }

  /** The services counter adds the same two lengths in the other order, so
      it always equals the deploys counter. */
  function TotalServices(d: ReportData): (n: nat)
    ensures n == TotalDeploys(d)
  {
    RenderCount(d) + VercelCount(d)
  }

  // ---------------------------------------------------------------- LinkedIn

  /** A count with the names listed after it. */
  datatype Summary = Summary(count: nat, names: seq<string>)

  /** What a LinkedIn post says: the date, the optional commit, Vercel and
      Render lines, and whether the "no major updates" line is present. */
  datatype LinkedInPost = LinkedInPost(
    date: string,
    commits: Option<Summary>,
    vercel: Option<Summary>,
    render: Option<Summary>,
    quiet: bool)

  function ProjectOf(d: Deployment): string
  {
    d.project
  }

  function ServiceOf(e: RenderEntry): string
  {
    e.service
  }

  /** The post the report calls for. */
  function LinkedInPostOf(d: ReportData, date: string): (p: LinkedInPost)
    ensures p.date == date
    ensures p.commits.Some? <==> TotalCommits(d) > 0
    ensures p.commits.Some? ==>
              d.github.Some? && p.commits.value == Summary(d.github.value.commits, d.github.value.repoNames)
    ensures p.vercel.Some? <==> VercelCount(d) > 0
    ensures p.vercel.Some? ==>
              d.vercel.Some? && p.vercel.value.count == |d.vercel.value.deployments|
              && p.vercel.value.names == Seqs.Map(d.vercel.value.deployments, ProjectOf)
    ensures p.render.Some? <==> RenderCount(d) > 0
    ensures p.render.Some? ==>
              d.render.Some? && p.render.value.count == |d.render.value.deploys|
              && p.render.value.names == Seqs.Map(d.render.value.deploys, ServiceOf)
    ensures p.quiet <==> TotalCommits(d) == 0 && TotalDeploys(d) == 0
  {
    LinkedInPost(
      date,
      if TotalCommits(d) > 0 then Some(Summary(d.github.value.commits, d.github.value.repoNames)) else None,
      if VercelCount(d) > 0
      then Some(Summary(|d.vercel.value.deployments|, Seqs.Map(d.vercel.value.deployments, ProjectOf)))
      else None,
      if RenderCount(d) > 0
      then Some(Summary(|d.render.value.deploys|, Seqs.Map(d.render.value.deploys, ServiceOf)))
      else None,
      TotalCommits(d) == 0 && TotalDeploys(d) == 0)
  }

  /** The "no major updates" line appears exactly when none of the three
      update lines does. */
  lemma QuietExactlyWhenNothingShipped(d: ReportData, date: string)
    ensures var p := LinkedInPostOf(d, date);
      p.quiet <==> p.commits.None? && p.vercel.None? && p.render.None?
  {
  }

  function LinkedInHeader(date: string): string
  {
    "🚀 Builder's Daily Log | " + date + "\n\n"
  }

  const WhatShipped := "What shipped today:\n"

  function CommitsLine(s: Summary): string
  {
    "⚡ " + Text.NatToString(s.count) + " commits pushed across " + Text.Join(s.names, ", ") + "\n"
  }

  function VercelLine(s: Summary): string
  {
    "🟢 " + Text.NatToString(s.count) + " Vercel deploys went live — " + Text.Join(s.names, ", ") + "\n"
  }

  function RenderLine(s: Summary): string
  {
    "🔧 " + Text.NatToString(s.count) + " Render services updated — " + Text.Join(s.names, ", ") + "\n"
  }

  const QuietLine := "No major updates today, but the grind continues behind the scenes. 🛠️\n"
  const BiggestWin := "\nBiggest win: Kept the momentum going. Consistency is key.\n\n"
  const BuildingInPublic := "Building in public. Every deploy counts. 🏗️\n\n"
  const Hashtags := "#buildinpublic #webdev #opensource #coding #developer"

  function OptionalLine(s: Option<Summary>, line: Summary -> string): string
  {
    if s.Some? then line(s.value) else ""
  }

  /** The text of a post, part after part. */
  function LinkedInText(p: LinkedInPost): string
  {
    LinkedInHeader(p.date) + WhatShipped
    + OptionalLine(p.commits, CommitsLine)
    + OptionalLine(p.vercel, VercelLine)
    + OptionalLine(p.render, RenderLine)
    + (if p.quiet then QuietLine else "")
    + BiggestWin + BuildingInPublic + Hashtags
  }

  /** The lines between "What shipped today:" and the closing paragraph. */
  function UpdateLines(p: LinkedInPost): string
  {
    OptionalLine(p.commits, CommitsLine)
    + OptionalLine(p.vercel, VercelLine)
    + OptionalLine(p.render, RenderLine)
    + (if p.quiet then QuietLine else "")
  }

  const Closing := BiggestWin + BuildingInPublic + Hashtags

  /** A post is its opening, its update lines and the fixed closing. */
  lemma LinkedInTextParts(p: LinkedInPost)
    ensures LinkedInText(p) == LinkedInHeader(p.date) + WhatShipped + UpdateLines(p) + Closing
  {
    var o := LinkedInHeader(p.date) + WhatShipped;
    var l1, l2, l3 := OptionalLine(p.commits, CommitsLine), OptionalLine(p.vercel, VercelLine), OptionalLine(p.render, RenderLine);
    var q := if p.quiet then QuietLine else "";
    Seqs.AppendAssoc(o, l1, l2);
    Seqs.AppendAssoc(o, l1 + l2, l3);
    Seqs.AppendAssoc(o, l1 + l2 + l3, q);
    var u := o + UpdateLines(p);
    Seqs.AppendAssoc(u, BiggestWin, BuildingInPublic);
    Seqs.AppendAssoc(u, BiggestWin + BuildingInPublic, Hashtags);
  }

  /** `formatForLinkedIn(data)` */
  method FormatForLinkedIn(d: ReportData, date: string) returns (content: string)
    ensures content == LinkedInText(LinkedInPostOf(d, date))
  {
    ghost var p := LinkedInPostOf(d, date);
    var totalCommits := TotalCommits(d);
    var totalDeploys := TotalDeploys(d);
    content := LinkedInHeader(date);
    content := content + WhatShipped;
    ghost var c0 := content;
    if totalCommits > 0 {
      content := content + CommitsLine(Summary(totalCommits, d.github.value.repoNames));
    }
    assert content == c0 + OptionalLine(p.commits, CommitsLine);
    ghost var c1 := content;
    if VercelCount(d) > 0 {
      var projects := Seqs.Map(d.vercel.value.deployments, ProjectOf);
      content := content + VercelLine(Summary(|d.vercel.value.deployments|, projects));
    }
    assert content == c1 + OptionalLine(p.vercel, VercelLine);
    ghost var c2 := content;
    if RenderCount(d) > 0 {
      var services := Seqs.Map(d.render.value.deploys, ServiceOf);
      content := content + RenderLine(Summary(|d.render.value.deploys|, services));
    }
    assert content == c2 + OptionalLine(p.render, RenderLine);
    ghost var c3 := content;
    if totalCommits == 0 && totalDeploys == 0 {
      content := content + QuietLine;
    }
    assert content == c3 + (if p.quiet then QuietLine else "");
    content := content + BiggestWin;
    content := content + BuildingInPublic;
    content := content + Hashtags;
  }

  /** Every LinkedIn post opens with the dated header and "What shipped
      today:" and closes with the hashtags. */
  lemma LinkedInFraming(p: LinkedInPost)
    ensures Text.StartsWith(LinkedInText(p), LinkedInHeader(p.date) + WhatShipped)
    ensures Text.EndsWith(LinkedInText(p), Hashtags)
  {
    var opening := LinkedInHeader(p.date) + WhatShipped;
    LinkedInTextParts(p);
    Seqs.AppendAssoc(opening, UpdateLines(p), Closing);
    Text.StartsWithConcat(opening, UpdateLines(p) + Closing);
    Seqs.AppendAssoc(opening + UpdateLines(p), BiggestWin + BuildingInPublic, Hashtags);
    Text.EndsWithConcat(opening + UpdateLines(p) + (BiggestWin + BuildingInPublic), Hashtags);
  }

  /** On a day with commits, the line right after "What shipped today:"
      gives their count and every repository name. */
  lemma LinkedInLeadsWithCommits(d: ReportData, date: string)
    requires TotalCommits(d) > 0
    ensures Text.StartsWith(LinkedInText(LinkedInPostOf(d, date)),
              LinkedInHeader(date) + WhatShipped + CommitsLine(Summary(TotalCommits(d), d.github.value.repoNames)))
  {
    var p := LinkedInPostOf(d, date);
    var o := LinkedInHeader(date) + WhatShipped;
    var line := CommitsLine(p.commits.value);
    var l2, l3 := OptionalLine(p.vercel, VercelLine), OptionalLine(p.render, RenderLine);
    var q := if p.quiet then QuietLine else "";
    LinkedInTextParts(p);
    Seqs.AppendAssoc(line, l2, l3);
    Seqs.AppendAssoc(line, l2 + l3, q);
    assert UpdateLines(p) == line + (l2 + l3 + q);
    Seqs.AppendAssoc(o, line, l2 + l3 + q);
    Seqs.AppendAssoc(o + line, l2 + l3 + q, Closing);
    Text.StartsWithConcat(o + line, l2 + l3 + q + Closing);
  }

  /** On a day with nothing shipped the post is the fixed quiet-day text. */
  lemma LinkedInQuietDay(d: ReportData, date: string)
    requires TotalCommits(d) == 0 && TotalDeploys(d) == 0
    ensures LinkedInText(LinkedInPostOf(d, date)) == LinkedInHeader(date) + WhatShipped + QuietLine + Closing
  {
    LinkedInTextParts(LinkedInPostOf(d, date));
    assert UpdateLines(LinkedInPostOf(d, date)) == QuietLine;
  }

  // ----------------------------------------------------------------- Twitter

  /** The three possible "Main highlight" lines. */
  datatype Highlight = PushedCode(repo: string) | DeployedUpdates | PlanningDay

  /** The first repository name, or the word "repos" when there is none or it is empty. */
  function FirstRepo(a: GithubActivity): (r: string)
    ensures r != ""
    ensures r == "repos" || (|a.repoNames| > 0 && r == a.repoNames[0])
    ensures |a.repoNames| > 0 && a.repoNames[0] != "" ==> r == a.repoNames[0]
  {
    if |a.repoNames| > 0 && a.repoNames[0] != "" then a.repoNames[0] else "repos"
  }

  function HighlightOf(d: ReportData): (h: Highlight)
    ensures h.PushedCode? <==> TotalCommits(d) > 0
    ensures h.PushedCode? ==> d.github.Some? && h.repo == FirstRepo(d.github.value)
    ensures h == DeployedUpdates <==> TotalCommits(d) == 0 && TotalDeploys(d) > 0
    ensures h == PlanningDay <==> TotalCommits(d) == 0 && TotalDeploys(d) == 0
  {
    if TotalCommits(d) > 0 then PushedCode(FirstRepo(d.github.value))
    else if TotalDeploys(d) > 0 then DeployedUpdates
    else PlanningDay
  }

  function HighlightLine(h: Highlight): string
  {
    match h
    case PushedCode(repo) => "Main highlight: Pushed code to " + repo + "\n"
    case DeployedUpdates => "Main highlight: Deployed updates to production\n"
    case PlanningDay => "Main highlight: Planning and refactoring day\n"
  }

  const TweetHeader := "🔨 Daily build log:\n"
  const TweetFooter := "Shipping daily 🚀 #buildinpublic"

  function CountsLine(commits: nat, deploys: nat, services: nat): string
  {
    "[" + Text.NatToString(commits) + "] commits | [" + Text.NatToString(deploys)
    + "] deploys | [" + Text.NatToString(services) + "] services updated\n"
  }

  function TweetText(d: ReportData): string
  {
    TweetHeader + CountsLine(TotalCommits(d), TotalDeploys(d), TotalServices(d))
    + HighlightLine(HighlightOf(d)) + TweetFooter
  }

  /** `formatForTwitter(data)` */
  method FormatForTwitter(d: ReportData) returns (content: string)
    ensures content == TweetText(d)
  {
    var totalCommits := TotalCommits(d);
    var totalDeploys := TotalDeploys(d);
    var totalServices := TotalServices(d);
    content := TweetHeader;
    content := content + CountsLine(totalCommits, totalDeploys, totalServices);
    ghost var counted := content;
    if totalCommits > 0 {
      content := content + ("Main highlight: Pushed code to " + FirstRepo(d.github.value) + "\n");
      assert content == counted + HighlightLine(HighlightOf(d));
    } else if totalDeploys > 0 {
      content := content + "Main highlight: Deployed updates to production\n";
      assert content == counted + HighlightLine(HighlightOf(d));
    } else {
      content := content + "Main highlight: Planning and refactoring day\n";
      assert content == counted + HighlightLine(HighlightOf(d));
    }
    content := content + TweetFooter;
  }

  /** Every tweet opens with the build-log header and closes with the footer. */
  lemma TweetFraming(d: ReportData)
    ensures Text.StartsWith(TweetText(d), TweetHeader)
    ensures Text.EndsWith(TweetText(d), TweetFooter)
  {
    var middle := CountsLine(TotalCommits(d), TotalDeploys(d), TotalServices(d)) + HighlightLine(HighlightOf(d));
    assert TweetText(d) == TweetHeader + (middle + TweetFooter);
    Text.StartsWithConcat(TweetHeader, middle + TweetFooter);
    assert TweetText(d) == (TweetHeader + middle) + TweetFooter;
    Text.EndsWithConcat(TweetHeader + middle, TweetFooter);
  }

  /** The tweet shows the deploys count twice (as deploys and as services). */
  lemma TweetRepeatsDeployCount(d: ReportData)
    ensures var n := TotalDeploys(d);
      TweetText(d) == TweetHeader + CountsLine(TotalCommits(d), n, n) + HighlightLine(HighlightOf(d)) + TweetFooter
  {
  }

  /** The tweet depends only on the three totals and the first repository
      name: deployment, service and other repository names do not show. */
  lemma TweetDependsOnTotalsOnly(d: ReportData, e: ReportData)
    requires TotalCommits(d) == TotalCommits(e) && TotalDeploys(d) == TotalDeploys(e)
    requires TotalCommits(d) > 0 ==> FirstRepo(d.github.value) == FirstRepo(e.github.value)
    ensures TweetText(d) == TweetText(e)
  {
  }
}
