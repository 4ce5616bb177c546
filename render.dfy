/** src/monitor/render.js: every service is asked for its latest deploys,
    the ones created after `since` are appended to one list, and a service
    whose deploy request fails is skipped. Both HTTP calls are inputs: the
    decoded service list (or the message its request threw) and, per
    service id, the decoded deploy list (or the message). */
module RenderMonitor {
  import opened Wrappers
  import opened Js
  import Seqs

  /** `service.service.id` and `service.service.name`. */
  datatype Service = Service(id: string, name: string)

  /** `deploy.deploy.status` and `deploy.deploy.createdAt` (a timestamp). */
  datatype ApiDeploy = ApiDeploy(status: string, createdAt: int)

  datatype RenderEntry = RenderEntry(service: string, status: string, createdAt: int)

  datatype RenderReport = RenderReport(deploys: seq<RenderEntry>)

  /** The per-service `GET /services/{id}/deploys` request. */
  type DeploysFetch = string -> Result<seq<ApiDeploy>, string>

  function CreatedAfter(since: int): ApiDeploy -> bool
  {
    (d: ApiDeploy) => d.createdAt > since
  }

  /** The object pushed for one deploy of `s`. */
  function EntryOf(s: Service): ApiDeploy -> RenderEntry
  {
    (d: ApiDeploy) => RenderEntry(s.name, d.status, d.createdAt)
  }

  /** The entries pushed for the deploys of `s` created after `since`. */
  function NewEntries(s: Service, deploys: seq<ApiDeploy>, since: int): seq<RenderEntry>
  {
    if deploys == [] then []
    else
      var d := deploys[|deploys| - 1];
      NewEntries(s, deploys[..|deploys| - 1], since)
      + if d.createdAt > since then [RenderEntry(s.name, d.status, d.createdAt)] else []
  }

  /** `NewEntries` is the source's `filter` followed by the `forEach` push. */
  lemma {:induction false} NewEntriesIsFilterThenMap(s: Service, deploys: seq<ApiDeploy>, since: int)
    ensures NewEntries(s, deploys, since) == Seqs.Map(Seqs.Filter(deploys, CreatedAfter(since)), EntryOf(s))
  {
    if deploys != [] {
      var p, d := deploys[..|deploys| - 1], deploys[|deploys| - 1];
      assert deploys == p + [d];
      NewEntriesIsFilterThenMap(s, p, since);
      Seqs.FilterAppend(p, [d], CreatedAfter(since));
      assert [d][..0] == [];
      Seqs.MapAppend(Seqs.Filter(p, CreatedAfter(since)), Seqs.Filter([d], CreatedAfter(since)), EntryOf(s));
    }
  }

  /** What one service contributes: nothing when its request fails, else its
      recent deploys labelled with the service name. */
  function ServiceEntries(s: Service, fetch: DeploysFetch, since: int): seq<RenderEntry>
  {
    match fetch(s.id)
    case Err(_) => []
    case Ok(deploys) => NewEntries(s, deploys, since)
  }

  function ServiceEntriesOf(fetch: DeploysFetch, since: int): Service -> seq<RenderEntry>
  {
    (s: Service) => ServiceEntries(s, fetch, since)
  }

  /** The `recentDeploys` list after the services have been visited in order. */
  function RecentDeploys(services: seq<Service>, fetch: DeploysFetch, since: int): seq<RenderEntry>
  {
    Seqs.FlatMap(services, ServiceEntriesOf(fetch, since))
  }

  lemma RecentDeploysPrefix(services: seq<Service>, k: nat, fetch: DeploysFetch, since: int)
    requires k < |services|
    ensures RecentDeploys(services[..k + 1], fetch, since)
         == RecentDeploys(services[..k], fetch, since) + ServiceEntries(services[k], fetch, since)
  {
    assert services[..k + 1][..k] == services[..k];
  }

  /** Services are handled one after the other: the deploys of a
      concatenation are the concatenation of the deploys. */
  lemma RecentDeploysAppend(a: seq<Service>, b: seq<Service>, fetch: DeploysFetch, since: int)
    ensures RecentDeploys(a + b, fetch, since) == RecentDeploys(a, fetch, since) + RecentDeploys(b, fetch, since)
  {
    Seqs.FlatMapAppend(a, b, ServiceEntriesOf(fetch, since));
  }

  /** A service whose deploy request fails contributes nothing and does not
      disturb the services around it. */
  lemma FailingServiceSkipped(a: seq<Service>, s: Service, b: seq<Service>, fetch: DeploysFetch, since: int)
    requires fetch(s.id).Err?
    ensures RecentDeploys(a + [s] + b, fetch, since) == RecentDeploys(a, fetch, since) + RecentDeploys(b, fetch, since)
  {
    RecentDeploysAppend(a + [s], b, fetch, since);
    RecentDeploysAppend(a, [s], fetch, since);
    assert [s][..0] == [];
  }

  /** One service's entries carry its name and were created after `since`. */
  lemma {:induction false} NewEntriesRecentAndNamed(s: Service, deploys: seq<ApiDeploy>, since: int)
    ensures forall i :: 0 <= i < |NewEntries(s, deploys, since)| ==>
              NewEntries(s, deploys, since)[i].service == s.name && NewEntries(s, deploys, since)[i].createdAt > since
  {
    if deploys != [] {
      var d := deploys[|deploys| - 1];
      var rp := NewEntries(s, deploys[..|deploys| - 1], since);
      var last := if d.createdAt > since then [RenderEntry(s.name, d.status, d.createdAt)] else [];
      NewEntriesRecentAndNamed(s, deploys[..|deploys| - 1], since);
      var r := NewEntries(s, deploys, since);
      assert r == rp + last;
      forall i | 0 <= i < |r|
        ensures r[i].service == s.name && r[i].createdAt > since
      {
        if i < |rp| {
          assert r[i] == rp[i];
        } else {
          assert r[i] == last[i - |rp|];
        }
      }
    }
  }

  /** Every entry was created after `since` and names one of the listed services. */
  lemma {:induction false} EntriesRecentAndNamed(services: seq<Service>, fetch: DeploysFetch, since: int)
    ensures forall i :: 0 <= i < |RecentDeploys(services, fetch, since)| ==>
              RecentDeploys(services, fetch, since)[i].createdAt > since
              && exists j :: 0 <= j < |services| && RecentDeploys(services, fetch, since)[i].service == services[j].name
  {
    if services != [] {
      var p, s := services[..|services| - 1], services[|services| - 1];
      EntriesRecentAndNamed(p, fetch, since);
      if fetch(s.id).Ok? {
        NewEntriesRecentAndNamed(s, fetch(s.id).value, since);
      }
      var r, rp, rs := RecentDeploys(services, fetch, since), RecentDeploys(p, fetch, since), ServiceEntries(s, fetch, since);
      assert r == rp + rs;
      forall i | 0 <= i < |r|
        ensures r[i].createdAt > since && exists j :: 0 <= j < |services| && r[i].service == services[j].name
      {
        if i < |rp| {
          assert r[i] == rp[i];
          var j :| 0 <= j < |p| && rp[i].service == p[j].name;
          assert services[j] == p[j];
        } else {
          assert r[i] == rs[i - |rp|];
          assert r[i].service == services[|services| - 1].name;
        }
      }
    }
  }

  /** The body of the per-service `try`: keep the deploys created after
      `since` and push one entry per deploy onto `recentDeploys`. */
  method PushNewDeploys(service: Service, deploys: seq<ApiDeploy>, since: int, recentDeploys: seq<RenderEntry>)
    returns (updated: seq<RenderEntry>)
    ensures updated == recentDeploys + NewEntries(service, deploys, since)
  {
    var newDeploys := Seqs.Filter(deploys, CreatedAfter(since));
    updated := recentDeploys;
    var j := 0;
    while j < |newDeploys|
      invariant 0 <= j <= |newDeploys|
      invariant updated == recentDeploys + Seqs.Map(newDeploys[..j], EntryOf(service))
    {
      var deploy := newDeploys[j];
      updated := updated + [RenderEntry(service.name, deploy.status, deploy.createdAt)];
      assert newDeploys[..j + 1][..j] == newDeploys[..j];
      j := j + 1;
    }
    assert newDeploys[..j] == newDeploys;
    NewEntriesIsFilterThenMap(service, deploys, since);
  }

  /** `getRenderDeploys()`: `null` without an API key or when the service
      list cannot be fetched; otherwise the recent deploys of all services. */
  method GetRenderDeploys(apiKey: Option<string>, services: Result<seq<Service>, string>, fetch: DeploysFetch, since: int)
    returns (r: Option<RenderReport>)
    ensures !Truthy(apiKey) ==> r == None
    ensures Truthy(apiKey) && services.Err? ==> r == None
    ensures Truthy(apiKey) && services.Ok? ==> r == Some(RenderReport(RecentDeploys(services.value, fetch, since)))
  {
    if !Truthy(apiKey) {
      return None;
    }
    if services.Err? {
      return None;
    }
    var all := services.value;
    var recentDeploys: seq<RenderEntry> := [];
    var k := 0;
    while k < |all|
      invariant 0 <= k <= |all|
      invariant recentDeploys == RecentDeploys(all[..k], fetch, since)
    {
      var service := all[k];
      match fetch(service.id) {
        case Err(_) =>
        case Ok(deploys) =>
          recentDeploys := PushNewDeploys(service, deploys, since, recentDeploys);
      }
      RecentDeploysPrefix(all, k, fetch, since);
      k := k + 1;
    }
    assert all[..k] == all;
    r := Some(RenderReport(recentDeploys));
  }
}
