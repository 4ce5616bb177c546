/** src/monitor/vercel.js: the deployments of the last 24 hours (the API
    applies the `since` filter itself) are narrowed to the finished or
    building ones and reshaped into report records. The HTTP call is an
    input: the decoded `deployments` list, or the message of whatever the
    request or the list access threw. */
module VercelMonitor {
  import opened Wrappers
  import opened Js
  import Seqs

  /** The fields of one entry of `response.data.deployments` that are read;
      timestamps are milliseconds, `None` where the field is absent. */
  datatype ApiDeployment = ApiDeployment(
    name: string,
    state: string,
    url: Option<string>,
    buildingAt: Option<int>,
    readyAt: Option<int>,
    created: int)

  /** One report record; `duration` is in seconds. */
  datatype Deployment = Deployment(
    project: string,
    status: string,
    url: Option<string>,
    duration: Option<real>,
    createdAt: int)

  datatype VercelReport = VercelReport(deployments: seq<Deployment>)

  const RelevantStates: seq<string> := ["READY", "ERROR", "BUILDING"]

  predicate IsRelevant(d: ApiDeployment)
  {
    d.state in RelevantStates
  }

  /** A JavaScript number in a condition: absent and 0 are falsy. */
  predicate TruthyNumber(n: Option<int>)
  {
    n.Some? && n.value != 0
  }

  /** The `map` callback. */
  function ToRecord(d: ApiDeployment): (r: Deployment)
    ensures r.project == d.name && r.status == d.state && r.createdAt == d.created
    ensures r.url.Some? <==> Truthy(d.url)
    ensures r.url.Some? ==> r.url.value == "https://" + d.url.value
    ensures r.duration.Some? <==> TruthyNumber(d.buildingAt) && TruthyNumber(d.readyAt)
    ensures r.duration.Some? ==> r.duration.value * 1000.0 == (d.readyAt.value - d.buildingAt.value) as real
  {
    Deployment(
      d.name,
      d.state,
      if Truthy(d.url) then Some("https://" + d.url.value) else None,
      if TruthyNumber(d.buildingAt) && TruthyNumber(d.readyAt)
      then Some((d.readyAt.value - d.buildingAt.value) as real / 1000.0)
      else None,
      d.created)
  }

  /** The report records for a list of fetched deployments. */
  function Relevant(ds: seq<ApiDeployment>): (r: seq<Deployment>)
    ensures |r| <= |ds|
    ensures forall i :: 0 <= i < |r| ==> r[i].status in RelevantStates
  {
    Seqs.Map(Seqs.Filter(ds, IsRelevant), ToRecord)
  }

  /** Deployments are handled one by one: the records of a concatenation
      are the concatenation of the records. */
  lemma RelevantAppend(a: seq<ApiDeployment>, b: seq<ApiDeployment>)
    ensures Relevant(a + b) == Relevant(a) + Relevant(b)
  {
    Seqs.FilterAppend(a, b, IsRelevant);
    Seqs.MapAppend(Seqs.Filter(a, IsRelevant), Seqs.Filter(b, IsRelevant), ToRecord);
  }

  /** A single deployment yields its record exactly when its state is relevant. */
  lemma RelevantSingle(d: ApiDeployment)
    ensures Relevant([d]) == if IsRelevant(d) then [ToRecord(d)] else []
  {
    assert [d][..0] == [];
  }

  /** Every relevant deployment of the input is reported, and every
      reported record comes from a relevant deployment of the input. */
  lemma {:induction false} RelevantReportsExactlyTheMatches(ds: seq<ApiDeployment>)
    ensures forall i :: 0 <= i < |ds| && IsRelevant(ds[i]) ==> ToRecord(ds[i]) in Relevant(ds)
    ensures forall k :: 0 <= k < |Relevant(ds)| ==>
              exists i :: 0 <= i < |ds| && IsRelevant(ds[i]) && Relevant(ds)[k] == ToRecord(ds[i])
  {
    var f := Seqs.Filter(ds, IsRelevant);
    forall i | 0 <= i < |ds| && IsRelevant(ds[i])
      ensures ToRecord(ds[i]) in Relevant(ds)
    {
      var k :| 0 <= k < |f| && f[k] == ds[i];
      assert Relevant(ds)[k] == ToRecord(ds[i]);
    }
    forall k | 0 <= k < |Relevant(ds)|
      ensures exists i :: 0 <= i < |ds| && IsRelevant(ds[i]) && Relevant(ds)[k] == ToRecord(ds[i])
    {
      var i :| 0 <= i < |ds| && ds[i] == f[k];
      assert IsRelevant(ds[i]) && Relevant(ds)[k] == ToRecord(ds[i]);
    }
  }

  /** `getVercelDeployments()`: `null` without a token or when the request
      fails; otherwise the records of the relevant deployments. */
  function GetVercelDeployments(token: Option<string>, response: Result<seq<ApiDeployment>, string>)
    : (r: Option<VercelReport>)
    ensures !Truthy(token) ==> r == None
    ensures Truthy(token) && response.Err? ==> r == None
    ensures Truthy(token) && response.Ok? ==> r == Some(VercelReport(Relevant(response.value)))
  {
    if !Truthy(token) then None
    else match response
      case Err(_) => None
      case Ok(ds) => Some(VercelReport(Relevant(ds)))
  }
}
