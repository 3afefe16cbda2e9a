/** The provider id of a machine: "nomad:///", the job id, "/", the deployment id. */
module ProviderId {
  import opened Common

  const PREFIX := "nomad:///"

  function Format(jobID: string, deploymentID: string): string {
    PREFIX + jobID + "/" + deploymentID
  }

  /** Splits at the first '/'. */
  function Split(s: string): Option<(string, string)> {
    if s == [] then None
    else if s[0] == '/' then Some(([], s[1..]))
    else match Split(s[1..])
      case None => None
      case Some((head, tail)) => Some(([s[0]] + head, tail))
  }

  function Parse(s: string): Option<(string, string)> {
    if |s| < |PREFIX| || s[..|PREFIX|] != PREFIX then None else Split(s[|PREFIX|..])
  }

  lemma {:induction false} SplitFirst(job: string, rest: string)
    requires '/' !in job
    ensures Split(job + "/" + rest) == Some((job, rest))
  {
    var s := job + "/" + rest;
    if job == [] {
      assert s[1..] == rest;
    } else {
      SplitFirst(job[1..], rest);
      assert s[1..] == job[1..] + "/" + rest;
      assert [job[0]] + job[1..] == job;
    }
  }

  lemma {:induction false} SplitHasNoSlash(s: string)
    requires Split(s).Some?
    ensures '/' !in Split(s).value.0
  {
    if s[0] != '/' {
      SplitHasNoSlash(s[1..]);
    }
  }

  /** Both ids can be read back exactly when the job id holds no '/'. */
  lemma RoundTripIff(job: string, deployment: string)
    ensures Parse(Format(job, deployment)) == Some((job, deployment)) <==> '/' !in job
  {
    var s := Format(job, deployment);
    assert s[|PREFIX|..] == job + "/" + deployment;
    assert s[..|PREFIX|] == PREFIX;
    if '/' !in job {
      SplitFirst(job, deployment);
    } else if Split(job + "/" + deployment) == Some((job, deployment)) {
      SplitHasNoSlash(job + "/" + deployment);
      assert false;
    }
  }

  /** What a provider id looks like. */
  lemma FormatIs(job: string, deployment: string)
    ensures Format(job, deployment) == "nomad:///" + job + "/" + deployment
  {
  }

  /** Without the restriction two machines can share a provider id. */
  lemma SlashIsAmbiguous()
    ensures Format("a/b", "c") == Format("a", "b/c")
  {
    assert "a/b" + "/" + "c" == "a" + "/" + "b/c";
  }
}
