/** The organization actions of the v2 actor: finding an organization by name
    and deleting one, which waits for the deletion job to finish. */
module V2Action {
  import opened Ccv2
  import opened Strings
  import opened ClientScript

  /** The errors the organization actions return. */
  datatype ActorError =
    | OrganizationNotFound(name: string)
      /** More than one organization carries the name; `guids` in the order listed. */
    | MultipleGuids(name: string, guids: seq<string>)
      /** A client error, returned unchanged. */
    | Passthrough(cause: ClientError)
    | JobFailed(jobGuid: string, message: string)
    | JobTimeout(jobGuid: string)

  /** Polling budget handed to the actor: `overallPollingTimeout` is the number
      of GetJob attempts that fit before the deadline passes. */
  datatype Config = Config(overallPollingTimeout: nat)

  const ZeroOrganization := Organization("", "")

  // ---------------------------------------------------------------------------
  // Resolving a name

  /** The one query clause sent to find an organization by name. */
  function NameQuery(name: string): seq<Query>
  {
    [Query(NameFilter, EqualOperator, name)]
  }

  /** The GUIDs of `orgs`, in the same order. */
  function Guids(orgs: seq<Organization>): (guids: seq<string>)
    ensures |guids| == |orgs|
    ensures forall i :: 0 <= i < |orgs| ==> guids[i] == orgs[i].guid
  {
    if orgs == [] then [] else [orgs[0].guid] + Guids(orgs[1..])
  }

  function MultipleGuidsPrefix(name: string): string
  {
    "Organization name '" + name + "' matches multiple GUIDs: "
  }

  /** The text of the error reported when several organizations carry `name`. */
  function MultipleGuidsMessage(name: string, guids: seq<string>): string
  {
    MultipleGuidsPrefix(name) + Join(guids, ", ")
  }

  /** The message names the organization and then lists every GUID, in order:
      reading the list after the fixed prefix back gives exactly `guids`. */
  lemma MultipleGuidsMessageListsEveryGuid(name: string, guids: seq<string>)
    requires |guids| > 0
    requires forall i :: 0 <= i < |guids| ==> ',' !in guids[i]
    ensures var m, p := MultipleGuidsMessage(name, guids), MultipleGuidsPrefix(name);
      |p| <= |m| && m[..|p|] == p && Split(m[|p|..], ", ") == guids
  {
    var m, p := MultipleGuidsMessage(name, guids), MultipleGuidsPrefix(name);
    assert m[|p|..] == Join(guids, ", ");
    SplitJoin(guids, ", ");
  }

  /** The outcome of looking an organization up by name. */
  datatype Lookup = Lookup(org: Organization, warnings: Warnings, err: Option<ActorError>)

  /** What GetOrganizationByName makes of the listing response `listing`. */
  function Resolve(name: string, listing: Response<seq<Organization>>): Lookup
  {
    if listing.err.Some? then Lookup(ZeroOrganization, listing.warnings, Some(Passthrough(listing.err.value)))
    else if |listing.result| == 0 then Lookup(ZeroOrganization, listing.warnings, Some(OrganizationNotFound(name)))
    else if |listing.result| > 1 then Lookup(ZeroOrganization, listing.warnings, Some(MultipleGuids(name, Guids(listing.result))))
    else Lookup(listing.result[0], listing.warnings, None)
  }

  /** The lookup decides by the number of organizations listed, and always returns the listing's warnings. */
  lemma ResolveDecidesByCount(name: string, listing: Response<seq<Organization>>)
    ensures var r := Resolve(name, listing);
      // the listing's warnings are returned whatever the outcome
      && r.warnings == listing.warnings
      // a client error is returned unchanged, without looking at the result
      && (listing.err.Some? ==> r.err == Some(Passthrough(listing.err.value)))
      // success exactly when the listing has one organization, which is returned
      && (r.err == None <==> listing.err == None && |listing.result| == 1)
      && (r.err == None ==> r.org == listing.result[0])
      && (r.err.Some? ==> r.org == ZeroOrganization)
      // an empty listing means not found, under the name asked for
      && (r.err == Some(OrganizationNotFound(name)) <==> listing.err == None && |listing.result| == 0)
      // two or more: the error lists every GUID in the order of the listing
      && (r.err.Some? && r.err.value.MultipleGuids? <==> listing.err == None && |listing.result| >= 2)
      && (r.err.Some? && r.err.value.MultipleGuids? ==>
            r.err.value.name == name && |r.err.value.guids| == |listing.result| &&
            forall i :: 0 <= i < |listing.result| ==> r.err.value.guids[i] == listing.result[i].guid)
  {
  }

  // ---------------------------------------------------------------------------
  // Polling a job

  /** A GetJob response ends the polling when it is a client error or the job finished or failed. */
  predicate EndsPolling(response: Response<Job>)
  {
    response.err.Some? || response.result.status == JobStatusFinished || response.result.status == JobStatusFailed
  }

  /** What the poller reports once `response` has ended the polling. */
  function Verdict(jobGuid: string, response: Response<Job>): Option<ActorError>
    requires EndsPolling(response)
  {
    if response.err.Some? then Some(Passthrough(response.err.value))
    else if response.result.status == JobStatusFinished then None
    else Some(JobFailed(jobGuid, response.result.error))
  }

  /** The outcome of polling: the warnings gathered, the error, and how many GetJob calls were made. */
  datatype PollResult = PollResult(warnings: Warnings, err: Option<ActorError>, polls: nat)

  /** Polling job `jobGuid` when the next GetJob call is call number `call`
      and `timeout` more attempts fit before the deadline. */
  function Poll(jobGuid: string, jobs: JobStub, call: nat, timeout: nat): PollResult
    decreases timeout
  {
    if timeout == 0 then PollResult([], Some(JobTimeout(jobGuid)), 0)
    else
      var response := jobs.ForCall(call);
      if EndsPolling(response) then PollResult(response.warnings, Verdict(jobGuid, response), 1)
      else
        var rest := Poll(jobGuid, jobs, call + 1, timeout - 1);
        PollResult(response.warnings + rest.warnings, rest.err, rest.polls + 1)
  }

  /** Never more GetJob calls than the timeout allows; the deadline is checked before each
      attempt, so no budget means no call, and any budget means at least one call. */
  lemma {:induction false} PollCallsWithinBudget(jobGuid: string, jobs: JobStub, call: nat, timeout: nat)
    ensures var r := Poll(jobGuid, jobs, call, timeout);
      r.polls <= timeout && (r.polls == 0 <==> timeout == 0)
    decreases timeout
  {
    if timeout > 0 && !EndsPolling(jobs.ForCall(call)) {
      PollCallsWithinBudget(jobGuid, jobs, call + 1, timeout - 1);
    }
  }

  /** The warnings of `n` consecutive GetJob calls from call number `from`, in call order. */
  function WarningsOfCalls(jobs: JobStub, from: nat, n: nat): Warnings
    decreases n
  {
    if n == 0 then [] else jobs.ForCall(from).warnings + WarningsOfCalls(jobs, from + 1, n - 1)
  }

  /** Polling stops at the first response that ends it, and reports that response's verdict;
      if no response within the budget ends it, every attempt was made and it times out. */
  lemma {:induction false} PollStopsAtFirstEnd(jobGuid: string, jobs: JobStub, call: nat, timeout: nat)
    ensures var r := Poll(jobGuid, jobs, call, timeout);
      (forall i :: call <= i < call + r.polls - 1 ==> !EndsPolling(jobs.ForCall(i))) &&
      if r.polls > 0 && EndsPolling(jobs.ForCall(call + r.polls - 1))
      then r.err == Verdict(jobGuid, jobs.ForCall(call + r.polls - 1))
      else r.polls == timeout && r.err == Some(JobTimeout(jobGuid))
    decreases timeout
  {
    if timeout > 0 && !EndsPolling(jobs.ForCall(call)) {
      PollStopsAtFirstEnd(jobGuid, jobs, call + 1, timeout - 1);
    }
  }

  /** Every GetJob call's warnings are kept, in call order. */
  lemma {:induction false} PollKeepsEveryWarning(jobGuid: string, jobs: JobStub, call: nat, timeout: nat)
    ensures var r := Poll(jobGuid, jobs, call, timeout);
      r.warnings == WarningsOfCalls(jobs, call, r.polls)
    decreases timeout
  {
    if timeout > 0 && !EndsPolling(jobs.ForCall(call)) {
      PollKeepsEveryWarning(jobGuid, jobs, call + 1, timeout - 1);
    }
  }

  /** Polling times out exactly when none of the responses within the budget ends it. */
  lemma PollTimesOutIffNoResponseEnds(jobGuid: string, jobs: JobStub, call: nat, timeout: nat)
    ensures Poll(jobGuid, jobs, call, timeout).err == Some(JobTimeout(jobGuid)) <==>
      forall i :: call <= i < call + timeout ==> !EndsPolling(jobs.ForCall(i))
  {
    var r := Poll(jobGuid, jobs, call, timeout);
    PollStopsAtFirstEnd(jobGuid, jobs, call, timeout);
    PollCallsWithinBudget(jobGuid, jobs, call, timeout);
    if r.polls > 0 && EndsPolling(jobs.ForCall(call + r.polls - 1)) {
      assert !(forall i :: call <= i < call + timeout ==> !EndsPolling(jobs.ForCall(i)));
    }
  }

  /** Polling succeeds exactly when the last GetJob call returned no error and a finished job. */
  lemma PollSucceedsIffLastPollFinished(jobGuid: string, jobs: JobStub, call: nat, timeout: nat)
    ensures var r := Poll(jobGuid, jobs, call, timeout);
      r.err == None <==>
        r.polls > 0 && jobs.ForCall(call + r.polls - 1).err == None &&
        jobs.ForCall(call + r.polls - 1).result.status == JobStatusFinished
  {
    PollStopsAtFirstEnd(jobGuid, jobs, call, timeout);
  }

  /** A poll result with `polls` earlier calls' `warnings` put in front. */
  function AfterPolls(warnings: Warnings, polls: nat, rest: PollResult): PollResult
  {
    PollResult(warnings + rest.warnings, rest.err, polls + rest.polls)
  }

  /** Putting two runs of earlier calls in front, one after the other. */
  lemma AfterPollsTwice(earlier: Warnings, polls: nat, next: Warnings, rest: PollResult)
    ensures AfterPolls(earlier, polls, AfterPolls(next, 1, rest)) == AfterPolls(earlier + next, polls + 1, rest)
  {
    assert earlier + (next + rest.warnings) == earlier + next + rest.warnings;
  }

  /** One attempt of the poller, unfolded. */
  lemma PollStep(jobGuid: string, jobs: JobStub, call: nat, timeout: nat)
    requires timeout > 0
    ensures EndsPolling(jobs.ForCall(call)) ==>
      Poll(jobGuid, jobs, call, timeout) == PollResult(jobs.ForCall(call).warnings, Verdict(jobGuid, jobs.ForCall(call)), 1)
    ensures !EndsPolling(jobs.ForCall(call)) ==>
      Poll(jobGuid, jobs, call, timeout) == AfterPolls(jobs.ForCall(call).warnings, 1, Poll(jobGuid, jobs, call + 1, timeout - 1))
  {
  }

  // ---------------------------------------------------------------------------
  // Deleting an organization

  /** `n` copies of `x`. */
  function Repeat<T>(x: T, n: nat): (s: seq<T>)
    ensures |s| == n && forall i :: 0 <= i < n ==> s[i] == x
  {
    if n == 0 then [] else Repeat(x, n - 1) + [x]
  }

  /** The outcome of a deletion, with the arguments of the delete and GetJob calls it made. */
  datatype DeleteResult = DeleteResult(warnings: Warnings, err: Option<ActorError>, deleted: seq<string>, polled: seq<string>)

  /** What DeleteOrganization does given the listing response, the delete response,
      the GetJob responses (the next call being number `call`) and the polling budget. */
  function Delete(name: string, listing: Response<seq<Organization>>, deletion: Response<Job>,
                  jobs: JobStub, call: nat, timeout: nat): DeleteResult
  {
    var lookup := Resolve(name, listing);
    if lookup.err.Some? then DeleteResult(lookup.warnings, lookup.err, [], [])
    else if deletion.err.Some? then
      DeleteResult(lookup.warnings + deletion.warnings, Some(Passthrough(deletion.err.value)), [lookup.org.guid], [])
    else
      var poll := Poll(deletion.result.guid, jobs, call, timeout);
      DeleteResult(lookup.warnings + deletion.warnings + poll.warnings, poll.err,
                   [lookup.org.guid], Repeat(deletion.result.guid, poll.polls))
  }

  /** Deletion stops at the first error: a failed lookup makes no further call, a failed
      delete is not polled, and every call made uses the GUID the step before produced. */
  lemma DeleteStopsAtFirstError(name: string, listing: Response<seq<Organization>>, deletion: Response<Job>,
                                jobs: JobStub, call: nat, timeout: nat)
    ensures var r, lookup := Delete(name, listing, deletion, jobs, call, timeout), Resolve(name, listing);
      // delete is called once, with the resolved GUID, exactly when the name resolves
      && r.deleted == (if lookup.err == None then [listing.result[0].guid] else [])
      // a failed lookup is returned as it is, with the listing's warnings only
      && (lookup.err.Some? ==> r.err == lookup.err && r.warnings == listing.warnings)
      // a failed delete is returned unchanged with the listing's and the delete's warnings
      && (|r.deleted| == 1 && deletion.err.Some? ==>
            r.err == Some(Passthrough(deletion.err.value)) && r.warnings == listing.warnings + deletion.warnings)
      // polling happens only after a successful delete, always for the job the delete returned
      && (|r.polled| > 0 ==> |r.deleted| == 1 && deletion.err == None)
      && forall i :: 0 <= i < |r.polled| ==> r.polled[i] == deletion.result.guid
  {
  }

  /** After a successful delete the job is polled at least once whenever the timeout allows
      one attempt, and never more often than the timeout allows. */
  lemma DeletePollsWithinBudget(name: string, listing: Response<seq<Organization>>, deletion: Response<Job>,
                                jobs: JobStub, call: nat, timeout: nat)
    requires Resolve(name, listing).err == None && deletion.err == None
    ensures var r := Delete(name, listing, deletion, jobs, call, timeout);
      |r.polled| <= timeout && (|r.polled| == 0 <==> timeout == 0)
  {
    PollCallsWithinBudget(deletion.result.guid, jobs, call, timeout);
  }

  /** Warnings of every call reached are returned, in call order: the listing's,
      then the delete's if it was called, then each poll's. */
  lemma DeleteKeepsEveryWarning(name: string, listing: Response<seq<Organization>>, deletion: Response<Job>,
                                jobs: JobStub, call: nat, timeout: nat)
    ensures var r := Delete(name, listing, deletion, jobs, call, timeout);
      r.warnings == listing.warnings + (if |r.deleted| == 1 then deletion.warnings else []) +
                    WarningsOfCalls(jobs, call, |r.polled|)
  {
    PollKeepsEveryWarning(deletion.result.guid, jobs, call, timeout);
  }

  /** A deletion succeeds exactly when the name resolves, the delete call succeeds and
      the job is seen finished; it then made one delete call and at least one GetJob call. */
  lemma DeleteSucceedsIffJobFinished(name: string, listing: Response<seq<Organization>>, deletion: Response<Job>,
                                     jobs: JobStub, call: nat, timeout: nat)
    ensures var r := Delete(name, listing, deletion, jobs, call, timeout);
      r.err == None <==>
        listing.err == None && |listing.result| == 1 && deletion.err == None && |r.polled| > 0 &&
        jobs.ForCall(call + |r.polled| - 1).err == None &&
        jobs.ForCall(call + |r.polled| - 1).result.status == JobStatusFinished
  {
    PollSucceedsIffLastPollFinished(deletion.result.guid, jobs, call, timeout);
  }

  /** An error from a GetJob call ends the deletion with that error, unchanged. */
  lemma DeleteReturnsPollError(name: string, listing: Response<seq<Organization>>, deletion: Response<Job>,
                               jobs: JobStub, call: nat, timeout: nat)
    ensures var r := Delete(name, listing, deletion, jobs, call, timeout);
      |r.polled| > 0 && jobs.ForCall(call + |r.polled| - 1).err.Some? ==>
        r.err == Some(Passthrough(jobs.ForCall(call + |r.polled| - 1).err.value))
  {
    PollStopsAtFirstEnd(deletion.result.guid, jobs, call, timeout);
  }

  /** The status of the job the delete call returns is never consulted: the job is
      polled even when the delete reports it finished already. */
  lemma DeleteIgnoresStatusOfDeletedJob(name: string, listing: Response<seq<Organization>>, deletion: Response<Job>,
                                        status: JobStatus, jobs: JobStub, call: nat, timeout: nat)
    ensures Delete(name, listing, deletion, jobs, call, timeout) ==
      Delete(name, listing, deletion.(result := deletion.result.(status := status)), jobs, call, timeout)
  {
  }

  // ---------------------------------------------------------------------------
  // The actor

  class Actor {
    const client: ScriptedCloudControllerClient
    const config: Config

    constructor (client: ScriptedCloudControllerClient, config: Config)
      ensures this.client == client && this.config == config
    {
      this.client := client;
      this.config := config;
    }

    /** Finds the one organization called `name`; sends one listing query with one name filter. */
    method GetOrganizationByName(name: string) returns (org: Organization, warnings: Warnings, err: Option<ActorError>)
      modifies client`getOrganizationsArgs
      ensures client.getOrganizationsArgs == old(client.getOrganizationsArgs) + [NameQuery(name)]
      ensures Lookup(org, warnings, err) == Resolve(name, client.getOrganizationsReturns)
    {
      var orgs, listWarnings, listErr := client.GetOrganizations(NameQuery(name));
      var lookup := Resolve(name, Response(orgs, listWarnings, listErr));
      org, warnings, err := lookup.org, lookup.warnings, lookup.err;
    }

    /** Polls job `job` until it finishes or fails, a call errs, or `timeout` attempts are used up. */
    method PollJob(job: Job, timeout: nat) returns (warnings: Warnings, err: Option<ActorError>)
      modifies client`getJobArgs
      ensures var r := Poll(job.guid, client.getJobStub, |old(client.getJobArgs)|, timeout);
        warnings == r.warnings && err == r.err &&
        client.getJobArgs == old(client.getJobArgs) + Repeat(job.guid, r.polls)
    {
      ghost var jobs, log := client.getJobStub, client.getJobArgs;
      ghost var first := |log|;
      ghost var whole := Poll(job.guid, jobs, first, timeout);
      ghost var rest, polls: nat := whole, 0;
      warnings := [];
      var remaining: nat := timeout;
      while remaining > 0
        invariant polls + remaining == timeout
        invariant client.getJobArgs == log + Repeat(job.guid, polls)
        invariant rest == Poll(job.guid, jobs, first + polls, remaining)
        invariant whole == AfterPolls(warnings, polls, rest)
      {
        ghost var next := Poll(job.guid, jobs, first + polls + 1, remaining - 1);
        PollStep(job.guid, jobs, first + polls, remaining);
        ghost var expected := jobs.ForCall(first + polls);
        var polled, pollWarnings, pollErr := client.GetJob(job.guid);
        var response := Response(polled, pollWarnings, pollErr);
        assert response == expected;
        AfterPollsTwice(warnings, polls, pollWarnings, next);
        warnings := warnings + pollWarnings;
        polls := polls + 1;
        if EndsPolling(response) {
          return warnings, Verdict(job.guid, response);
        }
        rest := next;
        remaining := remaining - 1;
      }
      err := Some(JobTimeout(job.guid));
    }

    /** Deletes the organization called `name` and waits for the deletion job,
        stopping at the first error and returning the warnings of every call made. */
    method DeleteOrganization(name: string) returns (warnings: Warnings, err: Option<ActorError>)
      modifies client`getOrganizationsArgs, client`deleteOrganizationArgs, client`getJobArgs
      ensures var r := Delete(name, client.getOrganizationsReturns, client.deleteOrganizationReturns,
                              client.getJobStub, |old(client.getJobArgs)|, config.overallPollingTimeout);
        warnings == r.warnings && err == r.err &&
        client.getOrganizationsArgs == old(client.getOrganizationsArgs) + [NameQuery(name)] &&
        client.deleteOrganizationArgs == old(client.deleteOrganizationArgs) + r.deleted &&
        client.getJobArgs == old(client.getJobArgs) + r.polled
    {
      var allWarnings: Warnings := [];
      var org, lookupWarnings, lookupErr := GetOrganizationByName(name);
      allWarnings := allWarnings + lookupWarnings;
      if lookupErr.Some? {
        return allWarnings, lookupErr;
      }
      var job, deleteWarnings, deleteErr := client.DeleteOrganization(org.guid);
      allWarnings := allWarnings + deleteWarnings;
      if deleteErr.Some? {
        return allWarnings, Some(Passthrough(deleteErr.value));
      }
      var pollWarnings, pollErr := PollJob(job, config.overallPollingTimeout);
      allWarnings := allWarnings + pollWarnings;
      return allWarnings, pollErr;
    }
  }
}
