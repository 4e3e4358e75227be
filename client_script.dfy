/** The Cloud Controller client as the organization tests drive it: each call
    returns a stubbed response and records the arguments it was called with,
    so that the number of calls and their arguments can be inspected. */
module ClientScript {
  import opened Ccv2

  /** The responses GetJob hands out: the one stubbed for a given call index
      when there is one, otherwise the default. */
  datatype JobStub = JobStub(onCall: map<nat, Response<Job>>, default: Response<Job>) {
    function ForCall(i: nat): Response<Job>
    {
      if i in onCall then onCall[i] else default
    }
  }

  const ZeroJob := Job("", "", "")

  class ScriptedCloudControllerClient {
    var getOrganizationsReturns: Response<seq<Organization>>
    var getOrganizationsArgs: seq<seq<Query>>
    var deleteOrganizationReturns: Response<Job>
    var deleteOrganizationArgs: seq<string>
    var getJobStub: JobStub
    var getJobArgs: seq<string>

    /** A client with nothing stubbed (every call returns zero values) and no calls made. */
    constructor ()
      ensures getOrganizationsReturns == Response([], [], None)
      ensures deleteOrganizationReturns == Response(ZeroJob, [], None)
      ensures getJobStub == JobStub(map[], Response(ZeroJob, [], None))
      ensures getOrganizationsArgs == [] && deleteOrganizationArgs == [] && getJobArgs == []
    {
      getOrganizationsReturns := Response([], [], None);
      deleteOrganizationReturns := Response(ZeroJob, [], None);
      getJobStub := JobStub(map[], Response(ZeroJob, [], None));
      getOrganizationsArgs, deleteOrganizationArgs, getJobArgs := [], [], [];
    }

    /** Lists the organizations matching `queries`. */
    method GetOrganizations(queries: seq<Query>) returns (orgs: seq<Organization>, warnings: Warnings, err: Option<ClientError>)
      modifies this`getOrganizationsArgs
      ensures getOrganizationsArgs == old(getOrganizationsArgs) + [queries]
      ensures Response(orgs, warnings, err) == getOrganizationsReturns
    {
      getOrganizationsArgs := getOrganizationsArgs + [queries];
      orgs, warnings, err := getOrganizationsReturns.result, getOrganizationsReturns.warnings, getOrganizationsReturns.err;
    }

    /** Starts deleting the organization `guid`; the job tracks the deletion. */
    method DeleteOrganization(guid: string) returns (job: Job, warnings: Warnings, err: Option<ClientError>)
      modifies this`deleteOrganizationArgs
      ensures deleteOrganizationArgs == old(deleteOrganizationArgs) + [guid]
      ensures Response(job, warnings, err) == deleteOrganizationReturns
    {
      deleteOrganizationArgs := deleteOrganizationArgs + [guid];
      job, warnings, err := deleteOrganizationReturns.result, deleteOrganizationReturns.warnings, deleteOrganizationReturns.err;
    }

    /** Fetches the current state of the job `guid`; the n-th call gets the response stubbed for call n. */
    method GetJob(guid: string) returns (job: Job, warnings: Warnings, err: Option<ClientError>)
      modifies this`getJobArgs
      ensures getJobArgs == old(getJobArgs) + [guid]
      ensures Response(job, warnings, err) == getJobStub.ForCall(|old(getJobArgs)|)
    {
      var response := getJobStub.ForCall(|getJobArgs|);
      getJobArgs := getJobArgs + [guid];
      job, warnings, err := response.result, response.warnings, response.err;
    }
  }
}
