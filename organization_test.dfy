/** The organization test scenarios: each method stubs the client as the
    scenario does, runs the action and promises what the scenario expects.
    `timeout` stands for the one-second overall polling timeout, which leaves
    room for at least one GetJob attempt. */
module OrganizationTest {
  import opened Ccv2
  import opened ClientScript
  import opened V2Action
  import Strings

  method NewActor(timeout: nat) returns (actor: Actor)
    ensures fresh(actor.client) && actor.config == Config(timeout)
    ensures actor.client.getOrganizationsArgs == [] && actor.client.deleteOrganizationArgs == []
    ensures actor.client.getJobArgs == []
  {
    var client := new ScriptedCloudControllerClient();
    actor := new Actor(client, Config(timeout));
  }

  /** There is only one organization by the given name: it is returned with the listing's warnings. */
  method GetsTheOnlyOrganization(timeout: nat) returns (org: Organization, warnings: Warnings,
                                                         err: Option<ActorError>, queries: seq<seq<Query>>)
    ensures org.guid == "some-org-guid" && err == None
    ensures warnings == ["warning-1", "warning-2"]
    ensures queries == [[Query(NameFilter, EqualOperator, "some-org")]]
  {
    var actor := NewActor(timeout);
    actor.client.getOrganizationsReturns := Response([Organization("some-org-guid", "")], ["warning-1", "warning-2"], None);
    org, warnings, err := actor.GetOrganizationByName("some-org");
    queries := actor.client.getOrganizationsArgs;
  }

  /** The organization is not found: a not-found error naming it, and the warnings. */
  method GetReportsOrganizationNotFound(timeout: nat) returns (warnings: Warnings, err: Option<ActorError>)
    ensures warnings == ["get-org-warning"]
    ensures err == Some(OrganizationNotFound("some-org"))
  {
    var actor := NewActor(timeout);
    actor.client.getOrganizationsReturns := Response([], ["get-org-warning"], None);
    var _, w, e := actor.GetOrganizationByName("some-org");
    warnings, err := w, e;
  }

  /** More than one organization is found: the error lists both GUIDs, and the warnings are returned. */
  method GetReportsMultipleGuids(timeout: nat) returns (warnings: Warnings, err: Option<ActorError>)
    ensures warnings == ["get-org-warning"]
    ensures err == Some(MultipleGuids("some-org", ["org-1-guid", "org-2-guid"]))
    ensures MultipleGuidsMessage(err.value.name, err.value.guids) ==
      "Organization name 'some-org' matches multiple GUIDs: org-1-guid, org-2-guid"
  {
    var actor := NewActor(timeout);
    actor.client.getOrganizationsReturns :=
      Response([Organization("org-1-guid", ""), Organization("org-2-guid", "")], ["get-org-warning"], None);
    var _, w, e := actor.GetOrganizationByName("some-org");
    warnings, err := w, e;
    assert err.value.guids == ["org-1-guid", "org-2-guid"];
    SomeOrgMultipleGuidsMessage();
  }

  /** The message the scenario expects, spelt out. */
  lemma SomeOrgMultipleGuidsMessage()
    ensures MultipleGuidsMessage("some-org", ["org-1-guid", "org-2-guid"]) ==
      "Organization name 'some-org' matches multiple GUIDs: org-1-guid, org-2-guid"
  {
    SomeOrgPrefix();
    TwoGuidsJoined();
  }

  lemma SomeOrgPrefix()
    ensures MultipleGuidsPrefix("some-org") == "Organization name 'some-org' matches multiple GUIDs: "
  {
  }

  lemma TwoGuidsJoined()
    ensures Strings.Join(["org-1-guid", "org-2-guid"], ", ") == "org-1-guid, org-2-guid"
  {
  }

  /** Listing the organizations fails: that error and the warnings are returned. */
  method GetReturnsListingError(timeout: nat) returns (warnings: Warnings, err: Option<ActorError>)
    ensures warnings == ["get-org-warning"]
    ensures err == Some(Passthrough(ClientError("get-orgs-error")))
  {
    var actor := NewActor(timeout);
    actor.client.getOrganizationsReturns := Response([], ["get-org-warning"], Some(ClientError("get-orgs-error")));
    var _, w, e := actor.GetOrganizationByName("some-org");
    warnings, err := w, e;
  }

  /** The organization is deleted: no error, all three calls' warnings, one call of each kind
      with the name query, the organization's GUID and the job's GUID. */
  method DeletesTheOrganization(timeout: nat) returns (warnings: Warnings, err: Option<ActorError>,
      queries: seq<seq<Query>>, deleted: seq<string>, polled: seq<string>)
    requires timeout >= 1
    ensures err == None
    ensures warnings == ["get-org-warning", "delete-org-warning", "polling-warnings"]
    ensures queries == [[Query(NameFilter, EqualOperator, "some-org")]]
    ensures deleted == ["some-org-guid"]
    ensures polled == ["some-job-guid"]
  {
    var actor := NewActor(timeout);
    var job := Job("some-job-guid", JobStatusFinished, "");
    actor.client.getOrganizationsReturns := Response([Organization("some-org-guid", "")], ["get-org-warning"], None);
    actor.client.deleteOrganizationReturns := Response(job, ["delete-org-warning"], None);
    actor.client.getJobStub := JobStub(map[], Response(job, ["polling-warnings"], None));
    warnings, err := actor.DeleteOrganization("some-org");
    queries, deleted, polled := actor.client.getOrganizationsArgs, actor.client.deleteOrganizationArgs, actor.client.getJobArgs;
  }

  /** Looking the organization up fails: the same not-found error and only the lookup's warnings. */
  method DeleteReportsOrganizationNotFound(timeout: nat) returns (warnings: Warnings, err: Option<ActorError>)
    ensures warnings == ["get-org-warning"]
    ensures err == Some(OrganizationNotFound("some-org"))
  {
    var actor := NewActor(timeout);
    actor.client.getOrganizationsReturns := Response([], ["get-org-warning"], None);
    warnings, err := actor.DeleteOrganization("some-org");
  }

  /** The delete call fails: that error, with the lookup's and the delete's warnings. */
  method DeleteReturnsDeleteError(timeout: nat) returns (warnings: Warnings, err: Option<ActorError>)
    ensures err == Some(Passthrough(ClientError("delete-org-error")))
    ensures warnings == ["get-org-warning", "delete-org-warning"]
  {
    var actor := NewActor(timeout);
    actor.client.getOrganizationsReturns := Response([Organization("org-1-guid", "")], ["get-org-warning"], None);
    actor.client.deleteOrganizationReturns := Response(ZeroJob, ["delete-org-warning"], Some(ClientError("delete-org-error")));
    warnings, err := actor.DeleteOrganization("some-org");
  }

  /** Polling the job fails: that error, with the warnings of all three calls. */
  method DeleteReturnsPollingError(timeout: nat) returns (warnings: Warnings, err: Option<ActorError>)
    requires timeout >= 1
    ensures warnings == ["get-org-warning", "delete-org-warning", "polling-warnings"]
    ensures err == Some(Passthrough(ClientError("Never expected, by anyone")))
  {
    var actor := NewActor(timeout);
    var job := Job("some-job-guid", "", "");
    actor.client.getOrganizationsReturns := Response([Organization("some-org-guid", "")], ["get-org-warning"], None);
    actor.client.deleteOrganizationReturns := Response(job, ["delete-org-warning"], None);
    actor.client.getJobStub := JobStub(map[], Response(job, ["polling-warnings"], Some(ClientError("Never expected, by anyone"))));
    warnings, err := actor.DeleteOrganization("some-org");
  }
}
