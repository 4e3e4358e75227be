# Organization actions of the Cloud Foundry CLI v2 actor

This project models the two organization actions of the CLI's v2 "actor", the
layer between the `cf` commands and the Cloud Controller v2 API, as their test
file `actor/v2action/organization_test.go` pins them down:

- **GetOrganizationByName(name)** sends one listing query with a single clause
  (name filter, equality operator, the name) and decides by the number of
  organizations listed: none is `OrganizationNotFound(name)`, one is the
  result, two or more is an error listing every GUID in listing order. A
  client error is returned unchanged. The listing's warnings are always returned.
- **DeleteOrganization(name)** resolves the name, calls delete with the GUID,
  then polls the returned job with GetJob until it finishes or fails, a call
  errs, or the overall polling timeout runs out. It stops at the first error
  and returns the warnings of every call it made, in call order.

Layout:

- `ccv2.dfy` (module `Ccv2`): queries, organizations, jobs, client errors and
  the `(result, warnings, error)` response triple.
- `client_script.dfy` (module `ClientScript`): the Cloud Controller client as
  stubbed responses. Each call records its arguments, so call counts and
  arguments can be inspected. GetJob can have a response stubbed per call
  index, with a default for the other calls.
- `strings.dfy` (module `Strings`): `Join`, like Go's `strings.Join`, and
  `Split`, its inverse on non-empty lists of parts free of the separator's first character.
- `organization.dfy` (module `V2Action`): the actor's errors, the pure
  specification (`Resolve`, `Poll`, `Delete`), the lemmas about it, and the
  `Actor` class. The class's methods call the client and are proved equal to
  the specification, including the calls they record on the client.
- `organization_test.dfy` (module `OrganizationTest`): each scenario of the
  test file as a method. Each one stubs the client like the scenario, runs the
  action and promises in its `ensures` what the scenario expects.

The overall polling timeout (one second in the test, line 23) is modelled as
the number of GetJob attempts that fit before the deadline. The deadline is
checked before every attempt, so a timeout of 0 makes no call. The scenarios
take any timeout of at least one attempt.

Two choices about errors:

- The test checks the multiple-match error only by its message text. The model
  keeps the name and the GUIDs in `MultipleGuids` and gives the text through
  `MultipleGuidsMessage`. `MultipleGuidsMessageListsEveryGuid` shows that no GUID
  is lost in the text.
- The timeout error carries the job GUID but not the elapsed time.

## Model

| member | source | states |
|---|---|---|
| `V2Action.ResolveDecidesByCount` | actor/v2action/organization_test.go:38-120 | The listing's warnings are returned in every case. A client error is passed through whatever was listed. Success holds exactly when exactly one organization is listed, and that organization is returned. An empty listing gives `OrganizationNotFound(name)`. Two or more give `MultipleGuids` with the name and every GUID in listing order. |
| `V2Action.Guids` | actor/v2action/organization_test.go:84-99 | The GUIDs of the listed organizations, one per organization, in listing order. |
| `V2Action.MultipleGuidsMessageListsEveryGuid` | actor/v2action/organization_test.go:96-100 | The multiple-GUIDs message starts with `Organization name '<name>' matches multiple GUIDs: `. Splitting the rest at `", "` gives back exactly the GUIDs, in order. |
| `Strings.SplitJoin` | actor/v2action/organization_test.go:98-99 | Joining GUIDs with `", "` loses nothing: splitting the joined text gives the list back. |
| `V2Action.PollCallsWithinBudget` | actor/v2action/organization_test.go:141-171 | Never more GetJob calls than the timeout allows. At least one call is made whenever the timeout allows one, and none when it does not. |
| `V2Action.PollStopsAtFirstEnd` | actor/v2action/organization_test.go:141-171 | Polling stops at the first response that is an error, a finished job or a failed job, and reports that response's verdict. Every earlier response was a job still running. If no response within the budget ends it, every attempt was made and it times out. |
| `V2Action.PollKeepsEveryWarning` | actor/v2action/organization_test.go:149-153 | The poller's warnings are those of every GetJob call it made, in call order. |
| `V2Action.PollTimesOutIffNoResponseEnds` | actor/v2action/organization_test.go:23 | Polling times out exactly when no response within the timeout ends it. |
| `V2Action.PollSucceedsIffLastPollFinished` | actor/v2action/organization_test.go:141-154 | Polling succeeds exactly when its last GetJob call returned no error and a finished job. |
| `V2Action.DeleteStopsAtFirstError` | actor/v2action/organization_test.go:124-242 | Delete is called once, with the resolved GUID, exactly when the name resolves. A failed lookup is returned with only the listing's warnings. A failed delete is returned unchanged with the listing's and the delete's warnings, and no poll follows. Every poll is for the GUID of the job the delete returned. |
| `V2Action.DeleteKeepsEveryWarning` | actor/v2action/organization_test.go:153-239 | The returned warnings are the listing's, then the delete's if delete was called, then those of every GetJob call made, in that order. |
| `V2Action.DeleteSucceedsIffJobFinished` | actor/v2action/organization_test.go:135-172 | Deletion succeeds exactly when the listing has one organization, the delete call succeeds, and the last GetJob call returns a finished job without error. At least one GetJob call was then made. |
| `V2Action.DeletePollsWithinBudget` | actor/v2action/organization_test.go:141-171 | After the name resolves and delete succeeds, the job is polled at least once whenever the timeout allows one attempt, and never more often than the timeout allows. |
| `V2Action.DeleteReturnsPollError` | actor/v2action/organization_test.go:220-242 | An error from the last GetJob call is the deletion's error, unchanged. |
| `V2Action.DeleteIgnoresStatusOfDeletedJob` | actor/v2action/organization_test.go:141-149 | The status of the job returned by delete does not change the outcome. A job reported finished by delete is still polled. |
| `V2Action.Actor.constructor` | actor/v2action/organization_test.go:20-25 | The actor keeps the client and the configuration it is built with. |
| `V2Action.Actor.GetOrganizationByName` | actor/v2action/organization_test.go:34-60 | Records exactly one listing call, whose query is the single clause name filter, equality operator, the name. Returns what `Resolve` makes of the stubbed listing response, so `ResolveDecidesByCount` describes its result. |
| `V2Action.Actor.PollJob` | actor/v2action/organization_test.go:141-171 | Calls GetJob with the job's GUID once per attempt. Its warnings, its error and the calls it records are those of `Poll`, which the `Poll*` lemmas describe. |
| `V2Action.Actor.DeleteOrganization` | actor/v2action/organization_test.go:131-172 | Its warnings, its error and the delete and GetJob calls it records are those of `Delete`, which the `Delete*` lemmas describe. It records exactly one listing call, with the name query. |
| `ClientScript.ScriptedCloudControllerClient.constructor` | actor/v2action/organization_test.go:20-21 | A fresh client has nothing stubbed and no calls recorded. |
| `ClientScript.ScriptedCloudControllerClient.GetOrganizations` | actor/v2action/organization_test.go:40-53 | Records the query and returns the stubbed listing response. |
| `ClientScript.ScriptedCloudControllerClient.DeleteOrganization` | actor/v2action/organization_test.go:146-166 | Records the GUID and returns the stubbed delete response. |
| `ClientScript.ScriptedCloudControllerClient.GetJob` | actor/v2action/organization_test.go:149-170 | Records the job GUID. Returns the response stubbed for this call's index, or the default one. |
| `OrganizationTest.GetsTheOnlyOrganization` | actor/v2action/organization_test.go:38-61 | With one organization listed, it is returned with warnings `warning-1`, `warning-2` and no error. One listing call is made, with the name query. |
| `OrganizationTest.GetReportsOrganizationNotFound` | actor/v2action/organization_test.go:63-80 | An empty listing gives `OrganizationNotFound("some-org")` and the warning `get-org-warning`. |
| `OrganizationTest.GetReportsMultipleGuids` | actor/v2action/organization_test.go:82-101 | Two organizations listed give the error `Organization name 'some-org' matches multiple GUIDs: org-1-guid, org-2-guid` and the warning `get-org-warning`. |
| `OrganizationTest.SomeOrgMultipleGuidsMessage` | actor/v2action/organization_test.go:98-99 | The message for `some-org` and two GUIDs, spelt out. |
| `OrganizationTest.GetReturnsListingError` | actor/v2action/organization_test.go:103-121 | A listing error `get-orgs-error` is returned unchanged with the warning `get-org-warning`. |
| `OrganizationTest.DeletesTheOrganization` | actor/v2action/organization_test.go:135-173 | With a finished job, deletion succeeds. The warnings are `get-org-warning`, `delete-org-warning`, `polling-warnings`. There is one listing call with the name query, one delete of `some-org-guid` and one GetJob of `some-job-guid`. |
| `OrganizationTest.DeleteReportsOrganizationNotFound` | actor/v2action/organization_test.go:175-192 | If the name is not found, deletion returns `OrganizationNotFound("some-org")` and only the lookup's warning. |
| `OrganizationTest.DeleteReturnsDeleteError` | actor/v2action/organization_test.go:194-218 | If delete fails, its error `delete-org-error` is returned with the lookup's and the delete's warnings. |
| `OrganizationTest.DeleteReturnsPollingError` | actor/v2action/organization_test.go:220-242 | If GetJob fails, its error is returned with the warnings of all three calls. |

## Left out

- Wall-clock time, sleeping between polls and the polling interval. The overall polling timeout is a count of GetJob attempts, not a duration.
- The real Cloud Controller HTTP client and the generated fakes. The client is only stubbed responses plus recorded arguments.
- The UAA client the actor is also built with (nil in the test).
- Organization fields other than GUID and name.
- The message text of errors other than the multiple-GUIDs one. Those texts are not fixed by the test.
- `Poll`: a job reported `failed` ends polling with `JobFailed(job GUID, the job's error text)`, and running out of attempts ends it with `JobTimeout(job GUID)`. The test exercises neither path, so both are this model's choice.
- Warning order: the test compares warnings as a multiset. The model fixes append order, which is a stronger promise.
