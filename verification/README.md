# LayerRail control plane: a verified model

This project models, in Dafny, the parts of the LayerRail control plane whose correctness depends on many steps
agreeing with each other, and proves what those parts promise.

- **GitHub deliveries.** Webhooks are recorded once, leased to workers under a token, renewed, taken over when stale,
  finished, or drained when a connection is suspended or revoked. `ProviderTables` holds the rows and the effect of each
  SQL function; `ProviderStore` is the imperative form with rollback, proved against it; `ProviderRuns` is the state
  machine over any interleaving and its invariant. `LeaseHistory` reads a delivery's row off its history of lease events,
  `ConnectionHistory` reads a connection's row off the webhooks and reconnections, `WebhookRows` says which call every row
  tells of and whose rows no call touches, and `GithubWebhook` is the handler that makes the calls. `ProviderEffects`
  covers deactivation, hints, repository lists and the retry budget, `ProviderReplay` covers redelivery, and
  `ProviderExamples` holds concrete runs that show where a promise stops.
- **Delivery jobs.** Jobs claim, prepare fetches, acquire sources outside any transaction, complete and finish; several
  interleave with each other and with webhooks. `DeliveryJobs` is the specification, `JobStore` the two transactions as
  imperative code, `FetchOrder` the order of fetches in a lane, `JobRuns` the invariant over all runs, `JobPromises` the
  results. `PreparedFetches` says which bindings a delivery is prepared for and on whose authority, `JobBeginnings` and
  `JobOutcomes` tell both transactions from the delivery's row and the answers, `FetchOrigins` and `BindingNotes` follow
  fetches, deployments and bindings over runs, `PullRequestOrder` says when an older pull request delivery is passed
  over, and `JobExamples` is a run in which it is not.
- **Outbox and email.** Two queues handed out in batches (`Batches`): `Outbox`, `OutboxDrain` and `OutboxStore`;
  `Email`, `EmailHistory`, `EmailEndings` and `EmailStore`.
- **Identifiers.** Prefixed UUIDv7 texts as Go and as Ruby build and read them: `Bits`, `HexText`, `PlatformId`,
  `GoPlatformId`, `RubyPlatformId`. The layout is that of section 5.7 of RFC 9562.
- **Canonical JSON.** `JsonText`, `CanonicalJson`, `JsonReader` and `CanonicalUnique`.
- **Source upload and deployment states.** `SourceUpload`, `Deployments` and `DeploymentWalk`.

`Sql`, `Sorting` and `Patterns` hold NULL and three-valued logic, stable sorting, and the text patterns.

## How things are modelled

Each SQL function call, and each of the two transactions of a job, is one atomic step over table values; the clock is
read once per step and passed as an argument. NULL is `None`, and a condition acts only when it is TRUE. A row's id is
its position in its table. The session's organization and memberships are a `Context`. What the model cannot see is an
argument: which account is elected as actor, whether authorization permits a fetch (`permitted`), what acquisition,
verification and deployment creation answer (`Answers`), which upload addresses are acceptable and which parts the
store takes. The loop that walks a deployment to a state is modelled turn by turn, since it need not end. Text is
ordered by character codes. Argument values a function treats alike are one constructor (`UnlistedEvent`,
`OtherAction`, ...).

## Where the code does not do what one would expect

- A claim with a NULL lease token is granted. It breaks the equivalence of processing state and token, and nobody can
  finish such a lease (`LeaseHistory.ClaimKeepsLeases`, `LeaseHistory.TokenlessLeaseCannotFinish`). The job always
  passes its id.
- Removing repeated delivery ids preserves a run exactly when the first call for every id decides
  (`ProviderReplay.ReplayRefinement`); one made before the installation is connected, or while its organization has no
  active member, must not be taken for the delivery (`ProviderExamples.UnacceptableFirstCallMatters`).
- A push or pull request call that also deactivates its connection answers `work_pending` although its row is ignored
  at once (`ProviderEffects.HintForNewDelivery`, `ProviderExamples.SuspendingPushIsMisled`). The webhook handler,
  `apps/control-plane/app/services/source_providers/github_webhook.rb`, sets a connection status on installation events
  only, so it makes no such call.
- JSON nulls inside a repository list pass validation, and removing any other name drops them from the stored list
  (`ProviderExamples.NullNameIsStoredAndDropped`), so removal is set difference exactly when no null is stored or one is
  given (`ProviderEffects.RemoveIsDifferenceIff`). The webhook handler checks every name it passes on.
- A pull request delivery that reuses a complete fetch leaves no trace, so an older delivery may overtake it
  (`JobExamples.OlderPullRequestOvertakes`), and exactly then or when it gets no fetch of its own
  (`PullRequestOrder.PassedOverIff`); pushes cannot overtake.
- A worker that gives no name, or one of over 128 characters, cannot finish what it claims, be it an event
  (`Outbox.FinishableIff`) or an email (`Email.FinishableIff`). The event can be handed out again after two minutes; the
  email is stuck, for no timeout takes it back (`EmailEndings.ClaimerCanReturnIff`).
- The two-minute clause of the email claim never applies: a sending email is reclaimed only after its holder gives it
  back (`EmailHistory.SingleHolder`, `EmailEndings.AbandonedIsNeverReclaimed`), and a bounce can be overwritten by the
  worker that still holds the email (`EmailEndings.ReportIsFinalIff`).
- The server accepts part counts for which the client's cut has an empty last chunk
  (`SourceUpload.AcceptedCountMayFail`); the count the command line asks for is never one of them.
- The loop that walks a deployment to `canceling` never ends for a deployment that has no artifact yet or has failed:
  the search always finds the way through `retrying` first. Once there is an artifact it walks forward through
  scheduling, starting and verifying before it cancels (`DeploymentWalk.WalkEndsIff`).

## Model

| member | source | states |
|---|---|---|
| `ProviderStore.Store.ApplyDelivery` | apps/control-plane/db/migrate/20260713013000_add_github_source_provider_boundary.rb:271-486 | the imperative body, with its inserts, updates and rollback, leaves the tables and returns the answer that `Apply` and `ApplyOutcome` describe |
| `ProviderStore.Store.InsertDelivery` | apps/control-plane/db/migrate/20260713013000_add_github_source_provider_boundary.rb:398-409 | the row is inserted only if every NOT NULL column is filled and neither its public id nor its external delivery id is taken; otherwise nothing changes |
| `ProviderStore.Store.UpdateDependents` | apps/control-plane/db/migrate/20260713013000_add_github_source_provider_boundary.rb:426-449 | bindings of a connection that loses their repository are detached, and its waiting deliveries are ignored on deactivation |
| `ProviderStore.Store.InsertEvents` | apps/control-plane/db/migrate/20260713013000_add_github_source_provider_boundary.rb:452-478 | outbox and audit rows are inserted together or the call fails |
| `ProviderStore.Store.ClaimDelivery` | apps/control-plane/db/migrate/20260713013000_add_github_source_provider_boundary.rb:495-539 | a claim changes exactly the claimed row and answers claimed, busy, complete or unknown |
| `ProviderStore.Store.FinishDelivery` | apps/control-plane/db/migrate/20260713013000_add_github_source_provider_boundary.rb:542-570 | a finish changes exactly the row whose token it presents and says whether it did |
| `ProviderRuns.CommitKeepsInv` | apps/control-plane/db/migrate/20260713013000_add_github_source_provider_boundary.rb:358-478 | a committed webhook keeps the whole invariant: unique ids, connected deliveries, received ones on active connections, well-formed and stamped rows, one outbox and one audit row per delivery |
| `ProviderRuns.WellFormedInsert` | apps/control-plane/db/migrate/20260713013000_add_github_source_provider_boundary.rb:271-334 | under three-valued validation and the NOT NULL columns, a row that is recorded live is a push or pull request with repository, ref and commit |
| `ProviderRuns.ClaimKeepsInv` | apps/control-plane/db/migrate/20260713013000_add_github_source_provider_boundary.rb:505-538 | a claim keeps the invariant |
| `ProviderRuns.FinishKeepsInv` | apps/control-plane/db/migrate/20260713013000_add_github_source_provider_boundary.rb:552-570 | a finish keeps the invariant |
| `ProviderRuns.ConnectKeepsInv` | apps/control-plane/app/services/source_providers/connect_github_installation.rb:20-38 | connecting or reconnecting an installation keeps the invariant |
| `ProviderRuns.BindKeepsInv` | apps/control-plane/app/services/source_providers/connect_project.rb:21-37 | binding a project keeps the invariant |
| `ProviderRuns.RunKeepsInv` | apps/control-plane/db/migrate/20260713013000_add_github_source_provider_boundary.rb:109-142 | every state reachable by any interleaving satisfies the invariant; in particular every live delivery is well formed and delivery, outbox and audit rows are equal in number |
| `ProviderRuns.RowsPersist` | apps/control-plane/db/migrate/20260713013000_add_github_source_provider_boundary.rb:398-450 | no step removes, reorders or rewrites a delivery's webhook columns, and processed and ignored rows never change again |
| `ProviderRuns.RunKeepsRows` | apps/control-plane/db/migrate/20260713013000_add_github_source_provider_boundary.rb:398-450 | the same over whole runs |
| `ConnectionHistory.ConnectionFollows` | apps/control-plane/db/migrate/20260713013000_add_github_source_provider_boundary.rb:411-424 | over every run a connection's status, selection, login, account, revocation time and webhook time are what a committed webhook or a reconnection last wrote there |
| `ConnectionHistory.WorkIsTakenIff` | apps/control-plane/db/migrate/20260713013000_add_github_source_provider_boundary.rb:377-379 | a committing push or pull request that offers work is taken, and hinted as work, iff the last status written is active |
| `ConnectionHistory.WorkResumes` | apps/control-plane/db/migrate/20260713013000_add_github_source_provider_boundary.rb:411-424 | in particular right after a call that lifts a suspension |
| `WebhookRows.RowTellsCall` | apps/control-plane/db/migrate/20260713013000_add_github_source_provider_boundary.rb:398-478 | every delivery, outbox and audit row on every run holds exactly the content of the one call that recorded it |
| `WebhookRows.RowsAreShaped` | apps/control-plane/db/migrate/20260713013000_add_github_source_provider_boundary.rb:271-334 | every row has the formats of its columns and the fields of its event: pushes have a commit iff they do not delete, pull requests are never forced, installation events carry nothing of a repository |
| `WebhookRows.InstallationsAreApart` | apps/control-plane/db/migrate/20260713013000_add_github_source_provider_boundary.rb:426-450 | webhooks and reconnections of other installations leave a connection, its bindings and its deliveries as they are |
| `WebhookRows.WorkLeavesList` | apps/control-plane/db/migrate/20260713013000_add_github_source_provider_boundary.rb:295-317 | pushes and pull requests leave the repository list alone |
| `WebhookRows.MismatchIsNoWork` | apps/control-plane/db/migrate/20260713013000_add_github_source_provider_boundary.rb:363-375 | a delivery id reused for other content changes nothing, is answered as a mismatch and is never work |
| `WebhookRows.ChangedRowIsStamped` | apps/control-plane/db/migrate/20260713013000_add_github_source_provider_boundary.rb:441-449 | a delivery row that a step changes carries the time of that step |
| `WebhookRows.WebhooksKeepPresentable` | apps/control-plane/db/migrate/20260713013000_add_github_source_provider_boundary.rb:281-294 | what webhooks write to a connection has the right form |
| `WebhookRows.BindsIff` | apps/control-plane/app/services/source_providers/connect_project.rb:21-37 | a project is bound iff the connection is the organization's, active and lists the repository; then as asked for, and no other binding changes |
| `WebhookRows.OneBindingEach` | apps/control-plane/app/services/source_providers/connect_project.rb:21-37 | on every run a project has at most one binding |
| `GithubWebhook.AcceptedIff` | apps/control-plane/app/services/source_providers/github_webhook.rb:50-147 | a payload the handler passes on is accepted by the provider function iff its installation id, its texts and its numbers are sound; nothing else about a call the handler builds is ever refused |
| `GithubWebhook.WebhookIsWorkIff` | apps/control-plane/app/services/source_providers/github_webhook.rb:59-94 | a recorded webhook is work iff it is a push that does not delete or a pull request opened, reopened or pushed to, and the last status given to its installation is active |
| `GithubWebhook.WebhookSetsStatus` | apps/control-plane/app/services/source_providers/github_webhook.rb:95-109 | installation events move the connection to the state they name, and no other webhook does |
| `GithubWebhook.WebhookChangesList` | apps/control-plane/app/services/source_providers/github_webhook.rb:95-123 | a new installation brings its repository list, and repositories are added and removed by name; no other webhook changes the list |
| `GithubWebhook.RowTellsPayload` | apps/control-plane/app/services/source_providers/github_webhook.rb:59-94 | the row a webhook leaves says what its payload said |
| `LeaseHistory.HistoryIsLegal` | apps/control-plane/db/migrate/20260713013000_add_github_source_provider_boundary.rb:495-570 | on every run each delivery's history of claims, finishes and drains obeys the lease rules, and state, token, start time and attempt count are exactly what that history says |
| `LeaseHistory.LeaseSafety` | apps/control-plane/db/migrate/20260713013000_add_github_source_provider_boundary.rb:505-538 | another token takes over only more than 20 minutes after the last claim or renewal; only the holder finishes; nothing follows a final state |
| `LeaseHistory.DisplacedStaysDisplaced` | apps/control-plane/db/migrate/20260713013000_add_github_source_provider_boundary.rb:505-538 | a token without the lease stays without it until one of its claims is granted |
| `LeaseHistory.DisplacedFinishIsRefused` | apps/control-plane/db/migrate/20260713013000_add_github_source_provider_boundary.rb:552-570 | a displaced token's finish is refused and changes nothing, at every later point of every run, until it claims again |
| `LeaseHistory.ClaimKeepsLeases` | apps/control-plane/db/migrate/20260713013000_add_github_source_provider_boundary.rb:505-524 | processing, token and start time stay equivalent across a claim if and only if the claim carries a token or the id it names is not, for the caller, a delivery that waits or has a stale lease |
| `LeaseHistory.LeasesStayComplete` | apps/control-plane/db/migrate/20260713013000_add_github_source_provider_boundary.rb:495-570 | while claims carry tokens, every reachable row is processing iff it has a token iff it has a start time |
| `LeaseHistory.TokenlessLeaseCannotFinish` | apps/control-plane/db/migrate/20260713013000_add_github_source_provider_boundary.rb:552-570 | a lease taken with a NULL token can be finished by nobody |
| `LeaseHistory.LegalHistoriesHappen` | apps/control-plane/db/migrate/20260713013000_add_github_source_provider_boundary.rb:495-570 | conversely, every history the rules allow, drains included, is the history of some run of claims, finishes and a deactivating webhook |
| `ProviderExamples.TokenlessClaimIsGranted` | apps/control-plane/db/migrate/20260713013000_add_github_source_provider_boundary.rb:505-524 | a reachable claim with a NULL token that is granted and breaks the equivalence |
| `ProviderEffects.InactiveNeverGrows` | apps/control-plane/db/migrate/20260713013000_add_github_source_provider_boundary.rb:377-379 | while a connection stays suspended or revoked its set of live deliveries never grows |
| `ProviderEffects.DeactivationKeepsLeasedOnly` | apps/control-plane/db/migrate/20260713013000_add_github_source_provider_boundary.rb:441-449 | right after deactivation exactly the deliveries being processed are live |
| `ProviderEffects.DeactivationDrains` | apps/control-plane/db/migrate/20260713013000_add_github_source_provider_boundary.rb:434-450 | and as long as it stays inactive only those can be live |
| `ProviderEffects.HintAgreesWithLease` | apps/control-plane/db/migrate/20260713013000_add_github_source_provider_boundary.rb:364-375 | for an identical redelivery on an active connection `work_pending` is true iff a claim by a token not holding the lease is granted at that instant; the other answers are busy and complete, never unknown |
| `ProviderEffects.HintForNewDelivery` | apps/control-plane/db/migrate/20260713013000_add_github_source_provider_boundary.rb:480-486 | for a newly recorded delivery the hint says whether the stored row waits, with one exact exception: the call that itself deactivates the connection |
| `ProviderExamples.SuspendingPushIsMisled` | apps/control-plane/db/migrate/20260713013000_add_github_source_provider_boundary.rb:441-486 | the exception happens: a push that suspends its own connection is recorded, answered with work pending, and ignored at once |
| `ProviderEffects.RepositoriesRefineSet` | apps/control-plane/db/migrate/20260713013000_add_github_source_provider_boundary.rb:381-396 | over every run a connection's repository list holds exactly the fold of unions, differences and replacements of the deliveries applied |
| `ProviderEffects.RemoveIsDifferenceIff` | apps/control-plane/db/migrate/20260713013000_add_github_source_provider_boundary.rb:389-396 | removal is set difference iff no JSON null is stored or one is among the names removed |
| `ProviderExamples.NullNameIsStoredAndDropped` | apps/control-plane/db/migrate/20260713013000_add_github_source_provider_boundary.rb:381-396 | a JSON null among added names is stored, and removing another name drops it |
| `ProviderEffects.RepositoriesStaySorted` | apps/control-plane/db/migrate/20260713013000_add_github_source_provider_boundary.rb:381-396 | it stays strictly sorted if the replacements were |
| `ProviderEffects.ConnectedNamesSorted` | apps/control-plane/app/services/source_providers/connect_github_installation.rb:15-18 | the list stored on connecting is strictly sorted |
| `ProviderEffects.DetachedAtMostOnce` | apps/control-plane/db/migrate/20260713013000_add_github_source_provider_boundary.rb:426-440 | a call raises a binding's generation by at most one, and only when it detaches it |
| `ProviderEffects.GenerationsNeverDecrease` | apps/control-plane/db/migrate/20260713013000_add_github_source_provider_boundary.rb:426-440 | no run lowers a binding's generation |
| `ProviderEffects.RetryOutlastsDeadLease` | apps/control-plane/app/jobs/process_github_delivery_job.rb:6-35 | a job that keeps retrying against a lease nobody renews, finishes or drains is granted the delivery within 42 attempts: if every attempt so far was refused, at most 41 of its 50 were made and each was answered busy |
| `ProviderEffects.FortySecondIsGranted` | apps/control-plane/app/jobs/process_github_delivery_job.rb:6-35 | after 41 refusals 30 seconds apart the next attempt is granted |
| `ProviderEffects.FortyOneAttemptsMayFail` | apps/control-plane/app/jobs/process_github_delivery_job.rb:6-35 | 41 attempts 30 seconds apart would not suffice |
| `ProviderReplay.RecordedIff` | apps/control-plane/db/migrate/20260713013000_add_github_source_provider_boundary.rb:336-409 | a delivery id is recorded at the end of a run iff it was before or some call for it was acceptable when it was made |
| `ProviderReplay.DedupeKeepsRun` | apps/control-plane/db/migrate/20260713013000_add_github_source_provider_boundary.rb:358-478 | removing repeated delivery ids leaves connections, bindings, deliveries, outbox and audit exactly as they were, if the first call for every id decides |
| `ProviderReplay.DedupeLosesDelivery` | apps/control-plane/db/migrate/20260713013000_add_github_source_provider_boundary.rb:358-478 | and loses a delivery if for some id it does not |
| `ProviderReplay.ReplayRefinement` | apps/control-plane/db/migrate/20260713013000_add_github_source_provider_boundary.rb:358-478 | so replay refinement holds, for every run whose public ids are generated once, if and only if the first call for every id decides |
| `ProviderReplay.AcceptableCallsMayRepeat` | apps/control-plane/db/migrate/20260713013000_add_github_source_provider_boundary.rb:358-478 | a sender whose calls are all acceptable may repeat them freely: the tables equal those of the run without repeats, exactly the ids called for are recorded, and rows of the three kinds are equal in number |
| `ProviderExamples.UnacceptableFirstCallMatters` | apps/control-plane/db/migrate/20260713013000_add_github_source_provider_boundary.rb:336-409 | a push delivered while its organization has no active member, and again when it has one: dropping the repeat loses the delivery |
| `JobStore.Store.StartFetch` | apps/control-plane/app/services/source_ingestion/fetch.rb:65-84 | starting a fetch refuses when the connection no longer authorizes the repository and otherwise marks it fetching |
| `JobStore.Store.FindOrAuthorize` | apps/control-plane/app/services/source_providers/delivery_processor.rb:87-103 | finds the one fetch of binding and delivery or creates it |
| `JobStore.Store.MarkSuperseded` | apps/control-plane/app/services/source_providers/delivery_processor.rb:105-109 | supersedes an earlier fetch once |
| `JobStore.Store.PreparePushBinding` | apps/control-plane/app/services/source_providers/delivery_processor.rb:47-69 | the push branch, with the validation every binding update makes, against its specification function |
| `JobStore.Store.PreparePullRequestBinding` | apps/control-plane/app/services/source_providers/delivery_processor.rb:71-85 | the pull request branch, against its specification function |
| `JobStore.Store.Prepare` | apps/control-plane/app/services/source_providers/delivery_processor.rb:7-19 | the loop over bindings returns the items, and makes the changes, of its specification |
| `JobStore.Store.Deploy` | apps/control-plane/app/services/deployments/create_from_source_fetch.rb:3-54 | creates a deployment only for a complete fetch that is deployable and has none |
| `JobStore.Store.CompleteItems` | apps/control-plane/app/jobs/process_github_delivery_job.rb:55-77 | the loop over acquisitions, with every error branch |
| `JobStore.Store.BeginWork` | apps/control-plane/app/jobs/process_github_delivery_job.rb:16-39 | the first transaction: claim, prepare, a failing finish if preparation raised, and how the job goes on: acquiring, returning, or raising one of its errors |
| `JobStore.Store.ConcludeWork` | apps/control-plane/app/jobs/process_github_delivery_job.rb:53-90 | the second transaction: complete, finish, and success reported only if the finish was accepted |
| `FetchOrder.LatestWins` | apps/control-plane/app/services/source_providers/delivery_processor.rb:47-85 | a fetch is superseded if and only if a later fetch of its lane exists |
| `FetchOrder.CurrentIsOpen` | apps/control-plane/app/services/source_providers/delivery_processor.rb:57-67 | a binding's current fetch is the last of its push lane and not superseded |
| `JobRuns.PushKeepsOrder` | apps/control-plane/app/services/source_providers/delivery_processor.rb:47-69 | preparing a push keeps fetches, lanes and bindings in order |
| `JobRuns.PullRequestKeepsOrder` | apps/control-plane/app/services/source_providers/delivery_processor.rb:71-85 | preparing a pull request keeps them in order |
| `JobRuns.PrepareFromFits` | apps/control-plane/app/services/source_providers/delivery_processor.rb:12-18 | preparing all bindings keeps the order and returns items whose fetches exist |
| `JobRuns.CompleteAllEffect` | apps/control-plane/app/jobs/process_github_delivery_job.rb:55-77 | completing items only advances work, and without an error every item's fetch is complete and deployed or not due |
| `JobRuns.BeginKeepsInv` | apps/control-plane/app/jobs/process_github_delivery_job.rb:16-32 | the first transaction keeps the job invariant |
| `JobRuns.ConcludeKeepsInv` | apps/control-plane/app/jobs/process_github_delivery_job.rb:53-86 | the second transaction keeps the job invariant |
| `JobRuns.JobRunKeepsInv` | apps/control-plane/app/jobs/process_github_delivery_job.rb:9-91 | every interleaving of jobs, webhooks, claims and finishes keeps it |
| `JobPromises.ExactlyOneEffect` | apps/control-plane/app/jobs/process_github_delivery_job.rb:16-90 | in every reachable world: one fetch per binding and delivery, one deployment per fetch, deployments to production iff for a push, one success per delivery, and a push, or a pull request with a stored action, is processed iff a job reported it |
| `JobPromises.SuccessMeansDone` | apps/control-plane/app/jobs/process_github_delivery_job.rb:53-90 | a job reports success only while holding the lease, and then its delivery is processed and every prepared fetch is complete with its deployment created or not due |
| `JobPromises.LostLeaseReportsNothing` | apps/control-plane/app/jobs/process_github_delivery_job.rb:79-90 | a job that lost its lease reports nothing and changes no delivery, whatever its acquisitions achieved |
| `JobPromises.NewDeploymentsWereDue` | apps/control-plane/app/services/deployments/create_from_source_fetch.rb:3-54 | every deployment created by a transaction was deployable when it ended |
| `JobPromises.OnlyTheLatestIsDeployed` | apps/control-plane/app/services/deployments/create_from_source_fetch.rb:46-54 | a deployment is created only for a fetch nothing later in its lane has replaced; for a push, the binding's current one |
| `JobPromises.BindingsGoForward` | apps/control-plane/app/services/source_providers/delivery_processor.rb:47-67 | on every run the last push a binding noted never goes back |
| `JobPromises.OlderPushIsPassedOver` | apps/control-plane/app/services/source_providers/delivery_processor.rb:48-49 | so a push older than one noted is passed over for good |
| `PreparedFetches.PushSkips` | apps/control-plane/app/services/source_providers/delivery_processor.rb:47-50 | a push is passed over, without a trace, iff its binding noted a later delivery or its ref is not the binding's branch |
| `PreparedFetches.PrepareBindingDoes` | apps/control-plane/app/services/source_providers/delivery_processor.rb:35-85 | a binding is skipped iff it is not automatic, not of the delivery's connection, repository or branch, or a later delivery got there first; otherwise a fetch of the delivery's commit is used iff one is complete or may be started, a new one only where permitted and from an active connection that lists the repository |
| `PreparedFetches.PreparedIff` | apps/control-plane/app/services/source_providers/delivery_processor.rb:7-19 | the whole preparation goes through iff every binding that wants the delivery has a fetch available |
| `PreparedFetches.PreparationYields` | apps/control-plane/app/services/source_providers/delivery_processor.rb:7-19 | then its items are fetches of the delivery's commit for exactly those bindings, and pushes are noted there |
| `PreparedFetches.PreparationSpreads` | apps/control-plane/app/services/source_providers/delivery_processor.rb:7-19 | and in any case nothing else is touched, and nothing is fetched without authority |
| `JobBeginnings.ClaimOnRow` | apps/control-plane/db/migrate/20260713013000_add_github_source_provider_boundary.rb:505-538 | what a claim answers, from the row alone: granted iff it waits, is the token's own or has expired; complete iff it is over; busy otherwise |
| `JobBeginnings.ClaimWithoutRow` | apps/control-plane/db/migrate/20260713013000_add_github_source_provider_boundary.rb:505-538 | unknown iff no row with that id is in an organization the session has selected and is a member of |
| `JobBeginnings.BeginOnRow` | apps/control-plane/app/jobs/process_github_delivery_job.rb:16-39 | how a job goes on, from the row alone: busy iff another token's lease has not expired, over iff the delivery is, otherwise it holds the lease with exactly the wanted fetches, or has given the delivery back as failed, iff all or not all are available |
| `JobBeginnings.BeginWithoutRow` | apps/control-plane/app/jobs/process_github_delivery_job.rb:34-36 | without a row the session may see the job returns and changes nothing |
| `JobBeginnings.RefusedAttemptIsRetried` | apps/control-plane/app/jobs/process_github_delivery_job.rb:6-35 | every attempt refused by a dead lease raises the error the job is retried for |
| `JobOutcomes.CompletionIs` | apps/control-plane/app/jobs/process_github_delivery_job.rb:53-77 | the completion loop leaves each fetch complete iff it was or was acquired and stored, failed otherwise, deploys exactly what is due and created, and is ok iff every source arrived and every deployment call went through |
| `JobOutcomes.ConcludeOnRow` | apps/control-plane/app/jobs/process_github_delivery_job.rb:53-90 | the second transaction from the row and the answers: success iff the token holds the lease and all went well; the row is closed accordingly unless the lease was lost |
| `JobOutcomes.SuccessIff` | apps/control-plane/app/jobs/process_github_delivery_job.rb:53-90 | the same at any point of any run |
| `FetchOrigins.FetchWasWanted` | apps/control-plane/app/services/source_providers/delivery_processor.rb:7-85 | on every run each fetch was wanted, authorized and permitted at the moment it was made |
| `FetchOrigins.ProductionWasPushed` | apps/control-plane/app/services/deployments/create_from_source_fetch.rb:11-39 | every production deployment is of a push to the branch, repository and connection its binding had when the fetch was made |
| `BindingNotes.NotesAreTrue` | apps/control-plane/app/services/source_providers/delivery_processor.rb:47-69 | on every run a binding's ref and commit are those of the last push it noted and of its current fetch |
| `BindingNotes.GenerationIsVersion` | apps/control-plane/app/services/source_providers/delivery_processor.rb:58-66 | the generation is a version number: while it stays the same, nothing that decides what the binding deploys changes |
| `PullRequestOrder.SkippedIff` | apps/control-plane/app/services/source_providers/delivery_processor.rb:71-80 | a pull request delivery is passed over, without a trace, iff its lane holds a fetch for a later delivery |
| `PullRequestOrder.PassedOverIff` | apps/control-plane/app/services/source_providers/delivery_processor.rb:78-84 | preparing a newer delivery makes an older one be passed over iff it already was, or the newer one does not reuse a complete fetch and a fetch of its own is authorized |
| `PullRequestOrder.OlderPullRequestIsPassedOver` | apps/control-plane/app/services/source_providers/delivery_processor.rb:78-79 | once the lane holds a later fetch, the older delivery is passed over at every later point of every run |
| `JobExamples.OlderPullRequestOvertakes` | apps/control-plane/app/services/source_providers/delivery_processor.rb:78-84 | a run of seven steps from an empty world in which this happens |
| `OutboxStore.Store.ClaimOutbox` | apps/control-plane/db/migrate/20260712221000_add_durable_delivery.rb:145-166 | a claim returns its batch and locks exactly those rows |
| `OutboxStore.Store.FinishOutbox` | apps/control-plane/db/migrate/20260712221000_add_durable_delivery.rb:168-186 | a finish updates exactly the row its worker has locked and returns true, or nothing |
| `Batches.BatchIsReady` | apps/control-plane/db/migrate/20260712221000_add_durable_delivery.rb:147-157 | a batch holds only claimable rows |
| `Batches.BatchIsEarliest` | apps/control-plane/db/migrate/20260712221000_add_durable_delivery.rb:154-157 | a batch is the earliest of the ready rows by time and id, as many as asked for, clamped to 1..100; what is left out comes later |
| `Outbox.ClaimEffect` | apps/control-plane/db/migrate/20260712221000_add_durable_delivery.rb:158-165 | a claim locks every row of its batch once and changes nothing else |
| `Outbox.LedgerBalances` | apps/control-plane/db/migrate/20260712221000_add_durable_delivery.rb:145-186 | in every reachable state `publish_attempts` equals accepted finishes plus stale takeovers plus one while locked, and a closed event is unlocked |
| `Outbox.HandedOutOnce` | apps/control-plane/db/migrate/20260712221000_add_durable_delivery.rb:150-157 | no event is handed out twice within two minutes unless a finish came between, nor before the retry time that finish gave, and nothing happens to a closed one |
| `Outbox.EligibleIff` | apps/control-plane/db/migrate/20260712221000_add_durable_delivery.rb:150-157 | an event is up for claiming iff it is open, its retry time has come and it is unlocked or locked over two minutes ago |
| `Outbox.ClosedIsFinal` | apps/control-plane/db/migrate/20260712221000_add_durable_delivery.rb:150-186 | a published or discarded event is unlocked and never changes again in any column |
| `Outbox.FinishableIff` | apps/control-plane/db/migrate/20260712221000_add_durable_delivery.rb:160-184 | a worker can finish what it claimed iff it gave a name of at most 128 characters: the claim truncates, the finish does not |
| `OutboxDrain.RoundTakesOldest` | apps/control-plane/db/migrate/20260712221000_add_durable_delivery.rb:147-165 | a claim and successful finishes take the oldest batch off the backlog and leave the rest in order |
| `OutboxDrain.TurnsTakeOldest` | apps/control-plane/db/migrate/20260712221000_add_durable_delivery.rb:147-186 | after any number of turns the backlog is the original one without its first k events per turn |
| `OutboxDrain.TurnsFollowOrder` | apps/control-plane/db/migrate/20260712221000_add_durable_delivery.rb:154-156 | each turn hands out exactly the next k events in (occurred_at, id) order |
| `OutboxDrain.DrainsInRounds` | apps/control-plane/db/migrate/20260712221000_add_durable_delivery.rb:154-186 | a lone worker has published all n events after exactly ceil(n / k) turns and not before, k clamped to 1..100 |
| `EmailStore.Store.ClaimEmail` | apps/control-plane/db/migrate/20260712221000_add_durable_delivery.rb:188-209 | a claim returns its batch and moves exactly those rows to sending |
| `EmailStore.Store.FinishEmail` | apps/control-plane/db/migrate/20260712221000_add_durable_delivery.rb:211-243 | raises for an unknown result, a NULL result on a matching row or a message id already taken; otherwise updates exactly the held row |
| `EmailStore.Store.ApplyProviderEvent` | apps/control-plane/db/migrate/20260712221000_add_durable_delivery.rb:251-314 | raises, or answers duplicate, ignored or processed, with the tables of the specification |
| `EmailHistory.HistoryIsLegal` | apps/control-plane/db/migrate/20260712221000_add_durable_delivery.rb:188-310 | with notifications at any moment, each email's history is legal and explains state, lock, holder and attempts |
| `EmailHistory.SingleHolder` | apps/control-plane/db/migrate/20260712221000_add_durable_delivery.rb:192-196 | pending and retryable rows are unlocked and sending rows locked, so the two-minute clause of the claim never decides anything |
| `EmailHistory.ClaimableIff` | apps/control-plane/db/migrate/20260712221000_add_durable_delivery.rb:192-196 | an email is up for claiming iff it is new or was given back for retry and its retry time has come |
| `EmailHistory.ClaimsAreBounded` | apps/control-plane/db/migrate/20260712221000_add_durable_delivery.rb:188-243 | claims never exceed one plus the number of retryable finishes |
| `EmailHistory.ReclaimNeedsRetry` | apps/control-plane/db/migrate/20260712221000_add_durable_delivery.rb:188-243 | between two claims of an email the first claim's own holder finished it as retryable, and the second comes no earlier than that asked for |
| `EmailEndings.AbandonedIsNeverReclaimed` | apps/control-plane/db/migrate/20260712221000_add_durable_delivery.rb:192-206 | an email whose holder never finishes it is never claimed again, however old its lock |
| `EmailEndings.ReportIsFinalIff` | apps/control-plane/db/migrate/20260712221000_add_durable_delivery.rb:226-240 | an email out of the queue, sending or reported, can return if and only if a named worker still holds it |
| `Email.FinishableIff` | apps/control-plane/db/migrate/20260712221000_add_durable_delivery.rb:197-240 | a worker can finish the email it claimed iff it gave a name of at most 128 characters |
| `EmailEndings.ClaimerCanReturnIff` | apps/control-plane/db/migrate/20260712221000_add_durable_delivery.rb:188-243 | over all runs in which nobody else finishes it, what a worker claimed can return to the queue iff it gave such a name |
| `EmailEndings.BounceCanBeOverwritten` | apps/control-plane/db/migrate/20260712221000_add_durable_delivery.rb:303-310 | a reachable bounced email that its holder can still put back in the queue |
| `EmailEndings.ReportIsBelieved` | apps/control-plane/db/migrate/20260712221000_add_durable_delivery.rb:223-241 | what the holder reports is what the row then says, result by result, and any other result changes nothing |
| `EmailEndings.NoticeIsBelieved` | apps/control-plane/db/migrate/20260712221000_add_durable_delivery.rb:295-310 | what the provider says of a message is what its row then says, kind by kind, and the hold is left alone |
| `EmailEndings.MessageIsKept` | apps/control-plane/db/migrate/20260712221000_add_durable_delivery.rb:231 | an email that has a message id keeps one |
| `EmailEndings.RunKeepsMessages` | apps/control-plane/db/migrate/20260712221000_add_durable_delivery.rb:64 | on every run a provider message id belongs to at most one email |
| `EmailEndings.ReceiptTellsNotice` | apps/control-plane/db/migrate/20260712221000_add_durable_delivery.rb:268-293 | on every run each receipt tells of the first notice under its id, and whether that moved an email |
| `EmailEndings.NoticeAppliesOnce` | apps/control-plane/db/migrate/20260712221000_add_durable_delivery.rb:268-310 | a notification moves the one email that carries its message id, and repeating it at any later time changes nothing |
| `GoPlatformId.NewAt` | internal/platformid/id.go:42-76 | succeeds exactly for a known prefix, a 48-bit millisecond and 16 random bytes, with the canonical text; the first failing check names the error |
| `GoPlatformId.Stamp` | internal/platformid/id.go:58-65 | the array holds the RFC 9562 layout of the millisecond and the random tail |
| `GoPlatformId.FormatIsUuid` | internal/platformid/id.go:67-74 | printing four numbers and a slice gives the text of the sixteen bytes |
| `GoPlatformId.DecodeInto` | internal/platformid/id.go:93-97 | decoding succeeds iff the length is even and every character is a hexadecimal digit of either case, and fills the bytes the digits spell |
| `GoPlatformId.ParseUuid` | internal/platformid/id.go:87-107 | accepts exactly the UUIDs of the Ruby pattern; extra hyphens fail the comparison with the re-encoded bytes |
| `GoPlatformId.Parse` | internal/platformid/id.go:79-109 | accepts exactly the texts Ruby's `valid?` accepts |
| `GoPlatformId.Time` | internal/platformid/id.go:118-130 | succeeds exactly for valid texts and returns the millisecond their first twelve digits spell |
| `GoPlatformId.AccessorsOfGenerated` | internal/platformid/id.go:112-130 | the prefix and the millisecond of a generated identifier are those it was generated from |
| `PlatformId.StampVersion` | internal/platformid/id.go:64 | the bit operations write version 7 and keep the low four bits |
| `PlatformId.StampVariant` | internal/platformid/id.go:65 | the bit operations write the variant and keep the low six bits |
| `PlatformId.IsVersion7` | internal/platformid/id.go:98 | the shift tests the version |
| `PlatformId.IsVariant` | internal/platformid/id.go:101 | the mask tests the variant |
| `PlatformId.UuidMatches` | apps/control-plane/app/services/platform_id.rb:8 | a printed UUID matches the pattern iff its version and variant bits are right |
| `PlatformId.UuidRoundTrip` | apps/control-plane/app/services/platform_id.rb:8 | a matching text is the print of the bytes it spells |
| `PlatformId.GeneratedIsValid` | apps/control-plane/app/services/platform_id.rb:10-29 | every generated identifier is valid and gives back its prefix and millisecond |
| `PlatformId.ValidIsGenerated` | apps/control-plane/app/services/platform_id.rb:10-29 | every valid identifier is the one generated from its own prefix, millisecond and last ten bytes |
| `PlatformId.OrderFollowsTime` | internal/platformid/id.go:57-75 | with equal prefixes an earlier millisecond gives a lexicographically smaller identifier |
| `RubyPlatformId.Pack` | apps/control-plane/app/services/platform_id.rb:18-20 | packing and the two byte edits give the same layout as the Go array |
| `RubyPlatformId.Generate` | apps/control-plane/app/services/platform_id.rb:10-24 | generates the text Go generates from the same millisecond and last ten random bytes; raises exactly for an unknown prefix, a wrong byte count or a time out of range |
| `RubyPlatformId.ValidForIff` | apps/control-plane/app/services/platform_id.rb:26-29 | asking for a prefix accepts exactly the identifiers generated with it |
| `CanonicalUnique.IntUnique` | apps/control-plane/app/services/canonical_json.rb:8-9 | an integer's text, followed by a non-digit, has one reading |
| `JsonReader.DumpIsPlain` | apps/control-plane/app/services/canonical_json.rb:5-9 | no dump holds a control character, a line separator or a character HTML reads |
| `JsonReader.ReadsInt` | apps/control-plane/app/services/canonical_json.rb:8-9 | a reader of RFC 8259 numbers reads every integer back |
| `JsonReader.ReadsInside` | apps/control-plane/app/services/canonical_json.rb:5-9 | a reader of RFC 8259 strings reads every quoted text back and ends at its closing quote |
| `JsonReader.ReadsDump` | apps/control-plane/app/services/canonical_json.rb:3-9 | a reader of RFC 8259 texts reads every dumped value back as what it means, whatever may follow |
| `CanonicalUnique.QuoteUnique` | apps/control-plane/app/services/canonical_json.rb:5-9 | a quoted string has one reading and says where it ends |
| `CanonicalJson.ArrangeSpells` | apps/control-plane/app/services/canonical_json.rb:5 | stringified and sorted members spell the object's meaning, the last value of a repeated key winning |
| `CanonicalJson.ArrangeSorted` | apps/control-plane/app/services/canonical_json.rb:5 | their keys are strictly sorted |
| `CanonicalUnique.DumpUnique` | apps/control-plane/app/services/canonical_json.rb:2-9 | a dumped value inside a longer text has one meaning and one end |
| `CanonicalUnique.SameMeaningSameDump` | apps/control-plane/app/services/canonical_json.rb:2-9 | equal values dump alike whatever the order and history of their keys |
| `CanonicalUnique.DumpDecidesEquality` | apps/control-plane/app/services/canonical_json.rb:2-9 | two values dump to the same text if and only if they are equal as JSON values |
| `SourceUpload.UploadParts` | cli/src/client.ts:65-100 | succeeds exactly when the parts are numbered 1 to p, no chunk is over 16 MiB or empty, and every part is sent and taken; then the chunks sent concatenate to the archive, and what was sent before a failure is a prefix of it |
| `SourceUpload.SendParts` | cli/src/client.ts:81-99 | the loop: chunk i goes to part i + 1, and the first part that cannot be sent names the error |
| `SourceUpload.SortedInOrderIff` | cli/src/client.ts:69-77 | sorting yields 1, 2, ..., p if and only if every number from 1 to p occurs once |
| `SourceUpload.ChunksCover` | cli/src/client.ts:78-88 | p chunks of ceil(n / p) bytes concatenate to the archive |
| `SourceUpload.NoChunkEmptyIff` | cli/src/client.ts:84-90 | no chunk is empty if and only if (p - 1) * ceil(n / p) < n |
| `SourceUpload.AskedPartsFit` | cli/src/index.ts:138-140 | for 1 byte to 1 GiB the count asked for is between 1 and 64 and is the least that can carry the archive |
| `SourceUpload.AskedUploadFits` | apps/control-plane/app/models/source_upload_session.rb:8-44 | the count asked for meets the server's rules, is the least that does, and with that many parts numbered from 1 in any order the upload goes through |
| `SourceUpload.AcceptedCountMayFail` | apps/control-plane/app/models/source_upload_session.rb:17-44 | the server's rules alone also accept counts whose last chunk would be empty |
| `Deployments.TransitionIff` | apps/control-plane/app/models/deployment.rb:11-27 | the transition table in words, both ways: next stage, cancel and fail until ready, retry until there is an artifact or after failure, resume from sourcing to building |
| `Deployments.PromotionPath` | apps/control-plane/app/models/deployment.rb:11-27 | every run that reaches promoted ends with the nine states from building to promoted |
| `Deployments.RunLengthBound` | apps/control-plane/app/models/deployment.rb:11-27 | a run from created that enters retrying k times has at most 13k + 12 transitions |
| `Deployments.BoundIsTight` | apps/control-plane/app/models/deployment.rb:11-27 | for every k some run has exactly that many |
| `DeploymentWalk.PathToIff` | apps/control-plane/app/services/build_orchestration/persist_event.rb:114-119 | the depth-first search succeeds if and only if a path of unblocked states leads to the target |
| `DeploymentWalk.ChosenIsTurn` | apps/control-plane/app/services/build_orchestration/persist_event.rb:103-108 | the state each turn of the loop moves to, in closed form |
| `DeploymentWalk.WalkEndsIff` | apps/control-plane/app/services/build_orchestration/persist_event.rb:103-112 | for the targets build events name, the loop ends if and only if it is not to cancel a deployment that has no artifact yet or has failed; where it ends it rests at the target if a way leads there and has not moved otherwise |

## Left out

- Row-level security, roles and grants: only the organization and membership guard inside claim and finish is modelled.
- Locking (`SKIP LOCKED`, advisory locks, `with_lock`, isolation levels): replaced by atomic steps.
- Several clock readings within one statement: one reading per step.
- Other producers of outbox and audit rows: in the delivery model only the rows the provider function writes appear, and in the outbox model an event is just recorded.
- Network, gateway, signature and digest checks: their answers are arguments; digests are opaque values, or the bytes themselves.
- A `processor.fail` that itself raises: the transaction rolls back, which is the step not happening.
- Fetch states `expired` and `canceled`, and fetch expiry times: nothing in the modelled code enters or reads them.
- The class name stored as a delivery's error code by a job: one fixed text.
- Repository case folding and trimming: names are taken as folded; the webhook folds before the SQL function, and connecting an installation folds the names it is given.
- Format checks of `ConnectGithubInstallation`, `ConnectProject`, bindings and fetches (installation id, repository, branch, directory): single-field checks; of the validations a binding update makes, only the one against the connection's repository list is modelled.
- Webhook signature and JSON parsing: the handler starts from the fields of a payload, with texts already folded.
- Inbox and dead-letter tables of the durable delivery migration: plain inserts.
- `New` in Go and the default arguments of Ruby `generate`: the clock and random source are arguments.
- Non-ASCII texts in Go `Parse`: `strings.ToLower` is modelled on ASCII letters; any other character fails hexadecimal decoding in either case.
- Floats, `BigDecimal` and times in canonical JSON: their texts can coincide with those of other types.
- Retries of a single part upload and HTTP status handling: whether the store takes a part is an argument.
- Root directory, digest and expiry rules of an upload session: single-field checks.
- Build event validation, contiguous sequences and operation progress around `transition_to!`: only the walk of the deployment state is modelled.
- Membership, invitations, authorization tables, idempotency keys, network policy, archive walking, protobuf, HTTP, NATS and Temporal plumbing: not part of this model.
