/** The webhook handler: how a GitHub payload becomes a call of the provider function, which payloads that function
    accepts, and what they do. Texts are as the handler has folded them. */
module GithubWebhook {
  import opened Sql
  import opened ProviderTables
  import opened ProviderRuns
  import opened ConnectionHistory
  import opened WebhookRows
  import ProviderEffects
  import Patterns
  import PlatformId
  import Sorting

  datatype Payload =
    | PushPayload(repository: string, gitRef: string, after: string, before: string, forced: bool, deleted: bool)
    | PullRequestPayload(action: string, number: int, repository: string, headRef: string, headSha: string,
                         baseSha: string)
    | InstallationPayload(action: string, login: string, accountId: int, selection: string, names: seq<string>)
    | RepositoriesPayload(action: string, selection: string, added: seq<string>, removed: seq<string>)

  /** What comes with a payload: its headers, its digest, and what is generated for the call. */
  datatype Envelope = Envelope(
    installationId: string,
    deliveryId: string,
    digest: string,
    publicId: string,
    eventId: string,
    auditId: string,
    requestId: string,
    actor: Option<string>,
    now: int)

  /** `\A[0-9a-f-]{8,128}\z`, in either case. */
  predicate DeliveryId(s: string) {
    8 <= |s| <= 128 && forall i :: 0 <= i < |s| ==> Patterns.Hex(s[i]) || 'A' <= s[i] <= 'F' || s[i] == '-'
  }

  /** `\A[A-Za-z0-9](?:[A-Za-z0-9_.-]{0,98}[A-Za-z0-9])?\/[A-Za-z0-9_.-]{1,100}\z`: the owner also ends with a letter or
      digit. */
  predicate RepositoryName(s: string) {
    exists k ::
      && 1 <= k <= 100 && k + 2 <= |s| <= k + 101
      && s[k] == '/'
      && Patterns.Alphanumeric(s[0]) && Patterns.Alphanumeric(s[k - 1])
      && Patterns.AllNameChars(s[1..k])
      && Patterns.AllNameChars(s[k + 1..])
  }

  predicate AllRepositoryNames(names: seq<string>) {
    forall i :: 0 <= i < |names| ==> RepositoryName(names[i])
  }

  predicate AllZeros(s: string) {
    forall i :: 0 <= i < |s| ==> s[i] == '0'
  }

  /** A commit that is given and not all zeros. */
  function OptionalCommit(s: string): Option<string> {
    if Patterns.Commit(s) && !AllZeros(s) then Some(s) else None
  }

  function ActionOf(text: string): Action {
    if text == "opened" then Opened
    else if text == "reopened" then Reopened
    else if text == "synchronize" then Synchronize
    else if text == "added" then Added
    else if text == "removed" then Removed
    else if text == "" then BlankAction
    else OtherAction(text)
  }

  function SelectionOfText(text: string): SelectionArgument {
    if text == "all" then SelectAll
    else if text == "selected" then SelectSome
    else if text == "" then KeepSelection
    else UnlistedSelection
  }

  /** The call with nothing but the envelope; what an event does not mention is NULL, false or none. */
  function Blank(e: Envelope, event: EventType): Call {
    Call(Some(e.installationId), Some(e.deliveryId), Some(event), None, Some(e.digest), None, None, None, None, None,
         Some(false), Some(false), None, None, None, None, None, Some(NoChange), Some(Array([])),
         Some(e.publicId), Some(e.eventId), Some(e.auditId), Some(e.requestId), e.actor, e.now)
  }

  function StatusFor(action: string): Option<StatusArgument> {
    if action == "deleted" then Some(ToRevoked)
    else if action == "suspend" then Some(ToSuspended)
    else if action == "unsuspend" || action == "created" then Some(ToActive)
    else None
  }

  /** `normalized_event` and the arguments made of it; `None` when the webhook is invalid. */
  function Normalize(e: Envelope, p: Payload): Option<Call> {
    if !DeliveryId(e.deliveryId) then None
    else match p
      case PushPayload(repository, gitRef, after, before, forced, deleted) =>
        if (!deleted && !Patterns.Commit(after)) || !RepositoryName(repository) then None
        else
          Some(Blank(e, Push).(
            state := Some(if deleted then ToIgnored else ToReceived), repository := Some(repository),
            gitRef := Some(gitRef), headCommit := if deleted then None else Some(after),
            baseCommit := OptionalCommit(before), forced := Some(forced), deleted := Some(deleted)))
      case PullRequestPayload(action, number, repository, headRef, headSha, baseSha) =>
        if !Patterns.Commit(headSha) || !Patterns.Commit(baseSha) || !RepositoryName(repository) then None
        else
          var relevant := action in ["opened", "reopened", "synchronize"];
          Some(Blank(e, PullRequest).(
            state := Some(if relevant then ToReceived else ToIgnored), action := Some(ActionOf(action)),
            repository := Some(repository), gitRef := Some(headRef), headCommit := Some(headSha),
            baseCommit := Some(baseSha), pullRequest := Some(number), deleted := Some(action == "closed")))
      case InstallationPayload(action, login, accountId, selection, names) =>
        if !AllRepositoryNames(names) then None
        else
          Some(Blank(e, Installation).(
            state := Some(if StatusFor(action).Some? then ToProcessed else ToIgnored), action := Some(ActionOf(action)),
            nextStatus := StatusFor(action), login := Some(login), accountId := Some(accountId),
            selection := Some(SelectionOfText(selection)),
            mode := Some(if action == "created" then Replace else NoChange),
            names := Some(Array(SortedNames(names)))))
      case RepositoriesPayload(action, selection, added, removed) =>
        var names := if action == "added" then added else removed;
        if !AllRepositoryNames(names) then None
        else
          Some(Blank(e, InstallationRepositories).(
            state := Some(if action in ["added", "removed"] then ToProcessed else ToIgnored),
            action := Some(ActionOf(action)), selection := Some(SelectionOfText(selection)),
            mode := Some(if action == "added" then Add else if action == "removed" then Remove else NoChange),
            names := Some(Array(SortedNames(names)))))
  }

  /** The ids are generated and the digest and request id computed, so they have their forms. */
  predicate WellMade(e: Envelope) {
    && PlatformId.Valid(e.publicId) && PlatformId.Valid(e.eventId) && PlatformId.Valid(e.auditId)
    && Patterns.Digest(e.digest) && Patterns.RequestId(e.requestId)
  }

  /** Which payloads the provider function accepts. */
  predicate Sound(p: Payload) {
    match p
    case PushPayload(_, gitRef, _, _, _, _) => 0 < |gitRef| <= 512
    case PullRequestPayload(action, number, _, headRef, _, _) =>
      |action| <= 64 && number >= 1 && 0 < |headRef| <= 512
    case InstallationPayload(action, login, accountId, selection, _) =>
      0 < |action| <= 64 && 0 < |login| <= 255 && accountId >= 1 && selection in ["", "all", "selected"]
    case RepositoriesPayload(action, selection, _, _) =>
      action in ["added", "removed"] && selection in ["all", "selected"]
  }

  // ----- Forms

  lemma GeneratedIsPublicId(s: string)
    requires PlatformId.Valid(s)
    ensures Patterns.PublicId(s)
  {
    var k: nat :| 2 <= k <= 5 && PlatformId.PatternAt(s, k) && s[..k] in PlatformId.PREFIXES;
    assert s[|s| - 37] == s[k] && s[|s| - 36..] == s[k + 1..];
    var u := s[k + 1..];
    forall i | 0 <= i < |u| ensures Patterns.Hex(u[i]) || u[i] == '-' {}
  }

  lemma DeliveryIsToken(s: string)
    requires DeliveryId(s)
    ensures Patterns.Token(s)
  {
  }

  lemma NameIsRepository(s: string)
    requires RepositoryName(s)
    ensures Patterns.Repository(s) && s != ""
  {
  }

  lemma SortedNamesHas(names: seq<string>, x: Option<string>)
    requires x in SortedNames(names)
    ensures exists j :: 0 <= j < |names| && x == Some(names[j])
  {
    var once := Sorting.Distinct(AsNames(names));
    Sorting.SortPermutes(NameBelow, once);
    Sorting.SameElements(SortedNames(names), once);
    assert x in once && x in AsNames(names);
    var j :| 0 <= j < |AsNames(names)| && AsNames(names)[j] == x;
    assert x == Some(names[j]);
  }

  lemma SortedNamesAreGood(names: seq<string>)
    requires AllRepositoryNames(names)
    ensures forall i :: 0 <= i < |SortedNames(names)| ==> !BadRepository(SortedNames(names)[i])
  {
    var sorted := SortedNames(names);
    forall i | 0 <= i < |sorted| ensures !BadRepository(sorted[i]) {
      SortedNamesHas(names, sorted[i]);
      var j :| 0 <= j < |names| && sorted[i] == Some(names[j]);
      NameIsRepository(names[j]);
    }
  }

  lemma ActionFits(text: string)
    ensures ActionLength(Some(ActionOf(text))) <= 64 <==> |text| <= 64
    ensures Relevant(ActionOf(text)) <==> text in ["opened", "reopened", "synchronize"]
    ensures ActionOf(text) == BlankAction <==> text == ""
    ensures ActionOf(text) == Added <==> text == "added"
    ensures ActionOf(text) == Removed <==> text == "removed"
  {
  }

  /** The call carries the envelope unchanged. */
  predicate Carries(c: Call, e: Envelope) {
    && c.installationId == Some(e.installationId) && c.deliveryId == Some(e.deliveryId) && c.digest == Some(e.digest)
    && c.publicId == Some(e.publicId) && c.eventId == Some(e.eventId) && c.auditId == Some(e.auditId)
    && c.requestId == Some(e.requestId) && c.event.Some? && c.event != Some(UnlistedEvent)
    && c.state.Some? && c.state != Some(UnlistedState) && c.forced.Some? && c.deleted.Some?
  }

  /** The checks common to all events that are not about the envelope. */
  predicate BadContent(c: Call) {
    || ActionLength(c.action) > 64
    || (c.login.Some? && |c.login.value| > 255) || (c.accountId.Some? && c.accountId.value < 1)
    || BadCommit(c.headCommit) || BadCommit(c.baseCommit)
    || (c.repository != Some("") && BadRepository(c.repository))
    || (c.gitRef.Some? && |c.gitRef.value| > 512) || (c.pullRequest.Some? && c.pullRequest.value < 1)
    || c.nextStatus == Some(UnlistedStatus) || c.selection == Some(UnlistedSelection)
    || c.mode == Some(UnlistedMode) || c.names == Some(NotAnArray)
    || (exists i :: 0 <= i < |GivenNames(c)| && BadRepository(GivenNames(c)[i]))
  }

  lemma CommonIff(e: Envelope, c: Call)
    requires WellMade(e) && DeliveryId(e.deliveryId) && Carries(c, e)
    ensures BadCommon(c) <==> !Patterns.InstallationId(e.installationId) || BadContent(c)
  {
    GeneratedIsPublicId(e.publicId);
    GeneratedIsPublicId(e.eventId);
    GeneratedIsPublicId(e.auditId);
    DeliveryIsToken(e.deliveryId);
  }

  lemma PushIff(e: Envelope, p: Payload)
    requires p.PushPayload? && Normalize(e, p).Some?
    ensures var c := Normalize(e, p).value; Carries(c, e) && (BadContent(c) || BadPush(c) <==> !Sound(p))
  {
    NameIsRepository(p.repository);
  }

  lemma PullRequestIff(e: Envelope, p: Payload)
    requires p.PullRequestPayload? && Normalize(e, p).Some?
    ensures var c := Normalize(e, p).value; Carries(c, e) && (BadContent(c) || BadPullRequest(c) <==> !Sound(p))
  {
    NameIsRepository(p.repository);
    ActionFits(p.action);
  }

  lemma InstallationIff(e: Envelope, p: Payload)
    requires p.InstallationPayload? && Normalize(e, p).Some?
    ensures var c := Normalize(e, p).value; Carries(c, e) && (BadContent(c) || BadInstallation(c) <==> !Sound(p))
  {
    ActionFits(p.action);
    SortedNamesAreGood(p.names);
    assert GivenNames(Normalize(e, p).value) == SortedNames(p.names);
  }

  lemma RepositoriesContent(e: Envelope, p: Payload)
    requires p.RepositoriesPayload? && Normalize(e, p).Some?
    ensures var c := Normalize(e, p).value;
      && Carries(c, e) && (BadContent(c) <==> c.selection == Some(UnlistedSelection) || |p.action| > 64)
      && !CarriesGitFields(c)
  {
    var names := if p.action == "added" then p.added else p.removed;
    ActionFits(p.action);
    SortedNamesAreGood(names);
    assert GivenNames(Normalize(e, p).value) == SortedNames(names);
  }

  lemma RepositoriesIff(e: Envelope, p: Payload)
    requires p.RepositoriesPayload? && Normalize(e, p).Some?
    ensures var c := Normalize(e, p).value;
      Carries(c, e) && (BadContent(c) || BadInstallationRepositories(c) <==> !Sound(p))
  {
    RepositoriesContent(e, p);
    ActionFits(p.action);
  }

  /** Every payload the handler passes on is accepted exactly if its installation id, its texts and its numbers are
      sound: the handler never builds a call that fails on anything else. */
  lemma AcceptedIff(e: Envelope, p: Payload)
    requires WellMade(e) && Normalize(e, p).Some?
    ensures !Rejected(Normalize(e, p).value) <==> Patterns.InstallationId(e.installationId) && Sound(p)
  {
    match p {
      case PushPayload(_, _, _, _, _, _) => PushIff(e, p);
      case PullRequestPayload(_, _, _, _, _, _) => PullRequestIff(e, p);
      case InstallationPayload(_, _, _, _, _) => InstallationIff(e, p);
      case RepositoriesPayload(_, _, _, _) => RepositoriesIff(e, p);
    }
    CommonIff(e, Normalize(e, p).value);
  }

  // ----- What a webhook does

  /** A push is work unless it deletes its ref, and a pull request when it is opened, reopened or pushed to. */
  predicate MeansWork(p: Payload) {
    || (p.PushPayload? && !p.deleted)
    || (p.PullRequestPayload? && p.action in ["opened", "reopened", "synchronize"])
  }

  /** A recorded webhook is work exactly if its payload means work and the last status its installation was given is
      active. */
  lemma WebhookIsWorkIff(t: Tables, steps: seq<Step>, e: Envelope, p: Payload)
    requires Normalize(e, p).Some? && Commits(Run(t, steps), Normalize(e, p).value)
    requires e.installationId in t.connections
    ensures var k := t.connections[e.installationId];
      && ApplyOutcome(Run(t, steps), Normalize(e, p).value).Recorded?
      && ApplyOutcome(Run(t, steps), Normalize(e, p).value).workPending ==
           Some(MeansWork(p) && Last(k.status, History(t, steps, e.installationId), Status) == Active)
  {
    var c := Normalize(e, p).value;
    if MeansWork(p) { WorkIsTakenIff(t, steps, e.installationId, c); }
  }

  /** The state an installation event names. */
  function NamedStatus(p: Payload): Option<ConnectionStatus> {
    if !p.InstallationPayload? then None
    else if p.action == "suspend" then Some(Suspended)
    else if p.action == "deleted" then Some(Revoked)
    else if p.action == "created" || p.action == "unsuspend" then Some(Active)
    else None
  }

  lemma PayloadStatus(e: Envelope, p: Payload)
    requires Normalize(e, p).Some?
    ensures StatusOf(Normalize(e, p).value) == NamedStatus(p)
  {
  }

  /** An installation event moves the connection to the state it names, and any other webhook leaves it. */
  lemma WebhookSetsStatus(t: Tables, e: Envelope, p: Payload)
    requires Normalize(e, p).Some? && Commits(t, Normalize(e, p).value) && e.installationId in t.connections
    ensures var u, key := Apply(t, Normalize(e, p).value), e.installationId;
      key in u.connections && u.connections[key].status == Coalesce(NamedStatus(p), t.connections[key].status)
  {
    PayloadStatus(e, p);
    WebhookWrites(t, Normalize(e, p).value, e.installationId);
  }

  /** How a payload changes the repository list: a new installation brings its list, and repositories are added and
      removed by name. */
  ghost function Listed(p: Payload, before: set<Option<string>>): set<Option<string>> {
    match p
    case InstallationPayload(action, _, _, _, names) =>
      if action == "created" then Sorting.Elements(AsNames(names)) else before
    case RepositoriesPayload(action, _, added, removed) =>
      if action == "added" then before + Sorting.Elements(AsNames(added))
      else if action == "removed" then before - Sorting.Elements(AsNames(removed)) - {None}
      else before
    case _ => before
  }

  lemma SortedNamesSame(names: seq<string>)
    ensures Sorting.Elements(SortedNames(names)) == Sorting.Elements(AsNames(names))
  {
    var once := Sorting.Distinct(AsNames(names));
    ProviderEffects.SortElements(once);
    assert Sorting.Elements(once) == Sorting.Elements(AsNames(names));
  }

  lemma WebhookChangesList(t: Tables, e: Envelope, p: Payload)
    requires Normalize(e, p).Some? && Commits(t, Normalize(e, p).value) && e.installationId in t.connections
    ensures var u, key := Apply(t, Normalize(e, p).value), e.installationId;
      key in u.connections && Sorting.Elements(u.connections[key].repositories) ==
        Listed(p, Sorting.Elements(t.connections[key].repositories))
  {
    var c, current := Normalize(e, p).value, t.connections[e.installationId].repositories;
    assert Apply(t, c).connections[e.installationId].repositories == NextNames(current, c.mode, GivenNames(c));
    match p {
      case InstallationPayload(_, _, _, _, names) => SortedNamesSame(names);
      case RepositoriesPayload(action, _, added, removed) =>
        SortedNamesSame(if action == "added" then added else removed);
        ProviderEffects.AddRefines(current, GivenNames(c));
        ProviderEffects.RemoveRefines(current, GivenNames(c));
      case _ =>
    }
  }

  /** The row a webhook leaves says what the payload said. */
  lemma RowTellsPayload(t: Tables, e: Envelope, p: Payload)
    requires Normalize(e, p).Some? && Commits(t, Normalize(e, p).value) && |t.outbox| == |t.deliveries| == |t.audit|
    ensures var u, n := Apply(t, Normalize(e, p).value), |t.deliveries|;
      && n < |u.deliveries|
      && u.deliveries[n].externalId == e.deliveryId && u.deliveries[n].connection == e.installationId
      && match p
         case PushPayload(repository, gitRef, after, before, forced, deleted) =>
           && u.deliveries[n].event == Push && u.deliveries[n].repository == Some(repository)
           && u.deliveries[n].gitRef == Some(gitRef) && u.deliveries[n].forced == forced
           && u.deliveries[n].deleted == deleted && u.deliveries[n].commit == (if deleted then None else Some(after))
           && (u.deliveries[n].baseCommit == Some(before) <==> Patterns.Commit(before) && !AllZeros(before))
           && (u.deliveries[n].baseCommit == None || u.deliveries[n].baseCommit == Some(before))
         case PullRequestPayload(action, number, repository, headRef, headSha, baseSha) =>
           && u.deliveries[n].deleted == (action == "closed")
           && u.deliveries[n].event == PullRequest && u.deliveries[n].repository == Some(repository)
           && u.deliveries[n].gitRef == Some(headRef) && u.deliveries[n].pullRequest == Some(number)
           && u.deliveries[n].commit == Some(headSha) && u.deliveries[n].baseCommit == Some(baseSha)
         case InstallationPayload(_, _, _, _, _) => u.deliveries[n].event == Installation
         case RepositoriesPayload(_, _, _, _) => u.deliveries[n].event == InstallationRepositories
  {
    var c := Normalize(e, p).value;
    CommitTells(t, c);
    if p.PushPayload? || p.PullRequestPayload? { NameIsRepository(p.repository); }
  }
}
