/** The durable Mikan release flow: polling, deduplicated ingestion, time-windowed batches and notification planning.

    One pipeline writes the tables; every transaction is one step. A run first plans the batches whose window is over
    and then polls feeds, and every query and every transaction of it may raise. */
module MikanPipeline {
  import opened Options
  import opened Durations
  import opened Identifiers
  import opened Sequences
  import opened MikanRules
  import O = Outbox

  datatype BatchStatus = Open | Ready | Planned | Suppressed

  datatype Batch = Batch(animeId: Option<Id>, episodeLabel: string, startedAt: int, closedAt: Option<int>,
                         status: BatchStatus)

  datatype Feed = Feed(lastSuccessAt: Option<int>, nextPollAt: int, failures: nat)

  /** The release tables. A release is in at most one batch, as `release_id` is unique among the batch items. */
  datatype Shelf = Shelf(releases: map<Id, Release>, batches: map<Id, Batch>, items: map<Id, Id>)

  // ---------------------------------------------------------------- invariants

  predicate Waiting(batch: Batch) {
    batch.status == Open || batch.status == Ready
  }

  predicate Fits(release: Release, batch: Batch) {
    && release.status == Batched
    && batch.animeId == Some(release.animeId)
    && release.episodeLabel == Some(batch.episodeLabel)
  }

  /** The batched releases are exactly those in a batch, which has their anime and their episode. */
  ghost predicate ItemsOk(shelf: Shelf) {
    && (forall r :: r in shelf.items ==>
          r in shelf.releases && shelf.items[r] in shelf.batches
          && Fits(shelf.releases[r], shelf.batches[shelf.items[r]]))
    && (forall r :: r in shelf.releases && shelf.releases[r].status == Batched ==> r in shelf.items)
  }

  predicate SameEpisode(a: Batch, b: Batch) {
    a.animeId.Some? && a.animeId == b.animeId && a.episodeLabel == b.episodeLabel
  }

  predicate Apart(a: Batch, b: Batch, window: int) {
    a.startedAt + window <= b.startedAt || b.startedAt + window <= a.startedAt
  }

  /** Two batches of one episode start at least one window apart. */
  ghost predicate Spaced(batches: map<Id, Batch>, window: int) {
    forall a, b :: a in batches && b in batches && a != b && SameEpisode(batches[a], batches[b]) ==>
      Apart(batches[a], batches[b], window)
  }

  /** Only a batch whose window is over has left status open. */
  ghost predicate OpenForTheWindow(batches: map<Id, Batch>, window: int, clock: int) {
    forall b :: b in batches ==>
      batches[b].startedAt <= clock && (batches[b].status != Open ==> batches[b].startedAt + window <= clock)
  }

  ghost predicate UniqueReleases(releases: map<Id, Release>) {
    forall a, b :: a in releases && b in releases && a != b ==>
      releases[a].guid != releases[b].guid && releases[a].fingerprint != releases[b].fingerprint
  }

  ghost predicate ShelfOk(shelf: Shelf, window: int, clock: int) {
    && ItemsOk(shelf) && Spaced(shelf.batches, window)
    && OpenForTheWindow(shelf.batches, window, clock) && UniqueReleases(shelf.releases)
  }

  ghost predicate SameBatch(a: Batch, b: Batch) {
    a.animeId == b.animeId && a.episodeLabel == b.episodeLabel && a.startedAt == b.startedAt
  }

  /** How the tables may develop: stored releases and the batch of a release never change, and a batch that is no
      longer open stays so and takes in nothing more. */
  ghost predicate Follows(s: Shelf, t: Shelf) {
    && (forall r :: r in s.releases ==> r in t.releases && t.releases[r] == s.releases[r])
    && (forall b :: b in s.batches ==>
          b in t.batches && SameBatch(s.batches[b], t.batches[b])
          && (s.batches[b].status != Open ==> t.batches[b].status != Open))
    && (forall r :: r in s.items ==> r in t.items && t.items[r] == s.items[r])
    && (forall r :: r in t.items && r !in s.items ==>
          t.items[r] in s.batches ==> s.batches[t.items[r]].status == Open)
  }

  lemma {:induction false} FollowsIsTransitive(s: Shelf, t: Shelf, u: Shelf)
    requires Follows(s, t) && Follows(t, u)
    ensures Follows(s, u)
  {
    forall r | r in u.items && r !in s.items && u.items[r] in s.batches
      ensures s.batches[u.items[r]].status == Open
    {
      var b := u.items[r];
      assert b in s.batches;
      if r in t.items {
        assert t.items[r] == b;
      } else {
        assert b in t.batches;
      }
    }
  }

  lemma {:induction false} FollowsItself(s: Shelf)
    ensures Follows(s, s)
  {
  }

  /** A batch that was no longer open at some point has the same releases at every later point. */
  lemma {:induction false} ClosedBatchIsFinal(s: Shelf, t: Shelf, batch: Id, release: Id)
    requires Follows(s, t) && batch in s.batches && s.batches[batch].status != Open
    ensures (release in s.items && s.items[release] == batch) <==> (release in t.items && t.items[release] == batch)
  {
  }

  // ---------------------------------------------------------------- one notification per episode

  predicate Announces(job: O.Job, group: Id, animeId: Id, episode: nat) {
    && job.kind == O.Release && job.group == group
    && job.payload.animeId == Some(animeId) && EpisodeNumber(job.payload.episodeLabel) == Some(episode)
  }

  /** At most one release notification per group, anime and numeric episode, however the episode is spelled and
      whatever key the job was stored under. */
  ghost predicate NotifiedOnce(jobs: map<Id, O.Job>) {
    forall a, b, group, animeId, episode ::
      && a in jobs && b in jobs
      && Announces(jobs[a], group, animeId, episode) && Announces(jobs[b], group, animeId, episode)
      ==> a == b
  }

  /** A job stored under an episode's key is about that episode. */
  ghost predicate KeysTell(jobs: map<Id, O.Job>) {
    forall j :: j in jobs && jobs[j].kind == O.Release && jobs[j].key.EpisodeKey? ==>
      Announces(jobs[j], jobs[j].group, jobs[j].key.animeId, jobs[j].key.episode)
  }

  ghost predicate JobsOk(jobs: map<Id, O.Job>) {
    NotifiedOnce(jobs) && KeysTell(jobs)
  }

  /** No other step of the outbox endangers it. */
  lemma {:induction false} OtherStepsKeepJobsOk(table: O.Table, event: O.Event)
    requires JobsOk(table.jobs)
    requires ByOthers(event)
    ensures JobsOk(O.Step(table, event).jobs)
  {
    hide EpisodeNumber;
    forall id | id in table.jobs
      ensures id in O.Step(table, event).jobs
      ensures forall group, animeId, episode :: Announces(O.Step(table, event).jobs[id], group, animeId, episode)
                                           <==> Announces(table.jobs[id], group, animeId, episode)
    {
      O.AudienceIsFrozenOnceDue(table, event, id);
    }
    forall id | id in table.jobs
      ensures O.SameKey(O.Step(table, event).jobs[id], table.jobs[id].group, table.jobs[id].kind, table.jobs[id].key)
    {
      O.AudienceIsFrozenOnceDue(table, event, id);
    }
  }

  /** What no step ever changes about a job; of a release notification not even the payload. */
  predicate KeepsContent(a: O.Job, b: O.Job) {
    && O.SameKey(b, a.group, a.kind, a.key) && b.expiresAt == a.expiresAt && b.createdAt == a.createdAt
    && (a.kind == O.Release ==> b.payload == a.payload)
  }

  /** Stored jobs keep their content. */
  ghost predicate Extends(jobs: map<Id, O.Job>, more: map<Id, O.Job>) {
    forall j :: j in jobs ==> j in more && KeepsContent(jobs[j], more[j])
  }

  /** A release notification that was not there before. */
  predicate IsNew(jobs: map<Id, O.Job>, more: map<Id, O.Job>, j: Id) {
    j in more && j !in jobs && more[j].kind == O.Release
  }

  ghost predicate NothingNew(jobs: map<Id, O.Job>, more: map<Id, O.Job>) {
    forall j :: !IsNew(jobs, more, j)
  }

  /** A step of the dispatcher, the administrator or another planner: it enqueues no release notification. */
  predicate ByOthers(event: O.Event) {
    event.Enqueue? ==> event.kind != O.Release
  }

  lemma {:induction false} RowKeepsContent(id: Id, job: O.Job, event: O.Event)
    ensures KeepsContent(job, O.StepRow(id, job, event))
  {
  }

  lemma {:induction false} OtherStepsExtend(table: O.Table, event: O.Event)
    requires ByOthers(event)
    ensures Extends(table.jobs, O.Step(table, event).jobs) && NothingNew(table.jobs, O.Step(table, event).jobs)
  {
    hide O.StepRow, KeepsContent;
    forall j | j in table.jobs
      ensures j in O.Step(table, event).jobs && KeepsContent(table.jobs[j], O.Step(table, event).jobs[j])
    {
      O.StepAt(table, event, j);
      RowKeepsContent(j, table.jobs[j], event);
    }
  }

  lemma {:induction false} ExtendsItself(jobs: map<Id, O.Job>)
    ensures Extends(jobs, jobs) && NothingNew(jobs, jobs) && OneEach(jobs, jobs)
    ensures forall now :: Untouched(jobs, jobs, now)
  {
  }

  lemma {:induction false} ExtendsOn(before: map<Id, O.Job>, jobs: map<Id, O.Job>, more: map<Id, O.Job>)
    requires Extends(before, jobs) && Extends(jobs, more)
    ensures Extends(before, more)
    ensures NothingNew(before, jobs) && NothingNew(jobs, more) ==> NothingNew(before, more)
    ensures forall j :: IsNew(before, more, j) ==> IsNew(before, jobs, j) || IsNew(jobs, more, j)
    ensures forall j :: IsNew(before, jobs, j) ==> IsNew(before, more, j) && KeepsContent(jobs[j], more[j])
  {
    forall j | IsNew(before, more, j)
      ensures IsNew(before, jobs, j) || IsNew(jobs, more, j)
    {
    }
  }

  /** Nobody else has acted: stored rows are as they were, and new ones are as they were enqueued. */
  ghost predicate Untouched(jobs: map<Id, O.Job>, more: map<Id, O.Job>, now: int) {
    && (forall j :: j in jobs ==> j in more && more[j] == jobs[j])
    && (forall j :: j in more && j !in jobs ==>
          IsNew(jobs, more, j) && more[j].status == O.Pending && more[j].availableAt == now)
  }

  lemma {:induction false} UntouchedOn(before: map<Id, O.Job>, jobs: map<Id, O.Job>, more: map<Id, O.Job>, now: int)
    requires Untouched(before, jobs, now) && Untouched(jobs, more, now)
    ensures Untouched(before, more, now)
  {
  }

  lemma {:induction false} NewAnnouncementKeepsOnce(jobs: map<Id, O.Job>, id: Id, job: O.Job)
    requires NotifiedOnce(jobs) && id !in jobs
    requires forall other, group, animeId, episode :: other in jobs && Announces(job, group, animeId, episode) ==>
               !Announces(jobs[other], group, animeId, episode)
    ensures NotifiedOnce(jobs[id := job])
  {
    hide Announces;
  }

  // ---------------------------------------------------------------- planning one batch

  /** Everything the planner looks up elsewhere, where it is interrupted, and what others do to the outbox meanwhile. */
  datatype World = World(
    completed: bool,
    occurrences: seq<Occurrence>,
    labels: seq<Option<string>>,
    listing: seq<Id>,
    subscribers: seq<Subscriber>,
    readyRaises: bool,
    lookupRaises: bool,
    toldRaises: bool,
    enqueuesBeforeRaise: Option<nat>,
    markingRaises: bool,
    meanwhile: nat -> seq<O.Event>)

  /** What others do before the next notification is enqueued, once so many have been. */
  ghost predicate OthersOnly(world: World) {
    forall n, i :: 0 <= i < |world.meanwhile(n)| ==> ByOthers(world.meanwhile(n)[i])
  }

  /** Nobody else acts while the batch is planned. */
  ghost predicate Quiet(world: World) {
    forall n :: world.meanwhile(n) == []
  }

  /** The lookups answer for this batch. */
  ghost predicate AnswersFor(world: World, shelf: Shelf, batch: Id) {
    && batch in shelf.batches && OthersOnly(world)
    && IsListing(shelf.releases, (set r | r in shelf.items && shelf.items[r] == batch), world.listing)
    && forall text :: text in world.labels <==>
         exists r :: r in shelf.releases && Some(shelf.releases[r].animeId) == shelf.batches[batch].animeId
                     && shelf.releases[r].episodeLabel == text
  }

  function FreshIds(releases: map<Id, Release>, ids: seq<Id>, now: int): (recent: seq<Id>)
    requires Usable(releases, ids)
    ensures Usable(releases, recent)
    ensures forall r :: r in recent <==> r in ids && IsFresh(releases[r].pubDate, now)
  {
    if ids == [] then [] else
      var k := |ids| - 1;
      FreshIds(releases, ids[..k], now) + if IsFresh(releases[ids[k]].pubDate, now) then [ids[k]] else []
  }

  /** The planner gives up on a batch: its anime is completed, its episode is not the newest available one, or none
      of its releases is fresh. */
  predicate Dropped(releases: map<Id, Release>, batch: Batch, world: World, now: int)
    requires Usable(releases, world.listing)
  {
    var episode := EpisodeNumber(batch.episodeLabel);
    var highest := HighestAvailableEpisode(world.occurrences, world.labels, now);
    || world.completed
    || (episode.Some? && highest.Some? && episode != highest)
    || FreshIds(releases, world.listing, now) == []
  }

  /** One of the planner's calls raises. */
  predicate Interrupts(world: World) {
    world.readyRaises || world.lookupRaises || world.markingRaises || BreaksOffTelling(world)
  }

  predicate BreaksOffTelling(world: World) {
    world.toldRaises || world.enqueuesBeforeRaise.Some?
  }

  /** Some release of the anime is of this episode, which is not beyond what has aired if anything with a number has. */
  ghost predicate IsAvailable(world: World, now: int, episode: nat) {
    && (exists i :: 0 <= i < |world.labels| && world.labels[i].Some?
                    && EpisodeNumber(world.labels[i].value) == Some(episode))
    && ((exists e: nat :: AiredEpisode(world.occurrences, now, e)) ==>
          exists e: nat :: e >= episode && AiredEpisode(world.occurrences, now, e))
  }

  ghost predicate IsGreatestAvailable(world: World, now: int, episode: nat) {
    IsAvailable(world, now, episode) && forall other: nat :: IsAvailable(world, now, other) ==> other <= episode
  }

  /** Some release of the batch came out in the last twenty-four hours. */
  ghost predicate SomethingIsFresh(releases: map<Id, Release>, world: World, now: int)
    requires Usable(releases, world.listing)
  {
    exists i :: 0 <= i < |world.listing|
                && releases[world.listing[i]].pubDate <= now < releases[world.listing[i]].pubDate + 86_400 * SECOND
  }

  /** Nobody is to be told of the batch: its anime is completed, nothing in it is fresh, or its episode has a number and
      is not the greatest available one. */
  ghost predicate IsGivenUp(releases: map<Id, Release>, batch: Batch, world: World, now: int)
    requires Usable(releases, world.listing)
  {
    || world.completed
    || !SomethingIsFresh(releases, world, now)
    || (exists episode: nat, greatest: nat ::
          && EpisodeNumber(batch.episodeLabel) == Some(episode) && episode != greatest
          && IsGreatestAvailable(world, now, greatest))
  }

  lemma {:induction false} AvailableIff(world: World, now: int, episode: nat)
    ensures IsAvailable(world, now, episode) <==>
            Available(world.labels, LatestAired(world.occurrences, now), episode)
  {
    hide EpisodeNumber, LatestAired;
    LatestIsGreatestAired(world.occurrences, now);
  }

  lemma {:induction false} GreatestIff(world: World, now: int, episode: nat)
    ensures IsGreatestAvailable(world, now, episode) <==>
            HighestAvailableEpisode(world.occurrences, world.labels, now) == Some(episode)
  {
    hide Available, IsAvailable, EpisodeNumber, LatestAired, HighestOf;
    HighestIsGreatestAvailable(world.labels, LatestAired(world.occurrences, now));
    AvailableIff(world, now, episode);
    var highest := HighestAvailableEpisode(world.occurrences, world.labels, now);
    if highest.Some? {
      AvailableIff(world, now, highest.value);
    }
    forall other: nat
      ensures IsAvailable(world, now, other) <==>
              Available(world.labels, LatestAired(world.occurrences, now), other)
    {
      AvailableIff(world, now, other);
    }
  }

  lemma {:induction false} FreshIff(releases: map<Id, Release>, world: World, now: int)
    requires Usable(releases, world.listing)
    ensures FreshIds(releases, world.listing, now) != [] <==> SomethingIsFresh(releases, world, now)
  {
    hide FreshIds;
    var recent := FreshIds(releases, world.listing, now);
    if recent != [] {
      var r := recent[0];
      assert r in recent;
      assert r in world.listing && IsFresh(releases[r].pubDate, now);
      var i :| 0 <= i < |world.listing| && world.listing[i] == r;
    }
    if i :| 0 <= i < |world.listing|
            && releases[world.listing[i]].pubDate <= now < releases[world.listing[i]].pubDate + 86_400 * SECOND {
      var r := world.listing[i];
      assert r in world.listing && IsFresh(releases[r].pubDate, now);
      assert r in recent;
    }
  }

  /** The planner gives up on exactly these batches. */
  lemma {:induction false} GivenUpIff(releases: map<Id, Release>, batch: Batch, world: World, now: int)
    requires Usable(releases, world.listing)
    ensures Dropped(releases, batch, world, now) <==> IsGivenUp(releases, batch, world, now)
  {
    hide EpisodeNumber, IsGreatestAvailable, HighestAvailableEpisode, FreshIds, SomethingIsFresh;
    FreshIff(releases, world, now);
    var highest := HighestAvailableEpisode(world.occurrences, world.labels, now);
    forall greatest: nat
      ensures IsGreatestAvailable(world, now, greatest) <==> highest == Some(greatest)
    {
      GreatestIff(world, now, greatest);
    }
    if Dropped(releases, batch, world, now) && EpisodeNumber(batch.episodeLabel).Some? && highest.Some? {
      assert IsGreatestAvailable(world, now, highest.value);
    }
  }

  /** A batch whose episode lies beyond the newest aired one is given up on exactly when some episode that has aired is
      available. */
  lemma {:induction false} AheadOfScheduleIsDroppedIff(releases: map<Id, Release>, batch: Batch, world: World, now: int,
                                                       episode: nat, aired: nat)
    requires Usable(releases, world.listing) && FreshIds(releases, world.listing, now) != [] && !world.completed
    requires EpisodeNumber(batch.episodeLabel) == Some(episode)
    requires LatestAired(world.occurrences, now) == Some(aired) && episode > aired
    ensures Dropped(releases, batch, world, now) <==> exists n: nat :: Available(world.labels, Some(aired), n)
  {
    hide Available, EpisodeNumber;
    HighestIsGreatestAvailable(world.labels, Some(aired));
    if Dropped(releases, batch, world, now) {
      assert Available(world.labels, Some(aired), HighestOf(world.labels, Some(aired)).value);
    }
    AvailableIsCapped(world.labels, aired);
  }

  lemma {:induction false} AvailableIsCapped(labels: seq<Option<string>>, cap: nat)
    ensures forall n: nat :: Available(labels, Some(cap), n) ==> n <= cap
  {
  }

  function KeyFor(batchId: Id, batch: Batch): O.BusinessKey
    requires batch.animeId.Some?
  {
    var episode := EpisodeNumber(batch.episodeLabel);
    if episode.Some? then O.EpisodeKey(batch.animeId.value, episode.value) else O.BatchKey(batchId)
  }

  /** The notification a group is owed for its share of a batch. */
  ghost predicate IsNotificationFor(job: O.Job, batch: Batch, releases: map<Id, Release>, share: Share) {
    && job.kind == O.Release
    && job.payload.animeId == batch.animeId && job.payload.episodeLabel == batch.episodeLabel
    && job.payload.audience == share.users
    && job.payload.releaseCount == |share.releases|
    && exists listing :: IsListing(releases, share.releases, listing) && listing != []
         && job.payload.firstReleases == (if |listing| <= 3 then listing else listing[..3])
         && job.expiresAt == releases[listing[0]].pubDate + DAY
  }

  /** Three of the releases that came out first, by date, or all if there are no more. */
  ghost predicate NamesFirst(releases: map<Id, Release>, ids: set<Id>, first: seq<Id>) {
    && Distinct(first) && |first| <= 3 && (|first| < 3 ==> forall r :: r in ids ==> r in first)
    && (forall r :: r in first ==> r in ids)
    && (forall i, j :: 0 <= i < j < |first| ==> DateOf(releases, first[i]) <= DateOf(releases, first[j]))
    && (forall r, i :: r in ids && r !in first && 0 <= i < |first| ==>
          DateOf(releases, first[i]) <= DateOf(releases, r))
  }

  /** A notification mentions the share's members and nobody else, counts its releases, and names those that came out
      first; it expires a day after the first of all. */
  lemma {:induction false} NotificationSays(job: O.Job, batch: Batch, releases: map<Id, Release>, share: Share)
    returns (oldest: Id)
    requires IsNotificationFor(job, batch, releases, share) && share.releases <= releases.Keys
    ensures job.payload.audience == share.users && job.payload.releaseCount == |share.releases|
    ensures NamesFirst(releases, share.releases, job.payload.firstReleases)
    ensures oldest in share.releases && oldest in releases
    ensures job.expiresAt == releases[oldest].pubDate + 86_400 * SECOND
    ensures forall r :: r in share.releases ==> r in releases && releases[oldest].pubDate <= releases[r].pubDate
  {
    hide NamesFirst, IsListing, IsNotificationFor;
    NotificationHasShare(job, batch, releases, share);
    var listing := ListingOf(job, batch, releases, share);
    oldest := listing[0];
    FirstThreeComeFirst(releases, share.releases, listing);
    FirstIsOldest(releases, share.releases, listing);
  }

  lemma {:induction false} NotificationHasShare(job: O.Job, batch: Batch, releases: map<Id, Release>, share: Share)
    requires IsNotificationFor(job, batch, releases, share)
    ensures job.payload.audience == share.users && job.payload.releaseCount == |share.releases|
  {
  }

  lemma {:induction false} ListingOf(job: O.Job, batch: Batch, releases: map<Id, Release>, share: Share)
    returns (listing: seq<Id>)
    requires IsNotificationFor(job, batch, releases, share)
    ensures IsListing(releases, share.releases, listing) && listing != [] && listing[0] in releases
    ensures job.payload.firstReleases == (if |listing| <= 3 then listing else listing[..3])
    ensures job.expiresAt == releases[listing[0]].pubDate + DAY
  {
    listing :| IsListing(releases, share.releases, listing) && listing != []
      && job.payload.firstReleases == (if |listing| <= 3 then listing else listing[..3])
      && job.expiresAt == releases[listing[0]].pubDate + DAY;
  }

  lemma {:induction false} FirstThreeComeFirst(releases: map<Id, Release>, ids: set<Id>, listing: seq<Id>)
    requires IsListing(releases, ids, listing)
    ensures NamesFirst(releases, ids, if |listing| <= 3 then listing else listing[..3])
  {
    hide IsListing;
    ListingIsByDate(releases, ids, listing);
    ListingHolds(releases, ids, listing);
    PrefixNamesFirst(releases, ids, listing, if |listing| <= 3 then |listing| else 3);
    assert listing[..|listing|] == listing;
  }

  lemma {:induction false} ListingHolds(releases: map<Id, Release>, ids: set<Id>, listing: seq<Id>)
    requires IsListing(releases, ids, listing)
    ensures Distinct(listing) && forall r :: r in listing <==> r in ids
  {
  }

  lemma {:induction false} PrefixNamesFirst(releases: map<Id, Release>, ids: set<Id>, listing: seq<Id>, n: nat)
    requires Distinct(listing) && forall r :: r in listing <==> r in ids
    requires forall i, j :: 0 <= i <= j < |listing| ==> DateOf(releases, listing[i]) <= DateOf(releases, listing[j])
    requires n <= |listing| && n <= 3 && (n < 3 ==> n == |listing|)
    ensures NamesFirst(releases, ids, listing[..n])
  {
    hide DateOf;
    var first := listing[..n];
    forall r | r in first
      ensures r in ids
    {
      assert r in listing;
    }
    forall r, i | r in ids && r !in first && 0 <= i < |first|
      ensures DateOf(releases, first[i]) <= DateOf(releases, r)
    {
      assert r in listing;
      var k :| 0 <= k < |listing| && listing[k] == r;
      if k < n {
        assert false;
      }
    }
  }

  lemma {:induction false} FirstIsOldest(releases: map<Id, Release>, ids: set<Id>, listing: seq<Id>)
    requires IsListing(releases, ids, listing) && listing != [] && ids <= releases.Keys
    ensures listing[0] in ids && forall r :: r in ids ==> releases[listing[0]].pubDate <= releases[r].pubDate
  {
    var oldest := listing[0];
    assert oldest in listing;
    ListingIsByDate(releases, ids, listing);
    forall r | r in ids
      ensures releases[oldest].pubDate <= releases[r].pubDate
    {
      assert r in listing;
      var k :| 0 <= k < |listing| && listing[k] == r;
    }
  }

  lemma {:induction false} ListingIsByDate(releases: map<Id, Release>, ids: set<Id>, listing: seq<Id>)
    requires IsListing(releases, ids, listing)
    ensures forall i, j :: 0 <= i <= j < |listing| ==>
              releases[listing[i]].pubDate <= releases[listing[j]].pubDate
              && DateOf(releases, listing[i]) <= DateOf(releases, listing[j])
  {
  }

  /** Groups that already have a release notification for this anime and episode, under any key. */
  function AlreadyNotified(jobs: map<Id, O.Job>, animeId: Id, episode: nat, groups: set<Id>): set<Id> {
    set id | id in jobs && jobs[id].group in groups && Announces(jobs[id], jobs[id].group, animeId, episode)
      :: jobs[id].group
  }

  // ---------------------------------------------------------------- lemmas about single updates

  lemma {:induction false} BatchChangesStatus(s: Shelf, window: int, clock: int, now: int, id: Id, batch: Batch)
    requires ShelfOk(s, window, clock) && now >= clock
    requires id in s.batches && SameBatch(s.batches[id], batch)
    requires batch.status != Open && s.batches[id].startedAt + window <= now
    ensures ShelfOk(s.(batches := s.batches[id := batch]), window, now)
    ensures Follows(s, s.(batches := s.batches[id := batch]))
  {
  }

  lemma {:induction false} ClockAdvances(s: Shelf, window: int, clock: int, now: int)
    requires ShelfOk(s, window, clock) && now >= clock
    ensures ShelfOk(s, window, now)
  {
  }

  /** Why a stored release can join the batch, or a new batch can be opened for it. */
  lemma {:induction false} ReleaseIsShelved(s: Shelf, window: int, now: int, r: Id, release: Release,
                                            b: Id, batch: Batch)
    requires ShelfOk(s, window, now) && window > 0
    requires r !in s.releases && Fits(release, batch)
    requires forall other :: other in s.releases ==>
               s.releases[other].guid != release.guid && s.releases[other].fingerprint != release.fingerprint
    requires batch.status == Open && batch.startedAt <= now
    requires b in s.batches ==> s.batches[b] == batch
    requires b !in s.batches ==> batch.startedAt == now && NoRoomFor(s.batches, batch, window, now)
    ensures var t := Shelf(s.releases[r := release], s.batches[b := batch], s.items[r := b]);
            ShelfOk(t, window, now) && Follows(s, t)
  {
    forall other | other in s.batches && SameEpisode(s.batches[other], batch) && b !in s.batches
      ensures Apart(s.batches[other], batch, window)
    {
    }
  }

  /** No open batch of this episode still takes in releases at `now`. */
  ghost predicate NoRoomFor(batches: map<Id, Batch>, batch: Batch, window: int, now: int) {
    forall b :: b in batches && SameEpisode(batches[b], batch) && batches[b].status == Open ==>
      batches[b].startedAt <= now - window
  }

  lemma {:induction false} ReleaseIsSetAside(s: Shelf, window: int, now: int, r: Id, release: Release)
    requires ShelfOk(s, window, now)
    requires r !in s.releases && release.status != Batched
    requires forall other :: other in s.releases ==>
               s.releases[other].guid != release.guid && s.releases[other].fingerprint != release.fingerprint
    ensures var t := s.(releases := s.releases[r := release]); ShelfOk(t, window, now) && Follows(s, t)
  {
  }

  /** A group that has not been told about the episode may be told. */
  lemma {:induction false} NewNotificationIsTheOnlyOne(jobs: map<Id, O.Job>, id: Id, job: O.Job, animeId: Id,
                                                       episode: Option<nat>)
    requires JobsOk(jobs) && id !in jobs
    requires job.payload.animeId == Some(animeId) && EpisodeNumber(job.payload.episodeLabel) == episode
    requires episode.Some? ==> !Told(jobs, job.group, animeId, episode.value)
    requires job.key.EpisodeKey? ==> episode.Some? && job.key == O.EpisodeKey(animeId, episode.value)
    ensures JobsOk(jobs[id := job])
  {
    hide EpisodeNumber;
    NewAnnouncementKeepsOnce(jobs, id, job);
  }

  ghost predicate Told(jobs: map<Id, O.Job>, group: Id, animeId: Id, episode: nat) {
    exists j :: j in jobs && Announces(jobs[j], group, animeId, episode)
  }

  /** The group knows about the batch: by episode if it has a number, by the batch's own key otherwise. */
  ghost predicate Knows(jobs: map<Id, O.Job>, group: Id, id: Id, batch: Batch) {
    batch.animeId.Some? &&
    match EpisodeNumber(batch.episodeLabel)
    case Some(n) => Told(jobs, group, batch.animeId.value, n)
    case None => exists j :: j in jobs && O.SameKey(jobs[j], group, O.Release, O.BatchKey(id))
  }

  /** Of the new notifications no two are for one group. */
  ghost predicate OneEach(jobs: map<Id, O.Job>, more: map<Id, O.Job>) {
    forall a, b :: IsNew(jobs, more, a) && IsNew(jobs, more, b) && more[a].group == more[b].group ==> a == b
  }

  lemma {:induction false} OneMoreJob(before: map<Id, O.Job>, jobs: map<Id, O.Job>, more: map<Id, O.Job>, group: Id)
    requires Extends(before, jobs) && OneEach(before, jobs) && Extends(jobs, more) && OneEach(jobs, more)
    requires forall j :: IsNew(before, jobs, j) ==> jobs[j].group != group
    requires forall j :: IsNew(jobs, more, j) ==> more[j].group == group
    ensures OneEach(before, more)
  {
    ExtendsOn(before, jobs, more);
  }

  lemma {:induction false} NotificationStays(a: O.Job, b: O.Job)
    requires KeepsContent(a, b) && a.kind == O.Release
    ensures forall batch, releases, share :: IsNotificationFor(a, batch, releases, share) ==>
              IsNotificationFor(b, batch, releases, share)
    ensures b.group == a.group && b.kind == O.Release
  {
    hide IsListing;
  }

  /** Every new notification is for one of these groups, and is what its share calls for. */
  ghost predicate NewFor(before: map<Id, O.Job>, jobs: map<Id, O.Job>, groups: seq<Id>, shares: map<Id, Share>,
                         batch: Batch, releases: map<Id, Release>) {
    forall j :: IsNew(before, jobs, j) ==>
      && jobs[j].group in groups && jobs[j].group in shares
      && IsNotificationFor(jobs[j], batch, releases, shares[jobs[j].group])
  }

  lemma {:induction false} NewForLasts(before: map<Id, O.Job>, jobs: map<Id, O.Job>, more: map<Id, O.Job>,
                                       groups: seq<Id>, group: Id, shares: map<Id, Share>, batch: Batch,
                                       releases: map<Id, Release>)
    requires Extends(before, jobs) && Extends(jobs, more) && NewFor(before, jobs, groups, shares, batch, releases)
    requires forall j :: IsNew(jobs, more, j) ==>
               more[j].group == group && group in shares && IsNotificationFor(more[j], batch, releases, shares[group])
    ensures NewFor(before, more, groups + [group], shares, batch, releases)
    ensures NothingNew(jobs, more) ==> NewFor(before, more, groups, shares, batch, releases)
  {
    hide KeepsContent, IsNotificationFor;
    ExtendsOn(before, jobs, more);
    forall j | IsNew(before, more, j) && j in jobs
      ensures more[j].group in groups && more[j].group in shares
      ensures IsNotificationFor(more[j], batch, releases, shares[more[j].group])
    {
      NewKeeps(before, jobs, more, j);
      NotificationStays(jobs[j], more[j]);
    }
  }

  lemma {:induction false} NewKeeps(before: map<Id, O.Job>, jobs: map<Id, O.Job>, more: map<Id, O.Job>, j: Id)
    requires Extends(jobs, more) && IsNew(before, more, j) && j in jobs
    ensures IsNew(before, jobs, j) && KeepsContent(jobs[j], more[j])
  {
  }

  lemma {:induction false} NewAreIn(before: map<Id, O.Job>, jobs: map<Id, O.Job>, groups: seq<Id>,
                                    shares: map<Id, Share>, batch: Batch, releases: map<Id, Release>)
    requires NewFor(before, jobs, groups, shares, batch, releases)
    ensures forall j :: IsNew(before, jobs, j) ==> jobs[j].group in groups
  {
    hide IsNotificationFor, IsNew;
  }

  lemma {:induction false} NobodyNew(jobs: map<Id, O.Job>, groups: seq<Id>, shares: map<Id, Share>, batch: Batch,
                                     releases: map<Id, Release>)
    ensures NewFor(jobs, jobs, groups, shares, batch, releases)
  {
  }

  lemma {:induction false} AnnouncementStays(a: O.Job, b: O.Job, group: Id, animeId: Id, episode: nat)
    requires KeepsContent(a, b)
    ensures Announces(a, group, animeId, episode) <==> Announces(b, group, animeId, episode)
  {
    hide EpisodeNumber;
  }

  lemma {:induction false} KnowingLasts(jobs: map<Id, O.Job>, more: map<Id, O.Job>, group: Id, id: Id, batch: Batch)
    requires Knows(jobs, group, id, batch) && Extends(jobs, more)
    ensures Knows(more, group, id, batch)
  {
    hide Announces, EpisodeNumber;
    var episode := EpisodeNumber(batch.episodeLabel);
    if episode.Some? {
      var j :| j in jobs && Announces(jobs[j], group, batch.animeId.value, episode.value);
      assert j in more && KeepsContent(jobs[j], more[j]);
      AnnouncementStays(jobs[j], more[j], group, batch.animeId.value, episode.value);
    } else {
      var j :| j in jobs && O.SameKey(jobs[j], group, O.Release, O.BatchKey(id));
      assert j in more;
    }
  }

  lemma {:induction false} SharesAreUsable(releases: map<Id, Release>, ids: seq<Id>, subscribers: seq<Subscriber>,
                                           shares: map<Id, Share>)
    requires Usable(releases, ids)
    requires forall g :: ShareAt(shares, g) == ShareOf(releases, ids, subscribers, g)
    requires forall g :: g in shares <==> ShareOf(releases, ids, subscribers, g).users != {}
    ensures forall g :: g in shares ==> shares[g].releases != {} && shares[g].releases <= releases.Keys
  {
    hide ShareOf;
    forall g | g in shares
      ensures shares[g].releases != {} && shares[g].releases <= releases.Keys
    {
      SharesAreWhole(releases, ids, subscribers, g);
      assert ShareAt(shares, g) == shares[g];
      assert forall r :: r in shares[g].releases ==> r in ids;
    }
  }

  lemma {:induction false} SharesAreLookups(releases: map<Id, Release>, ids: seq<Id>, subscribers: seq<Subscriber>,
                                            shares: map<Id, Share>)
    requires Usable(releases, ids)
    requires forall g :: ShareAt(shares, g) == ShareOf(releases, ids, subscribers, g)
    ensures forall g :: g in shares ==> shares[g] == ShareOf(releases, ids, subscribers, g)
  {
    hide ShareOf;
    forall g | g in shares
      ensures shares[g] == ShareOf(releases, ids, subscribers, g)
    {
      assert ShareAt(shares, g) == shares[g];
    }
  }

  /** What a notification says, and who knows about a batch, does not depend on the batch's status. */
  lemma {:induction false} NotificationsIgnoreStatus(jobs: map<Id, O.Job>, releases: map<Id, Release>,
                                                     a: Batch, b: Batch, id: Id)
    requires SameBatch(a, b)
    ensures forall j, share :: j in jobs ==>
              (IsNotificationFor(jobs[j], a, releases, share) <==>
                 IsNotificationFor(jobs[j], b, releases, share))
    ensures forall g :: Knows(jobs, g, id, a) <==> Knows(jobs, g, id, b)
    ensures forall earlier, g :: ToldByNumber(earlier, g, a) <==> ToldByNumber(earlier, g, b)
  {
    hide EpisodeNumber, IsListing, Told;
  }

  /** The group had been told about the batch's numeric episode. */
  ghost predicate ToldByNumber(jobs: map<Id, O.Job>, group: Id, batch: Batch) {
    batch.animeId.Some? && EpisodeNumber(batch.episodeLabel).Some?
      && Told(jobs, group, batch.animeId.value, EpisodeNumber(batch.episodeLabel).value)
  }

  /** A group has been told of a numbered batch exactly by a release notification of that group, that anime and that
      number, however the label is spelled and whatever the key; it knows of a batch without a number by the batch's own
      job. */
  lemma {:induction false} ToldIff(jobs: map<Id, O.Job>, group: Id, id: Id, batch: Batch)
    requires batch.animeId.Some?
    ensures var number := EpisodeNumber(batch.episodeLabel);
            && (number.Some? ==>
                  (Knows(jobs, group, id, batch) <==> ToldByNumber(jobs, group, batch))
                  && (ToldByNumber(jobs, group, batch) <==>
                        exists j :: j in jobs && jobs[j].kind == O.Release && jobs[j].group == group
                                    && jobs[j].payload.animeId == batch.animeId
                                    && EpisodeNumber(jobs[j].payload.episodeLabel) == number))
            && (number == None ==>
                  (Knows(jobs, group, id, batch) <==>
                     exists j :: j in jobs && jobs[j].kind == O.Release && jobs[j].group == group
                                 && jobs[j].key == O.BatchKey(id)))
  {
    hide EpisodeNumber;
    forall j | j in jobs && EpisodeNumber(batch.episodeLabel).Some?
      ensures Announces(jobs[j], group, batch.animeId.value, EpisodeNumber(batch.episodeLabel).value) <==>
              jobs[j].kind == O.Release && jobs[j].group == group && jobs[j].payload.animeId == batch.animeId
              && EpisodeNumber(jobs[j].payload.episodeLabel) == EpisodeNumber(batch.episodeLabel)
    {
    }
  }

  function ShareFor(releases: map<Id, Release>, world: World, now: int, group: Id): Share
    requires Usable(releases, world.listing)
  {
    ShareOf(releases, FreshIds(releases, world.listing, now), world.subscribers, group)
  }

  /** The job is what its group is owed for the batch: its own share of the fresh releases. */
  ghost predicate Owed(job: O.Job, releases: map<Id, Release>, batch: Batch, world: World, now: int) {
    && Usable(releases, world.listing) && !Dropped(releases, batch, world, now)
    && IsNotificationFor(job, batch, releases, ShareFor(releases, world, now, job.group))
  }

  /** The batch was given up on, or every group that has a share in it knows about it. */
  ghost predicate Served(jobs: map<Id, O.Job>, releases: map<Id, Release>, id: Id, batch: Batch, world: World,
                         now: int) {
    Usable(releases, world.listing) &&
    (!Dropped(releases, batch, world, now) ==>
       forall g :: ShareFor(releases, world, now, g).users != {} ==> Knows(jobs, g, id, batch))
  }

  /** The batch is not given up on, and some group with a share in it has not been told its episode yet. */
  ghost predicate Tells(jobs: map<Id, O.Job>, releases: map<Id, Release>, batch: Batch, world: World, now: int) {
    && Usable(releases, world.listing) && !Dropped(releases, batch, world, now)
    && exists g :: ShareFor(releases, world, now, g).users != {} && !ToldByNumber(jobs, g, batch)
  }

  /** Planning a batch with an episode number tells somebody exactly when it has not been served yet: one that an
      interrupted planning had announced to everyone ends up suppressed. */
  lemma {:induction false} TellsIffUnserved(jobs: map<Id, O.Job>, releases: map<Id, Release>, id: Id, batch: Batch,
                                            world: World, now: int)
    requires Usable(releases, world.listing) && !Dropped(releases, batch, world, now)
    requires batch.animeId.Some? && EpisodeNumber(batch.episodeLabel).Some?
    ensures Tells(jobs, releases, batch, world, now) <==> !Served(jobs, releases, id, batch, world, now)
  {
    hide EpisodeNumber, ShareFor, Dropped, Told;
    assert forall g :: Knows(jobs, g, id, batch) <==> ToldByNumber(jobs, g, batch);
  }

  lemma {:induction false} ServedLasts(jobs: map<Id, O.Job>, more: map<Id, O.Job>, releases: map<Id, Release>, id: Id,
                                       batch: Batch, world: World, now: int)
    requires Served(jobs, releases, id, batch, world, now) && Extends(jobs, more)
    ensures Served(more, releases, id, batch, world, now)
  {
    hide Knows, ShareFor, Dropped;
    forall g | Knows(jobs, g, id, batch)
      ensures Knows(more, g, id, batch)
    {
      KnowingLasts(jobs, more, g, id, batch);
    }
  }

  /** Every new job is owed for one of the batches. */
  ghost predicate AllOwed(jobs: map<Id, O.Job>, more: map<Id, O.Job>, releases: map<Id, Release>,
                          batches: map<Id, Batch>, ids: seq<Id>, worlds: Id -> World, now: int) {
    forall j :: IsNew(jobs, more, j) ==> OwedForOne(more[j], releases, batches, ids, worlds, now)
  }

  ghost predicate OwedForOne(job: O.Job, releases: map<Id, Release>, batches: map<Id, Batch>, ids: seq<Id>,
                             worlds: Id -> World, now: int) {
    exists i :: 0 <= i < |ids| && ids[i] in batches && Owed(job, releases, batches[ids[i]], worlds(ids[i]), now)
  }

  /** Every one of the batches that has an anime is served. */
  ghost predicate AllServed(jobs: map<Id, O.Job>, releases: map<Id, Release>, batches: map<Id, Batch>, ids: seq<Id>,
                            worlds: Id -> World, now: int) {
    forall b :: b in ids && b in batches && batches[b].animeId.Some? ==>
      Served(jobs, releases, b, batches[b], worlds(b), now)
  }

  /** Nobody else acts while any of the batches is planned. */
  ghost predicate AllQuiet(ids: seq<Id>, worlds: Id -> World) {
    forall b :: b in ids ==> Quiet(worlds(b))
  }

  lemma {:induction false} NoBatchYet(jobs: map<Id, O.Job>, releases: map<Id, Release>, batches: map<Id, Batch>,
                                      ids: seq<Id>, worlds: Id -> World, now: int)
    ensures AllOwed(jobs, jobs, releases, batches, ids, worlds, now)
    ensures AllServed(jobs, releases, batches, ids[..0], worlds, now)
  {
  }

  lemma {:induction false} OwedStays(a: O.Job, b: O.Job, releases: map<Id, Release>, batch: Batch, world: World,
                                     now: int)
    requires KeepsContent(a, b) && a.kind == O.Release && Owed(a, releases, batch, world, now)
    ensures Owed(b, releases, batch, world, now)
  {
    hide KeepsContent, IsNotificationFor, Dropped, ShareFor;
    NotificationStays(a, b);
  }

  lemma {:induction false} OneMoreBatch(before: map<Id, O.Job>, jobs: map<Id, O.Job>, more: map<Id, O.Job>,
                                        releases: map<Id, Release>, batches: map<Id, Batch>, ids: seq<Id>, k: nat,
                                        worlds: Id -> World, now: int)
    requires k < |ids| && ids[k] in batches && Extends(before, jobs) && Extends(jobs, more)
    requires AllOwed(before, jobs, releases, batches, ids, worlds, now)
    requires AllServed(jobs, releases, batches, ids[..k], worlds, now)
    requires forall j :: IsNew(jobs, more, j) ==> Owed(more[j], releases, batches[ids[k]], worlds(ids[k]), now)
    ensures AllOwed(before, more, releases, batches, ids, worlds, now)
    ensures (batches[ids[k]].animeId.Some? ==> Served(more, releases, ids[k], batches[ids[k]], worlds(ids[k]), now)) ==>
              AllServed(more, releases, batches, ids[..k + 1], worlds, now)
  {
    hide Owed, Served, Extends, KeepsContent;
    assert ids[..k + 1] == ids[..k] + [ids[k]];
    forall j | IsNew(before, more, j)
      ensures OwedForOne(more[j], releases, batches, ids, worlds, now)
    {
      if j in jobs {
        NewKeeps(before, jobs, more, j);
        var i :| 0 <= i < |ids| && ids[i] in batches && Owed(jobs[j], releases, batches[ids[i]], worlds(ids[i]), now);
        OwedStays(jobs[j], more[j], releases, batches[ids[i]], worlds(ids[i]), now);
      }
    }
    forall b | b in ids[..k] && b in batches && batches[b].animeId.Some?
      ensures Served(more, releases, b, batches[b], worlds(b), now)
    {
      ServedLasts(jobs, more, releases, b, batches[b], worlds(b), now);
    }
  }

  /** The first `k` of the batches have been planned, and no other batch has changed. */
  ghost predicate ClosedUpTo(before: map<Id, Batch>, batches: map<Id, Batch>, ids: seq<Id>, k: nat)
    requires k <= |ids|
  {
    && batches.Keys == before.Keys
    && (forall b :: b in batches ==> SameBatch(before[b], batches[b]))
    && (forall b :: b in batches && b !in ids[..k] ==> batches[b] == before[b])
    && (forall b :: b in ids[..k] && b in batches && batches[b].animeId.Some? ==> !Waiting(batches[b]))
  }

  ghost predicate NoneStale(batches: map<Id, Batch>, cutoff: int) {
    forall b :: b in batches && Waiting(batches[b]) && batches[b].animeId.Some? ==> batches[b].startedAt > cutoff
  }

  lemma {:induction false} NothingClosed(batches: map<Id, Batch>, ids: seq<Id>)
    ensures ClosedUpTo(batches, batches, ids, 0)
  {
  }

  lemma {:induction false} NextIsAsItWas(before: map<Id, Batch>, batches: map<Id, Batch>, ids: seq<Id>, k: nat)
    requires k < |ids| && Distinct(ids) && ids[k] in before && ClosedUpTo(before, batches, ids, k)
    ensures ids[k] in batches && batches[ids[k]] == before[ids[k]]
  {
    var id := ids[k];
    assert id !in ids[..k];
  }

  lemma {:induction false} OneMoreClosed(before: map<Id, Batch>, batches: map<Id, Batch>, more: map<Id, Batch>,
                                         ids: seq<Id>, k: nat)
    requires k < |ids| && ids[k] in batches && ids[k] in more && ClosedUpTo(before, batches, ids, k)
    requires more == batches[ids[k] := more[ids[k]]] && SameBatch(batches[ids[k]], more[ids[k]])
    requires batches[ids[k]].animeId.Some? ==> !Waiting(more[ids[k]])
    ensures ClosedUpTo(before, more, ids, k + 1)
  {
    assert ids[..k + 1] == ids[..k] + [ids[k]];
  }

  lemma {:induction false} NothingIsStale(before: map<Id, Batch>, batches: map<Id, Batch>, ids: seq<Id>, cutoff: int)
    requires ClosedUpTo(before, batches, ids, |ids|)
    requires forall b :: b in before && Waiting(before[b]) && before[b].startedAt <= cutoff ==> b in ids
    ensures NoneStale(batches, cutoff)
  {
    assert ids[..|ids|] == ids;
  }

  lemma {:induction false} AlreadyIsTold(jobs: map<Id, O.Job>, batch: Batch, groups: set<Id>, already: set<Id>)
    requires batch.animeId.Some?
    requires already == match EpisodeNumber(batch.episodeLabel)
                        case Some(n) => AlreadyNotified(jobs, batch.animeId.value, n, groups)
                        case None => {}
    ensures forall g :: g in groups ==> (g in already <==> ToldByNumber(jobs, g, batch))
  {
    hide EpisodeNumber;
  }

  lemma {:induction false} AlreadyKnows(jobs: map<Id, O.Job>, group: Id, id: Id, batch: Batch, groups: set<Id>)
    requires batch.animeId.Some? && EpisodeNumber(batch.episodeLabel).Some?
    requires group in AlreadyNotified(jobs, batch.animeId.value, EpisodeNumber(batch.episodeLabel).value, groups)
    ensures Knows(jobs, group, id, batch)
  {
    hide EpisodeNumber;
  }

  lemma {:induction false} NotYetTold(before: map<Id, O.Job>, jobs: map<Id, O.Job>, group: Id, batch: Batch)
    requires forall j :: IsNew(before, jobs, j) ==> jobs[j].group != group
    requires Extends(before, jobs) && !ToldByNumber(before, group, batch)
    ensures !ToldByNumber(jobs, group, batch)
  {
    hide EpisodeNumber;
  }

  lemma {:induction false} OthersAreLegal(world: World, n: nat)
    requires OthersOnly(world)
    ensures forall i :: 0 <= i < |world.meanwhile(n)| ==> ByOthers(world.meanwhile(n)[i])
  {
  }

  lemma {:induction false} NothingNewIsNoNew(jobs: map<Id, O.Job>, more: map<Id, O.Job>)
    requires NothingNew(jobs, more)
    ensures forall j :: !IsNew(jobs, more, j)
    ensures OneEach(jobs, more)
  {
  }

  lemma {:induction false} NewForMore(before: map<Id, O.Job>, jobs: map<Id, O.Job>, groups: seq<Id>, group: Id,
                                      shares: map<Id, Share>, batch: Batch, releases: map<Id, Release>)
    requires NewFor(before, jobs, groups, shares, batch, releases)
    ensures NewFor(before, jobs, groups + [group], shares, batch, releases)
  {
    hide IsNotificationFor, IsNew;
  }

  lemma {:induction false} SomeElements<T>(s: set<T>)
    requires s != {}
    ensures |s| > 0
  {
  }

  /** Once a job is stored under the batch's key, the group knows about the batch. */
  lemma {:induction false} KeyMeansKnowing(jobs: map<Id, O.Job>, group: Id, id: Id, batch: Batch)
    requires JobsOk(jobs) && batch.animeId.Some?
    ensures (exists j :: j in jobs && O.SameKey(jobs[j], group, O.Release, KeyFor(id, batch))) ==>
              Knows(jobs, group, id, batch)
  {
    hide EpisodeNumber;
  }

  // ---------------------------------------------------------------- polling

  datatype Target = Target(feed: Id, animeId: Id)

  /** What the feed answers, and which calls raise. */
  datatype PollScript = PollScript(fetchRaises: bool, notModified: bool, items: seq<Release>,
                                   raisesAtItem: Option<nat>, recordRaises: bool, failureRecordRaises: bool)

  /** The feed has never been polled successfully. */
  predicate OnTakingStock(feeds: map<Id, Feed>, target: Target) {
    target.feed !in feeds || feeds[target.feed].lastSuccessAt == None
  }

  /** The poll is broken off: while fetching, at one of the items, or while its success is recorded. */
  predicate BreaksOff(script: PollScript) {
    || script.fetchRaises || script.recordRaises
    || (!script.notModified && script.raisesAtItem.Some? && script.raisesAtItem.value < |script.items|)
  }

  /** The item or one that cannot be told from it is stored. */
  ghost predicate IsKnown(releases: map<Id, Release>, item: Release) {
    exists r :: r in releases && (releases[r].guid == item.guid || releases[r].fingerprint == item.fingerprint)
  }

  lemma {:induction false} KnownStaysKnown(before: map<Id, Release>, after: map<Id, Release>, items: seq<Release>)
    requires forall r :: r in before ==> r in after && after[r] == before[r]
    ensures forall i :: 0 <= i < |items| && IsKnown(before, items[i]) ==> IsKnown(after, items[i])
  {
    forall i | 0 <= i < |items| && IsKnown(before, items[i])
      ensures IsKnown(after, items[i])
    {
      var r :| r in before && (before[r].guid == items[i].guid || before[r].fingerprint == items[i].fingerprint);
      assert r in after;
    }
  }

  /** A new row is one of the items, batched exactly if it is fresh, has an episode and the feed has been polled
      before. */
  ghost predicate ComesFrom(release: Release, script: PollScript, animeId: Id, stockOnly: bool, now: int) {
    exists i :: 0 <= i < |script.items| && release == FromItem(script.items[i], animeId, stockOnly, now)
  }

  function FromItem(item: Release, animeId: Id, stockOnly: bool, now: int): Release {
    Stored(item, animeId, !stockOnly && IsFresh(item.pubDate, now))
  }

  /** What ingesting one item does: nothing, or one new row that is in a batch younger than the window exactly if it has
      an episode and may open one. */
  ghost predicate IngestedOne(s: Shelf, t: Shelf, item: Release, animeId: Id, openBatch: bool, created: bool,
                              window: int, now: int) {
    && (!created ==> t == s)
    && (created ==> exists r ::
          && r !in s.releases && t.releases == s.releases[r := Stored(item, animeId, openBatch)]
          && (r in t.items <==> openBatch && item.episodeLabel.Some?)
          && (r in t.items ==> t.items[r] in t.batches && t.batches[t.items[r]].startedAt > now - window))
    && (!openBatch ==> t.batches == s.batches && t.items == s.items)
    && OnlyNewBatches(s.batches, t.batches, now)
  }

  /** What ingesting the first `k` items of a feed does. */
  ghost predicate Ingested(s: Shelf, t: Shelf, created: nat, script: PollScript, k: nat, animeId: Id, stockOnly: bool,
                           now: int) {
    && Follows(s, t) && OnlyNewBatches(s.batches, t.batches, now)
    && |t.releases| == |s.releases| + created
    && (forall i :: 0 <= i < k && i < |script.items| ==> IsKnown(t.releases, script.items[i]))
    && (forall r :: r in t.releases && r !in s.releases ==> ComesFrom(t.releases[r], script, animeId, stockOnly, now))
    && (stockOnly ==> t.batches == s.batches && t.items == s.items)
  }

  lemma {:induction false} NothingIngested(s: Shelf, script: PollScript, animeId: Id, stockOnly: bool, now: int)
    ensures forall k: nat :: k == 0 ==> Ingested(s, s, 0, script, k, animeId, stockOnly, now)
  {
  }

  lemma {:induction false} OneMoreItem(first: Shelf, s: Shelf, t: Shelf, created: nat, script: PollScript, k: nat,
                                       animeId: Id, stockOnly: bool, window: int, now: int, stored: bool)
    requires k < |script.items| && Ingested(first, s, created, script, k, animeId, stockOnly, now) && Follows(s, t)
    requires stored <==> !IsKnown(s.releases, script.items[k])
    requires IngestedOne(s, t, script.items[k], animeId, !stockOnly && IsFresh(script.items[k].pubDate, now), stored,
                         window, now)
    ensures Ingested(first, t, created + if stored then 1 else 0, script, k + 1, animeId, stockOnly, now)
  {
    hide Follows, OnlyNewBatches, IsKnown, ComesFrom, Stored;
    FollowsIsTransitive(first, s, t);
    NewBatchesAddUp(first.batches, s.batches, t.batches, now);
    ItemIsIn(s.releases, t.releases, script, k, animeId, stockOnly, now, stored);
    KnownStaysKnown(s.releases, t.releases, script.items);
  }

  /** How many items are dealt with before one of them raises. */
  function Reached(script: PollScript): nat {
    if script.raisesAtItem.Some? && script.raisesAtItem.value < |script.items|
    then script.raisesAtItem.value else |script.items|
  }

  /** Everything a poll has come to is known, even if it was broken off later. */
  ghost predicate AllKnown(releases: map<Id, Release>, script: PollScript) {
    !script.fetchRaises && !script.notModified ==>
      forall i :: 0 <= i < Reached(script) ==> IsKnown(releases, script.items[i])
  }

  ghost predicate OnlyNewBatches(before: map<Id, Batch>, after: map<Id, Batch>, now: int) {
    forall b :: b in after ==> (b in before && after[b] == before[b]) || after[b].startedAt == now
  }

  lemma {:induction false} NoNewBatches(batches: map<Id, Batch>, now: int)
    ensures OnlyNewBatches(batches, batches, now)
  {
  }

  lemma {:induction false} NewBatchesAddUp(a: map<Id, Batch>, b: map<Id, Batch>, c: map<Id, Batch>, now: int)
    requires OnlyNewBatches(a, b, now) && OnlyNewBatches(b, c, now)
    ensures OnlyNewBatches(a, c, now)
  {
  }

  function Min(a: int, b: int): int {
    if a < b then a else b
  }

  function Doubled(interval: int, times: nat): int {
    if times == 0 then interval else 2 * Doubled(interval, times - 1)
  }

  function BackoffDelay(interval: int, failures: nat): int {
    Min(Doubled(interval, Min(failures, 4)), HOUR)
  }

  /** Repeated failures never shorten the delay; it stays between twice the poll interval and an hour. */
  lemma {:induction false} BackoffGrows(interval: int, fewer: nat, more: nat)
    requires interval >= 0 && 1 <= fewer <= more
    ensures BackoffDelay(interval, fewer) <= BackoffDelay(interval, more) <= HOUR
    ensures BackoffDelay(interval, fewer) >= Min(2 * interval, HOUR)
  {
    DoublingGrows(interval, Min(fewer, 4), Min(more, 4));
    DoublingGrows(interval, 1, Min(fewer, 4));
  }

  /** The delay after so many failures in a row: twice, four, eight and sixteen times the poll interval, then no more,
      and never more than an hour. */
  lemma {:induction false} BackoffIs(interval: int, failures: nat)
    requires failures >= 1
    ensures var times := if failures == 1 then 2 else if failures == 2 then 4 else if failures == 3 then 8 else 16;
            BackoffDelay(interval, failures) == if times * interval < 3_600 * SECOND then times * interval
                                                else 3_600 * SECOND
  {
    assert Doubled(interval, 1) == 2 * interval && Doubled(interval, 2) == 4 * interval;
    assert Doubled(interval, 3) == 8 * interval && Doubled(interval, 4) == 16 * interval;
  }

  lemma {:induction false} DoublingGrows(interval: int, a: nat, b: nat)
    requires interval >= 0 && a <= b
    ensures 0 <= Doubled(interval, a) <= Doubled(interval, b)
  {
    if b > 0 {
      if a < b {
        DoublingGrows(interval, a, b - 1);
      } else {
        DoublingGrows(interval, a - 1, b - 1);
      }
    }
  }

  /** What a feed's row says after it was polled, or after the failure was recorded. */
  predicate FeedAfter(feeds: map<Id, Feed>, feed: Id, script: PollScript, pollInterval: int, now: int) {
    if !BreaksOff(script) then feed in feeds && feeds[feed] == Feed(Some(now), now + pollInterval, 0)
    else !script.failureRecordRaises ==>
           && feed in feeds && feeds[feed].failures >= 1
           && feeds[feed].nextPollAt == now + BackoffDelay(pollInterval, feeds[feed].failures)
  }

  /** No later one of the first `k` targets polls the same feed; a feed may belong to several anime. */
  predicate LastPoll(targets: seq<Target>, i: nat, k: nat)
    requires i < k <= |targets|
  {
    forall j :: i < j < k ==> targets[j].feed != targets[i].feed
  }

  ghost predicate FeedsPolled(feeds: map<Id, Feed>, targets: seq<Target>, scripts: seq<PollScript>, k: nat,
                              pollInterval: int, now: int)
    requires k <= |targets| == |scripts|
  {
    forall i :: 0 <= i < k && LastPoll(targets, i, k) ==>
      FeedAfter(feeds, targets[i].feed, scripts[i], pollInterval, now)
  }

  lemma {:induction false} OneMoreFeed(before: map<Id, Feed>, after: map<Id, Feed>, targets: seq<Target>,
                                       scripts: seq<PollScript>, k: nat, pollInterval: int, now: int)
    requires k < |targets| == |scripts| && FeedsPolled(before, targets, scripts, k, pollInterval, now)
    requires forall f :: f != targets[k].feed ==>
               (f in before <==> f in after) && (f in before ==> after[f] == before[f])
    requires FeedAfter(after, targets[k].feed, scripts[k], pollInterval, now)
    ensures FeedsPolled(after, targets, scripts, k + 1, pollInterval, now)
  {
    hide BackoffDelay;
    forall i | 0 <= i < k && LastPoll(targets, i, k + 1)
      ensures FeedAfter(after, targets[i].feed, scripts[i], pollInterval, now)
    {
      assert LastPoll(targets, i, k) && targets[k].feed != targets[i].feed;
    }
  }

  function FailuresOf(scripts: seq<PollScript>): nat {
    if scripts == [] then 0 else
      FailuresOf(scripts[..|scripts| - 1]) + if BreaksOff(scripts[|scripts| - 1]) then 1 else 0
  }

  lemma {:induction false} OneMoreFailure(scripts: seq<PollScript>, k: nat)
    requires k < |scripts|
    ensures FailuresOf(scripts[..k + 1]) == FailuresOf(scripts[..k]) + if BreaksOff(scripts[k]) then 1 else 0
  {
    assert scripts[..k + 1][..k] == scripts[..k];
  }

  /** What the first `k` polls of a run do to the shelf. Items stored by a poll that is broken off later are not
      counted. */
  ghost predicate Polled(s: Shelf, t: Shelf, scripts: seq<PollScript>, k: nat, created: nat, failures: nat)
    requires k <= |scripts|
  {
    && Follows(s, t) && failures == FailuresOf(scripts[..k])
    && (forall i :: 0 <= i < k ==> AllKnown(t.releases, scripts[i]))
    && |t.releases| >= |s.releases| + created
    && (failures == 0 ==> |t.releases| == |s.releases| + created)
  }

  lemma {:induction false} NothingPolled(s: Shelf, scripts: seq<PollScript>)
    ensures Polled(s, s, scripts, 0, 0, 0)
  {
  }

  lemma {:induction false} OneMorePoll(first: Shelf, s: Shelf, t: Shelf, scripts: seq<PollScript>, k: nat, created: nat,
                                       failures: nat, count: nat)
    requires k < |scripts| && Polled(first, s, scripts, k, created, failures) && Follows(s, t)
    requires AllKnown(t.releases, scripts[k]) && |t.releases| == |s.releases| + count
    ensures BreaksOff(scripts[k]) ==> Polled(first, t, scripts, k + 1, created, failures + 1)
    ensures !BreaksOff(scripts[k]) ==> Polled(first, t, scripts, k + 1, created + count, failures)
  {
    hide Follows, AllKnown, BreaksOff;
    FollowsIsTransitive(first, s, t);
    FollowsKeepsReleases(s, t);
    KnownInAll(s.releases, t.releases, scripts, k);
    OneMoreFailure(scripts, k);
  }

  lemma {:induction false} PolledSince(first: Shelf, s: Shelf, t: Shelf, scripts: seq<PollScript>, created: nat,
                                       failures: nat)
    requires Follows(first, s) && first.releases == s.releases && Polled(s, t, scripts, |scripts|, created, failures)
    ensures Follows(first, t) && Polled(first, t, scripts, |scripts|, created, failures)
  {
    hide Follows, AllKnown;
    FollowsIsTransitive(first, s, t);
  }

  lemma {:induction false} StillNoneStale(before: map<Id, Batch>, batches: map<Id, Batch>, now: int, window: int)
    requires NoneStale(before, now - window) && OnlyNewBatches(before, batches, now) && window > 0
    ensures NoneStale(batches, now - window)
  {
  }

  lemma {:induction false} KnownInAll(before: map<Id, Release>, after: map<Id, Release>, scripts: seq<PollScript>,
                                      k: nat)
    requires k <= |scripts| && forall r :: r in before ==> r in after && after[r] == before[r]
    requires forall i :: 0 <= i < k ==> AllKnown(before, scripts[i])
    ensures forall i :: 0 <= i < k ==> AllKnown(after, scripts[i])
  {
    forall i | 0 <= i < k
      ensures AllKnown(after, scripts[i])
    {
      KnownStaysKnown(before, after, scripts[i].items);
    }
  }

  // ---------------------------------------------------------------- the pipeline

  class MikanReleasePipeline {
    var releases: map<Id, Release>
    var batches: map<Id, Batch>
    var items: map<Id, Id>
    var feeds: map<Id, Feed>
    const outbox: O.NotificationTable
    const window: int
    const pollInterval: int
    /** The latest instant a run was started at. */
    ghost var clock: int

    function Contents(): Shelf
      reads this
    {
      Shelf(releases, batches, items)
    }

    ghost predicate Valid()
      reads this, outbox
    {
      window > 0 && ShelfOk(Contents(), window, clock) && JobsOk(outbox.jobs)
    }

    constructor (outbox: O.NotificationTable, pollInterval: int, window: int, ghost start: int)
      requires window > 0 && JobsOk(outbox.jobs)
      ensures Valid() && clock == start && Contents() == Shelf(map[], map[], map[])
      ensures this.outbox == outbox && this.window == window && this.pollInterval == pollInterval
    {
      releases, batches, items, feeds := map[], map[], map[], map[];
      this.outbox, this.pollInterval, this.window := outbox, pollInterval, window;
      clock := start;
    }

    /** The open batch of an episode that still takes in releases, or a new one. There is never a choice. */
    method OpenBatch(animeId: Id, episodeLabel: string, now: int) returns (id: Id, batch: Batch)
      requires Valid() && now >= clock
      ensures batch.animeId == Some(animeId) && batch.episodeLabel == episodeLabel
      ensures batch.status == Open && now - window < batch.startedAt <= now
      ensures id in batches ==> batches[id] == batch
      ensures id !in batches ==> batch.startedAt == now && NoRoomFor(batches, batch, window, now)
      ensures forall other :: (other in batches && SameEpisode(batches[other], batch) &&
                batches[other].status == Open && batches[other].startedAt > now - window) ==> other == id
    {
      hide ItemsOk, UniqueReleases;
      var fits := set b | b in batches && batches[b].animeId == Some(animeId) && batches[b].episodeLabel == episodeLabel
                          && batches[b].status == Open && batches[b].startedAt > now - window;
      if fits != {} {
        id := Pick(fits);
        batch := batches[id];
      } else {
        id := FreshId(batches.Keys);
        batch := Batch(Some(animeId), episodeLabel, now, None, Open);
        forall b | b in batches && SameEpisode(batches[b], batch) && batches[b].status == Open
          ensures batches[b].startedAt <= now - window
        {
          assert b !in fits;
        }
      }
    }

    /** Stores a feed item unless its guid or its fingerprint is known, and shelves it if it may open a batch. */
    method IngestItem(item: Release, animeId: Id, now: int, openBatch: bool) returns (created: bool)
      requires Valid() && now == clock
      modifies this`releases, this`batches, this`items
      ensures Valid() && Follows(old(Contents()), Contents())
      ensures created <==> !IsKnown(old(releases), item)
      ensures IngestedOne(old(Contents()), Contents(), item, animeId, openBatch, created, window, now)
    {
      hide ShelfOk, Follows, JobsOk, IngestedOne, NoRoomFor;
      if r :| r in releases && (releases[r].guid == item.guid || releases[r].fingerprint == item.fingerprint) {
        FollowsItself(Contents());
        ItemIsIgnored(Contents(), item, animeId, openBatch, window, now);
        return false;
      }
      var release := Stored(item, animeId, openBatch);
      var r := FreshId(releases.Keys);
      NotYetShelved(Contents(), window, clock, r);
      if item.episodeLabel == None || !openBatch {
        ReleaseIsSetAside(Contents(), window, now, r, release);
        ItemIsSetAside(Contents(), r, item, animeId, openBatch, window, now);
        releases := releases[r := release];
        return true;
      }
      var b, batch := OpenBatch(animeId, item.episodeLabel.value, now);
      ReleaseIsShelved(Contents(), window, now, r, release, b, batch);
      ItemIsShelved(Contents(), r, item, animeId, b, batch, window, now);
      releases := releases[r := release];
      batches := batches[b := batch];
      items := items[r := b];
      return true;
    }

    /** Plans the notifications of one batch whose window is over. A normal return leaves the batch of an anime planned
        or suppressed; an exception leaves it as it was or ready, to be planned again by a later run. */
    method PlanBatch(id: Id, now: int, world: World) returns (raised: bool)
      requires Valid() && now == clock && AnswersFor(world, Contents(), id)
      requires Waiting(batches[id]) ==> batches[id].startedAt + window <= now
      modifies this`batches, outbox
      ensures Valid() && Follows(old(Contents()), Contents()) && releases == old(releases) && items == old(items)
      ensures batches == old(batches)[id := batches[id]] && SameBatch(old(batches)[id], batches[id])
      ensures world.readyRaises || !Waiting(old(batches)[id]) ==>
                raised == world.readyRaises && batches == old(batches) && outbox.jobs == old(outbox.jobs)
      ensures !world.readyRaises && Waiting(old(batches)[id]) ==>
                batches[id].status != Open && batches[id].closedAt.Some?
      ensures raised ==> Interrupts(world) && (batches[id].status == Ready || batches == old(batches))
      ensures world.lookupRaises && Waiting(old(batches)[id]) ==> raised && outbox.jobs == old(outbox.jobs)
      ensures Extends(old(outbox.jobs), outbox.jobs)
      ensures Quiet(world) ==> Untouched(old(outbox.jobs), outbox.jobs, now)
      ensures forall j :: IsNew(old(outbox.jobs), outbox.jobs, j) ==>
                Owed(outbox.jobs[j], releases, old(batches)[id], world, now)
      ensures Waiting(old(batches)[id]) && old(batches)[id].animeId == None && !raised ==>
                batches[id].status == Ready && outbox.jobs == old(outbox.jobs)
      ensures !raised && Waiting(old(batches)[id]) && old(batches)[id].animeId.Some? ==> !Waiting(batches[id])
      // A batch that is given up is told to nobody, and suppressed.
      ensures Usable(releases, world.listing)
      ensures IsGivenUp(releases, old(batches)[id], world, now) ==>
                outbox.jobs == old(outbox.jobs)
                && (!raised && Waiting(old(batches)[id]) && old(batches)[id].animeId.Some? ==>
                      batches[id].status == Suppressed)
      // All who are concerned know of it, unless something other than marking the batch raised.
      ensures Waiting(old(batches)[id]) && old(batches)[id].animeId.Some?
              && !world.readyRaises && !world.lookupRaises && !BreaksOffTelling(world) ==>
                raised == world.markingRaises && Served(outbox.jobs, releases, id, old(batches)[id], world, now)
      ensures !raised && Waiting(old(batches)[id]) && old(batches)[id].animeId.Some? ==>
                Served(outbox.jobs, releases, id, old(batches)[id], world, now)
      // A batch counts as planned exactly when this very planning told somebody.
      ensures !raised && Waiting(old(batches)[id]) && old(batches)[id].animeId.Some? ==>
                (batches[id].status == Planned <==>
                   Tells(old(outbox.jobs), releases, old(batches)[id], world, now))
    {
      hide ShelfOk, Follows, JobsOk, AnswersFor, Dropped, Owed, Served, Tells, Extends, Untouched, Quiet, OthersOnly,
           IsGivenUp;
      ghost var shelf := Contents();
      ExtendsItself(outbox.jobs);
      FollowsItself(shelf);
      ListingIsUsable(world, shelf, id);
      if world.readyRaises {
        return true;
      }
      if !Waiting(batches[id]) {
        return false;
      }
      MarkReady(id, now);
      ghost var marked := Contents();
      if world.lookupRaises {
        return true;
      }
      if batches[id].animeId == None {
        return false;
      }
      var planned;
      planned, raised := TellOrDrop(id, batches[id], old(batches)[id], now, world);
      if raised || world.markingRaises {
        return true;
      }
      MarkFinal(id, if planned > 0 then Planned else Suppressed);
      FollowsIsTransitive(shelf, marked, Contents());
    }

    /** The first transaction: the batch is ready to be planned. */
    method MarkReady(id: Id, now: int)
      requires Valid() && now == clock && id in batches && Waiting(batches[id]) && batches[id].startedAt + window <= now
      modifies this`batches
      ensures Valid() && Follows(old(Contents()), Contents())
      ensures batches == old(batches)[id := batches[id]] && SameBatch(old(batches)[id], batches[id])
      ensures batches[id].status == Ready
      ensures batches[id].closedAt == if old(batches)[id].closedAt == None then Some(now) else old(batches)[id].closedAt
    {
      hide ShelfOk, Follows, JobsOk;
      var batch := batches[id];
      var ready := batch.(status := Ready, closedAt := if batch.closedAt == None then Some(now) else batch.closedAt);
      BatchChangesStatus(Contents(), window, clock, now, id, ready);
      batches := batches[id := ready];
    }

    /** The last transaction: the batch has been planned or suppressed. */
    method MarkFinal(id: Id, status: BatchStatus)
      requires Valid() && id in batches && batches[id].status == Ready && (status == Planned || status == Suppressed)
      requires batches[id].startedAt + window <= clock
      modifies this`batches
      ensures Valid() && Follows(old(Contents()), Contents())
      ensures batches == old(batches)[id := old(batches)[id].(status := status)]
    {
      hide ShelfOk, Follows, JobsOk;
      var final := batches[id].(status := status);
      BatchChangesStatus(Contents(), window, clock, clock, id, final);
      batches := batches[id := final];
    }

    /** Gives the batch up, or announces it to the groups concerned. `was` is the batch before it was marked ready. */
    method TellOrDrop(id: Id, batch: Batch, ghost was: Batch, now: int, world: World)
      returns (planned: nat, raised: bool)
      requires JobsOk(outbox.jobs) && batch.animeId.Some? && Usable(releases, world.listing) && SameBatch(was, batch)
      requires OthersOnly(world)
      modifies outbox
      ensures JobsOk(outbox.jobs) && Extends(old(outbox.jobs), outbox.jobs)
      ensures Quiet(world) ==> Untouched(old(outbox.jobs), outbox.jobs, now)
      ensures raised ==> BreaksOffTelling(world)
      ensures IsGivenUp(releases, was, world, now) ==>
                outbox.jobs == old(outbox.jobs) && planned == 0 && !raised
      ensures forall j :: IsNew(old(outbox.jobs), outbox.jobs, j) ==>
                Owed(outbox.jobs[j], releases, was, world, now)
      ensures !raised ==> Served(outbox.jobs, releases, id, was, world, now)
      ensures !raised ==> (planned > 0 <==> Tells(old(outbox.jobs), releases, was, world, now))
    {
      hide JobsOk, IsNotificationFor, Knows, EpisodeNumber, HighestAvailableEpisode, ShareOf, FreshIds, ToldByNumber,
           Extends, Untouched, Quiet, OthersOnly, IsGivenUp;
      ExtendsItself(outbox.jobs);
      GivenUpIff(releases, was, world, now);
      var episode := EpisodeNumber(batch.episodeLabel);
      var highest := HighestAvailableEpisode(world.occurrences, world.labels, now);
      var recent := FreshIds(releases, world.listing, now);
      if world.completed || (episode.Some? && highest.Some? && episode != highest) || recent == [] {
        return 0, false;
      }
      planned, raised := Announce(id, batch, now, world, recent);
      NotificationsIgnoreStatus(outbox.jobs, releases, batch, was, id);
    }

    /** Shares the recent releases of a batch out among the groups and tells them. */
    method Announce(id: Id, batch: Batch, now: int, world: World, recent: seq<Id>) returns (planned: nat, raised: bool)
      requires JobsOk(outbox.jobs) && batch.animeId.Some? && Usable(releases, recent) && OthersOnly(world)
      modifies outbox
      ensures JobsOk(outbox.jobs) && (raised ==> BreaksOffTelling(world))
      ensures Extends(old(outbox.jobs), outbox.jobs)
      ensures Quiet(world) ==> Untouched(old(outbox.jobs), outbox.jobs, now)
      ensures forall j :: IsNew(old(outbox.jobs), outbox.jobs, j) ==>
                IsNotificationFor(outbox.jobs[j], batch, releases,
                                  ShareOf(releases, recent, world.subscribers, outbox.jobs[j].group))
      ensures !raised ==> forall g :: ShareOf(releases, recent, world.subscribers, g).users != {} ==>
                Knows(outbox.jobs, g, id, batch)
      ensures !raised ==> (planned > 0 <==>
                exists g :: ShareOf(releases, recent, world.subscribers, g).users != {}
                            && !ToldByNumber(old(outbox.jobs), g, batch))
    {
      hide JobsOk, IsNotificationFor, Knows, ShareOf, ToldByNumber, ShareAt, Extends, Untouched, Quiet, OthersOnly;
      var order, shares := ShareOut(releases, recent, world.subscribers);
      SharesAreLookups(releases, recent, world.subscribers, shares);
      SharesAreUsable(releases, recent, world.subscribers, shares);
      ghost var upto;
      planned, raised, upto := TellGroups(id, batch, now, world, order, shares);
      assert order[..|order|] == order;
    }

    /** Enqueues one notification for every group with a share, except those that have been told already. Wherever it
        is broken off, exactly the first `upto` groups have been dealt with. Others may act before each of them. */
    method TellGroups(id: Id, batch: Batch, now: int, world: World, order: seq<Id>, shares: map<Id, Share>)
      returns (planned: nat, raised: bool, ghost upto: nat)
      requires JobsOk(outbox.jobs) && batch.animeId.Some? && OthersOnly(world)
      requires Distinct(order) && forall g :: g in order <==> g in shares
      requires forall g :: g in shares ==> ShareUsable(shares[g])
      modifies outbox
      ensures JobsOk(outbox.jobs) && (raised ==> BreaksOffTelling(world))
      ensures upto <= |order| && (!raised ==> upto == |order|)
      ensures Extends(old(outbox.jobs), outbox.jobs) && OneEach(old(outbox.jobs), outbox.jobs)
      ensures Quiet(world) ==> Untouched(old(outbox.jobs), outbox.jobs, now)
      ensures NewFor(old(outbox.jobs), outbox.jobs, order[..upto], shares, batch, releases)
      ensures forall g :: g in order[..upto] ==> Knows(outbox.jobs, g, id, batch)
      ensures planned > 0 <==> exists g :: g in order[..upto] && !ToldByNumber(old(outbox.jobs), g, batch)
    {
      hide JobsOk, Knows, EpisodeNumber, ToldByNumber, Extends, OneEach, Untouched, NewFor, NothingNew, Quiet,
           OthersOnly, ShareUsable, IsNew;
      var animeId, episode := batch.animeId.value, EpisodeNumber(batch.episodeLabel);
      var already: set<Id> := {};
      planned := 0;
      ExtendsItself(outbox.jobs);
      NobodyNew(outbox.jobs, order[..0], shares, batch, releases);
      if episode.Some? {
        if world.toldRaises {
          return 0, true, 0;
        }
        already := AlreadyNotified(outbox.jobs, animeId, episode.value, shares.Keys);
      }
      AlreadyIsTold(old(outbox.jobs), batch, shares.Keys, already);
      for k := 0 to |order|
        invariant JobsOk(outbox.jobs)
        invariant Extends(old(outbox.jobs), outbox.jobs) && OneEach(old(outbox.jobs), outbox.jobs)
        invariant Quiet(world) ==> Untouched(old(outbox.jobs), outbox.jobs, now)
        invariant NewFor(old(outbox.jobs), outbox.jobs, order[..k], shares, batch, releases)
        invariant forall g :: g in order[..k] ==> Knows(outbox.jobs, g, id, batch)
        invariant planned > 0 <==> exists g :: g in order[..k] && g !in already
      {
        var g := order[k];
        assert order[..k + 1] == order[..k] + [g];
        if g in already {
          AlreadyKnows(old(outbox.jobs), g, id, batch, shares.Keys);
          KnowingLasts(old(outbox.jobs), outbox.jobs, g, id, batch);
          NewForMore(old(outbox.jobs), outbox.jobs, order[..k], g, shares, batch, releases);
          continue;
        }
        if world.enqueuesBeforeRaise == Some(planned) {
          return planned, true, k;
        }
        ghost var before := outbox.jobs;
        TellOne(id, batch, now, g, shares, world, planned, old(outbox.jobs), order[..k], already);
        planned := planned + 1;
        forall other | other in order[..k]
          ensures Knows(outbox.jobs, other, id, batch)
        {
          KnowingLasts(before, outbox.jobs, other, id, batch);
        }
      }
      assert order[..|order|] == order;
      return planned, false, |order|;
    }

    /** Others act, and then one more group is told. */
    method TellOne(id: Id, batch: Batch, now: int, group: Id, shares: map<Id, Share>, world: World, planned: nat,
                   ghost first: map<Id, O.Job>, ghost told: seq<Id>, ghost already: set<Id>)
      requires JobsOk(outbox.jobs) && batch.animeId.Some? && OthersOnly(world)
      requires group in shares && ShareUsable(shares[group]) && group !in told
      requires Extends(first, outbox.jobs) && OneEach(first, outbox.jobs)
      requires Quiet(world) ==> Untouched(first, outbox.jobs, now)
      requires NewFor(first, outbox.jobs, told, shares, batch, releases)
      requires !ToldByNumber(first, group, batch)
      modifies outbox
      ensures JobsOk(outbox.jobs) && Knows(outbox.jobs, group, id, batch) && Extends(old(outbox.jobs), outbox.jobs)
      ensures Extends(first, outbox.jobs) && OneEach(first, outbox.jobs)
      ensures Quiet(world) ==> Untouched(first, outbox.jobs, now)
      ensures NewFor(first, outbox.jobs, told + [group], shares, batch, releases)
    {
      hide JobsOk, Knows, EpisodeNumber, Extends, OneEach, Untouched, NewFor, NothingNew, IsNew, OthersOnly, Told,
           ShareUsable, IsNotificationFor;
      ghost var jobs := outbox.jobs;
      OthersAreLegal(world, planned);
      LetOthersAct(world.meanwhile(planned));
      ghost var met := outbox.jobs;
      NothingNewIsNoNew(jobs, met);
      ExtendsOn(first, jobs, met);
      OneMoreJob(first, jobs, met, group) by {
        NewAreIn(first, jobs, told, shares, batch, releases);
      }
      NewForLasts(first, jobs, met, told, group, shares, batch, releases);
      NewAreIn(first, met, told, shares, batch, releases);
      NotYetTold(first, met, group, batch);
      EnqueueNotification(id, batch, now, group, shares[group]);
      ExtendsOn(jobs, met, outbox.jobs);
      ExtendsOn(first, met, outbox.jobs);
      OneMoreJob(first, met, outbox.jobs, group);
      NewForLasts(first, met, outbox.jobs, told, group, shares, batch, releases);
      if Quiet(world) {
        assert met == jobs;
        UntouchedOn(first, met, outbox.jobs, now);
      }
    }

    /** The dispatcher, the administrator and the other planners act, whatever they do. */
    method LetOthersAct(events: seq<O.Event>)
      requires JobsOk(outbox.jobs) && forall i :: 0 <= i < |events| ==> ByOthers(events[i])
      modifies outbox
      ensures JobsOk(outbox.jobs) && (old(Valid()) ==> Valid())
      ensures Extends(old(outbox.jobs), outbox.jobs) && NothingNew(old(outbox.jobs), outbox.jobs)
      ensures events == [] ==> outbox.jobs == old(outbox.jobs)
    {
      hide JobsOk, ShelfOk, Extends, NothingNew, O.Step;
      ExtendsItself(outbox.jobs);
      for k := 0 to |events|
        invariant JobsOk(outbox.jobs)
        invariant Extends(old(outbox.jobs), outbox.jobs) && NothingNew(old(outbox.jobs), outbox.jobs)
        invariant k == 0 ==> outbox.jobs == old(outbox.jobs)
      {
        ghost var table := outbox.Contents();
        OtherStepsKeepJobsOk(table, events[k]);
        OtherStepsExtend(table, events[k]);
        outbox.Act(events[k]);
        ExtendsOn(old(outbox.jobs), table.jobs, outbox.jobs);
      }
    }

    /** Enqueues the notification of one group. For an episode with a number it is always a new job; a batch without
        one may have been told by an earlier, interrupted planning. */
    method EnqueueNotification(id: Id, batch: Batch, now: int, group: Id, share: Share)
      requires JobsOk(outbox.jobs) && batch.animeId.Some? && ShareUsable(share)
      requires !ToldByNumber(outbox.jobs, group, batch)
      modifies outbox
      ensures JobsOk(outbox.jobs) && Knows(outbox.jobs, group, id, batch)
      ensures Untouched(old(outbox.jobs), outbox.jobs, now)
      ensures Extends(old(outbox.jobs), outbox.jobs) && OneEach(old(outbox.jobs), outbox.jobs)
      ensures forall j :: IsNew(old(outbox.jobs), outbox.jobs, j) ==>
                outbox.jobs[j].group == group && IsNotificationFor(outbox.jobs[j], batch, releases, share)
      // The key is that of the numbered episode, or of the batch if there is no number.
      ensures forall j :: IsNew(old(outbox.jobs), outbox.jobs, j) ==>
                outbox.jobs[j].key == match EpisodeNumber(batch.episodeLabel)
                                      case Some(n) => O.EpisodeKey(batch.animeId.value, n)
                                      case None => O.BatchKey(id)
    {
      hide JobsOk, EpisodeNumber, Untouched, Extends, OneEach, IsNew, IsNotificationFor;
      ghost var before := outbox.jobs;
      var selected := SortReleases(releases, share.releases);
      var payload := O.Payload(batch.animeId, batch.episodeLabel, share.users, |selected|,
                               if |selected| <= 3 then selected else selected[..3], false, []);
      SomeElements(share.releases);
      var job := FreshId(outbox.jobs.Keys);
      var expiresAt := releases[selected[0]].pubDate + DAY;
      ghost var event := O.Enqueue(job, group, O.Release, KeyFor(id, batch), payload, now, expiresAt, now);
      O.EnqueueEffect(outbox.Contents(), event);
      NewNotificationIsTheOnlyOne(outbox.jobs, job, O.NewJob(event), batch.animeId.value,
                                  EpisodeNumber(batch.episodeLabel));
      KeyMeansKnowing(outbox.jobs, group, id, batch);
      KeyMeansKnowing(outbox.jobs[job := O.NewJob(event)], group, id, batch);
      IsTheNotification(O.NewJob(event), batch, releases, share, selected);
      var _ := outbox.Enqueue(job, group, O.Release, KeyFor(id, batch), payload, now, expiresAt, now);
      OneEnqueued(before, outbox.jobs, job, O.NewJob(event), now);
    }

    /** Plans every batch whose window is over, until one of them raises. */
    method CloseReadyBatches(ids: seq<Id>, now: int, worlds: Id -> World) returns (closed: nat, raised: bool)
      requires Valid() && now == clock && Distinct(ids)
      requires forall b :: b in ids <==> b in batches && Waiting(batches[b]) && batches[b].startedAt <= now - window
      requires forall b :: b in ids ==> AnswersFor(worlds(b), Contents(), b)
      modifies this`batches, outbox
      ensures Valid() && Follows(old(Contents()), Contents()) && releases == old(releases) && items == old(items)
      ensures Extends(old(outbox.jobs), outbox.jobs)
      ensures AllQuiet(ids, worlds) ==> Untouched(old(outbox.jobs), outbox.jobs, now)
      ensures AllOwed(old(outbox.jobs), outbox.jobs, old(releases), old(batches), ids, worlds, now)
      ensures raised ==> exists b :: b in ids && Interrupts(worlds(b))
      ensures !raised ==> NothingStale(now) && closed == |ids|
      ensures !raised ==> AllServed(outbox.jobs, old(releases), old(batches), ids, worlds, now)
    {
      hide ShelfOk, Follows, JobsOk, AnswersFor, Served, Owed, Tells, Interrupts, AllOwed, AllServed, Extends,
           Untouched, Quiet, ClosedUpTo;
      closed := 0;
      ExtendsItself(outbox.jobs);
      NothingClosed(batches, ids);
      FollowsItself(Contents());
      NoBatchYet(outbox.jobs, releases, batches, ids, worlds, now);
      while closed < |ids|
        invariant closed <= |ids| && Valid()
        invariant Follows(old(Contents()), Contents()) && releases == old(releases) && items == old(items)
        invariant Extends(old(outbox.jobs), outbox.jobs)
        invariant AllQuiet(ids, worlds) ==> Untouched(old(outbox.jobs), outbox.jobs, now)
        invariant AllOwed(old(outbox.jobs), outbox.jobs, old(releases), old(batches), ids, worlds, now)
        invariant AllServed(outbox.jobs, old(releases), old(batches), ids[..closed], worlds, now)
        invariant ClosedUpTo(old(batches), batches, ids, closed)
      {
        var id := ids[closed];
        assert id in ids && id in old(batches);
        NextIsAsItWas(old(batches), batches, ids, closed);
        AnswersStillFit(worlds(id), old(Contents()), Contents(), id);
        ghost var before, jobs := Contents(), outbox.jobs;
        raised := PlanBatch(id, now, worlds(id));
        FollowsIsTransitive(old(Contents()), before, Contents());
        OneMoreBatch(old(outbox.jobs), jobs, outbox.jobs, old(releases), old(batches), ids, closed, worlds, now);
        ExtendsOn(old(outbox.jobs), jobs, outbox.jobs);
        if AllQuiet(ids, worlds) {
          UntouchedOn(old(outbox.jobs), jobs, outbox.jobs, now);
        }
        if raised {
          return;
        }
        OneMoreClosed(old(batches), before.batches, batches, ids, closed);
        closed := closed + 1;
      }
      assert ids[..|ids|] == ids;
      NothingIsStale(old(batches), batches, ids, now - window);
      raised := false;
    }

    /** No batch of an anime that is older than the window is still to be planned. */
    ghost predicate NothingStale(now: int)
      reads this
    {
      NoneStale(batches, now - window)
    }

    /** Polls one feed. The first successful poll of a feed only takes stock of what is there. */
    method PollTarget(target: Target, script: PollScript, now: int) returns (created: nat, raised: bool)
      requires Valid() && now == clock
      modifies this`releases, this`batches, this`items, this`feeds
      ensures Valid() && Follows(old(Contents()), Contents()) && OnlyNewBatches(old(batches), batches, now)
      ensures raised <==> BreaksOff(script)
      ensures AllKnown(releases, script)
      ensures forall r :: r in releases && r !in old(releases) ==>
                !script.notModified
                && ComesFrom(releases[r], script, target.animeId, OnTakingStock(old(feeds), target), now)
      // A new row is batched exactly if it is fresh, has an episode, and the feed has been polled with success before.
      ensures forall r :: r in releases && r !in old(releases) ==>
                (releases[r].status == Batched <==>
                   && releases[r].episodeLabel.Some?
                   && target.feed in old(feeds) && old(feeds)[target.feed].lastSuccessAt.Some?
                   && releases[r].pubDate <= now < releases[r].pubDate + 86_400 * SECOND)
      ensures |releases| == |old(releases)| + created
      ensures OnTakingStock(old(feeds), target) ==> batches == old(batches) && items == old(items)
      ensures !raised ==> feeds == old(feeds)[target.feed := Feed(Some(now), now + pollInterval, 0)]
      ensures raised ==> feeds == old(feeds)
    {
      hide ShelfOk, Follows, JobsOk, IsKnown, ComesFrom;
      created, raised := 0, true;
      FollowsItself(Contents());
      if script.fetchRaises {
        return;
      }
      if !script.notModified {
        var broken;
        created, broken := IngestAll(target.animeId, script, now, OnTakingStock(feeds, target));
        assert broken <==> script.raisesAtItem.Some? && script.raisesAtItem.value < |script.items|;
        NewRowsAreBatchedIff(old(releases), releases, script, target.animeId, OnTakingStock(feeds, target), now);
        if broken {
          return;
        }
      }
      if script.recordRaises {
        return;
      }
      feeds := feeds[target.feed := Feed(Some(now), now + pollInterval, 0)];
      raised := false;
    }

    /** Ingests the items of a feed one after the other, up to the one that raises if there is one. */
    method IngestAll(animeId: Id, script: PollScript, now: int, stockOnly: bool) returns (created: nat, raised: bool)
      requires Valid() && now == clock
      modifies this`releases, this`batches, this`items
      ensures Valid() && raised == (Reached(script) < |script.items|)
      ensures Ingested(old(Contents()), Contents(), created, script, Reached(script), animeId, stockOnly, now)
    {
      hide ShelfOk, JobsOk, Ingested, IngestedOne, Follows, IsKnown;
      created := 0;
      NothingIngested(Contents(), script, animeId, stockOnly, now);
      for k := 0 to |script.items|
        invariant Valid() && Ingested(old(Contents()), Contents(), created, script, k, animeId, stockOnly, now)
        invariant script.raisesAtItem.Some? ==> script.raisesAtItem.value >= k
      {
        if script.raisesAtItem == Some(k) {
          return created, true;
        }
        ghost var before := Contents();
        var item := script.items[k];
        var stored := IngestItem(item, animeId, now, !stockOnly && IsFresh(item.pubDate, now));
        OneMoreItem(old(Contents()), before, Contents(), created, script, k, animeId, stockOnly, window, now, stored);
        created := created + if stored then 1 else 0;
      }
      raised := false;
    }

    method RecordFailure(target: Target, now: int)
      modifies this`feeds
      ensures target.feed in feeds && feeds == old(feeds)[target.feed := feeds[target.feed]]
      ensures var before := if target.feed in old(feeds) then old(feeds)[target.feed] else Feed(None, now, 0);
              feeds[target.feed] == Feed(before.lastSuccessAt,
                                         now + BackoffDelay(pollInterval, before.failures + 1), before.failures + 1)
    {
      var feed := if target.feed in feeds then feeds[target.feed] else Feed(None, now, 0);
      var failures := feed.failures + 1;
      feeds := feeds[target.feed := Feed(feed.lastSuccessAt, now + BackoffDelay(pollInterval, failures), failures)];
    }

    /** One run: plan what is ready, then poll what is due. If it returns normally nothing stale is left to plan and
        every feed has been dealt with; in any case the tables have only moved forward. */
    method RunOnce(now: int, ids: seq<Id>, worlds: Id -> World, targets: seq<Target>, scripts: seq<PollScript>,
                   batchQueryRaises: bool, targetQueryRaises: bool)
      returns (closed: nat, created: nat, failures: nat, raised: bool)
      requires Valid() && now >= clock && Distinct(ids) && |scripts| == |targets|
      requires forall b :: b in ids <==> b in batches && Waiting(batches[b]) && batches[b].startedAt <= now - window
      requires forall b :: b in ids ==> AnswersFor(worlds(b), Contents(), b)
      modifies this, outbox
      ensures Valid() && clock == now && Follows(old(Contents()), Contents())
      ensures Extends(old(outbox.jobs), outbox.jobs)
      ensures AllQuiet(ids, worlds) ==> Untouched(old(outbox.jobs), outbox.jobs, now)
      ensures AllOwed(old(outbox.jobs), outbox.jobs, old(releases), old(batches), ids, worlds, now)
      ensures raised ==> releases == old(releases) && feeds == old(feeds)
      ensures raised ==> batchQueryRaises || targetQueryRaises || exists b :: b in ids && Interrupts(worlds(b))
      ensures batchQueryRaises ==> raised && Contents() == old(Contents()) && outbox.jobs == old(outbox.jobs)
      ensures targetQueryRaises ==> raised
      ensures !raised ==> NothingStale(now) && closed == |ids|
      ensures !raised ==> AllServed(outbox.jobs, old(releases), old(batches), ids, worlds, now)
      ensures !raised ==> Polled(old(Contents()), Contents(), scripts, |scripts|, created, failures)
      ensures !raised ==> FeedsPolled(feeds, targets, scripts, |targets|, pollInterval, now)
    {
      hide ShelfOk, Follows, JobsOk, AnswersFor, AllOwed, AllServed, Interrupts, Extends, FeedsPolled, Polled, Waiting,
           Untouched, AllQuiet;
      ExtendsItself(outbox.jobs);
      created, failures := 0, 0;
      ClockAdvances(Contents(), window, clock, now);
      clock := now;
      NoBatchYet(outbox.jobs, releases, batches, ids, worlds, now);
      FollowsItself(Contents());
      if batchQueryRaises {
        return 0, 0, 0, true;
      }
      closed, raised := CloseReadyBatches(ids, now, worlds);
      if raised || targetQueryRaises {
        raised := true;
        return;
      }
      ghost var planned := Contents();
      created, failures := PollAll(targets, scripts, now);
      PolledSince(old(Contents()), planned, Contents(), scripts, created, failures);
    }

    /** Polls one feed after the other, and records the failures. */
    method PollAll(targets: seq<Target>, scripts: seq<PollScript>, now: int) returns (created: nat, failures: nat)
      requires Valid() && clock == now && |scripts| == |targets| && NothingStale(now)
      modifies this`releases, this`batches, this`items, this`feeds
      ensures Valid() && NothingStale(now)
      ensures Polled(old(Contents()), Contents(), scripts, |scripts|, created, failures)
      ensures FeedsPolled(feeds, targets, scripts, |targets|, pollInterval, now)
    {
      hide ShelfOk, Follows, JobsOk, FeedsPolled, BreaksOff, BackoffDelay, ComesFrom, Polled, NoneStale, AllKnown,
           OnlyNewBatches;
      created, failures := 0, 0;
      NothingPolled(Contents(), scripts);
      NoFeedYet(feeds, targets, scripts, now);
      for k := 0 to |targets|
        invariant Valid() && NothingStale(now)
        invariant Polled(old(Contents()), Contents(), scripts, k, created, failures)
        invariant FeedsPolled(feeds, targets, scripts, k, pollInterval, now)
      {
        ghost var before, feedsBefore := Contents(), feeds;
        var count, failed := PollTarget(targets[k], scripts[k], now);
        StillNoneStale(before.batches, batches, now, window);
        OneMorePoll(old(Contents()), before, Contents(), scripts, k, created, failures, count);
        if failed {
          failures := failures + 1;
          if !scripts[k].failureRecordRaises {
            RecordFailure(targets[k], now);
          }
        } else {
          created := created + count;
        }
        OneMoreFeed(feedsBefore, feeds, targets, scripts, k, pollInterval, now);
      }
    }

    ghost predicate ShareUsable(share: Share)
      reads this
    {
      share.releases != {} && share.releases <= releases.Keys
    }
  }

  /** A planning that fails only in its last transaction has announced the batch to everyone; planning it again then
      ends with the batch suppressed, although it was announced. */
  method PlanAgain(pipeline: MikanReleasePipeline, id: Id, now: int, world: World)
    requires pipeline.Valid() && now == pipeline.clock && AnswersFor(world, pipeline.Contents(), id)
    requires !world.readyRaises && !world.lookupRaises && !BreaksOffTelling(world) && world.markingRaises
    requires Waiting(pipeline.batches[id]) && pipeline.batches[id].startedAt + pipeline.window <= now
    requires pipeline.batches[id].animeId.Some? && EpisodeNumber(pipeline.batches[id].episodeLabel).Some?
    requires !Dropped(pipeline.releases, pipeline.batches[id], world, now)
    modifies pipeline`batches, pipeline.outbox
    ensures pipeline.Valid() && id in pipeline.batches && pipeline.batches[id].status == Suppressed
    ensures Served(pipeline.outbox.jobs, old(pipeline.releases), id, old(pipeline.batches[id]), world, now)
  {
    hide AnswersFor, EpisodeNumber, Served, Tells, Owed, ShelfOk, Follows, JobsOk;
    ghost var before := pipeline.Contents();
    ListingIsUsable(world, before, id);
    var raised := pipeline.PlanBatch(id, now, world);
    ghost var was := pipeline.batches[id];
    var calmer := world.(markingRaises := false);
    AnswersStillFit(world, before, pipeline.Contents(), id);
    MarkingIsNoAnswer(pipeline.outbox.jobs, pipeline.Contents(), id, before.batches[id], was, world, now);
    TellsIffUnserved(pipeline.outbox.jobs, pipeline.releases, id, was, calmer, now);
    ghost var jobs := pipeline.outbox.jobs;
    raised := pipeline.PlanBatch(id, now, calmer);
    ServedLasts(jobs, pipeline.outbox.jobs, pipeline.releases, id, before.batches[id], world, now);
  }

  lemma {:induction false} MarkingIsNoAnswer(jobs: map<Id, O.Job>, shelf: Shelf, id: Id, a: Batch, b: Batch,
                                             world: World, now: int)
    requires SameBatch(a, b) && AnswersFor(world, shelf, id)
    ensures var calmer := world.(markingRaises := false);
            && AnswersFor(calmer, shelf, id) && Usable(shelf.releases, calmer.listing)
            && (Dropped(shelf.releases, b, calmer, now) <==> Dropped(shelf.releases, a, world, now))
            && (Served(jobs, shelf.releases, id, b, calmer, now) <==> Served(jobs, shelf.releases, id, a, world, now))
  {
    hide EpisodeNumber, IsListing, ShareOf, FreshIds, Knows;
    ListingIsUsable(world, shelf, id);
    NotificationsIgnoreStatus(jobs, shelf.releases, a, b, id);
  }

  /** The row a feed item is stored as. */
  function Stored(item: Release, animeId: Id, openBatch: bool): Release {
    item.(animeId := animeId,
          status := if item.episodeLabel == None then Unmatched
                    else if openBatch then Batched else SuppressedRelease)
  }

  lemma {:induction false} ItemIsIn(before: map<Id, Release>, after: map<Id, Release>, script: PollScript, k: nat,
                                    animeId: Id, stockOnly: bool, now: int, stored: bool)
    requires k < |script.items|
    requires !stored ==> after == before && IsKnown(before, script.items[k])
    requires stored ==> exists r ::
               r !in before && after == before[r := FromItem(script.items[k], animeId, stockOnly, now)]
    ensures IsKnown(after, script.items[k]) && |after| == |before| + if stored then 1 else 0
    ensures forall r :: r in before ==> r in after && after[r] == before[r]
    ensures forall r :: r in after && r !in before ==> ComesFrom(after[r], script, animeId, stockOnly, now)
  {
    if stored {
      var r :| r !in before && after == before[r := FromItem(script.items[k], animeId, stockOnly, now)];
      assert after[r].guid == script.items[k].guid;
      assert after.Keys == before.Keys + {r};
    }
  }

  lemma {:induction false} FollowsKeepsReleases(s: Shelf, t: Shelf)
    requires Follows(s, t)
    ensures forall r :: r in s.releases ==> r in t.releases && t.releases[r] == s.releases[r]
  {
  }

  lemma {:induction false} NoFeedYet(feeds: map<Id, Feed>, targets: seq<Target>, scripts: seq<PollScript>, now: int)
    requires |targets| == |scripts|
    ensures forall pollInterval :: FeedsPolled(feeds, targets, scripts, 0, pollInterval, now)
  {
  }

  lemma {:induction false} IsTheNotification(job: O.Job, batch: Batch, releases: map<Id, Release>, share: Share,
                                             listing: seq<Id>)
    requires IsListing(releases, share.releases, listing) && listing != [] && |listing| == |share.releases|
    requires job.kind == O.Release && job.expiresAt == releases[listing[0]].pubDate + DAY
    requires job.payload == O.Payload(batch.animeId, batch.episodeLabel, share.users, |listing|,
                                      if |listing| <= 3 then listing else listing[..3], false, [])
    ensures IsNotificationFor(job, batch, releases, share)
  {
    hide IsListing;
  }

  lemma {:induction false} OneEnqueued(before: map<Id, O.Job>, after: map<Id, O.Job>, id: Id, job: O.Job, now: int)
    requires id !in before && (after == before || after == before[id := job])
    requires job.kind == O.Release && job.status == O.Pending && job.availableAt == now
    ensures Untouched(before, after, now) && Extends(before, after) && OneEach(before, after)
    ensures forall j :: IsNew(before, after, j) ==> after[j] == job
  {
  }

  /** A stored item keeps all it came with and gets the feed's anime; without an episode it stays unmatched, and with
      one it is batched if it may open a batch and set aside if not. */
  lemma {:induction false} StoredIs(item: Release, animeId: Id, openBatch: bool)
    ensures var row := Stored(item, animeId, openBatch);
            && row.animeId == animeId && row.guid == item.guid && row.fingerprint == item.fingerprint
            && row.pubDate == item.pubDate && row.episodeLabel == item.episodeLabel && row.language == item.language
            && row.subtitleGroups == item.subtitleGroups && row.resolutions == item.resolutions
            && (row.status == Unmatched <==> item.episodeLabel == None)
            && (row.status == Batched <==> item.episodeLabel.Some? && openBatch)
  {
  }

  lemma {:induction false} NewRowsAreBatchedIff(before: map<Id, Release>, after: map<Id, Release>, script: PollScript,
                                                animeId: Id, stockOnly: bool, now: int)
    requires forall r :: r in after && r !in before ==> ComesFrom(after[r], script, animeId, stockOnly, now)
    ensures forall r :: r in after && r !in before ==>
              (after[r].status == Batched <==>
                 && after[r].episodeLabel.Some? && !stockOnly
                 && after[r].pubDate <= now < after[r].pubDate + 86_400 * SECOND)
  {
    forall r | r in after && r !in before
      ensures after[r].status == Batched <==>
              && after[r].episodeLabel.Some? && !stockOnly
              && after[r].pubDate <= now < after[r].pubDate + 86_400 * SECOND
    {
      var i :| 0 <= i < |script.items| && after[r] == FromItem(script.items[i], animeId, stockOnly, now);
    }
  }

  lemma {:induction false} ItemIsIgnored(s: Shelf, item: Release, animeId: Id, openBatch: bool, window: int, now: int)
    ensures IngestedOne(s, s, item, animeId, openBatch, false, window, now)
  {
  }

  lemma {:induction false} ItemIsSetAside(s: Shelf, r: Id, item: Release, animeId: Id, openBatch: bool, window: int,
                                          now: int)
    requires r !in s.releases && r !in s.items && (item.episodeLabel == None || !openBatch)
    ensures IngestedOne(s, s.(releases := s.releases[r := Stored(item, animeId, openBatch)]), item, animeId, openBatch,
                        true, window, now)
  {
    hide Stored;
  }

  lemma {:induction false} ItemIsShelved(s: Shelf, r: Id, item: Release, animeId: Id, b: Id, batch: Batch, window: int,
                                         now: int)
    requires r !in s.releases && item.episodeLabel.Some? && batch.startedAt > now - window
    requires if b in s.batches then s.batches[b] == batch else batch.startedAt == now
    ensures var t := Shelf(s.releases[r := Stored(item, animeId, true)], s.batches[b := batch], s.items[r := b]);
            IngestedOne(s, t, item, animeId, true, true, window, now)
  {
    hide Stored;
  }

  lemma {:induction false} ListingIsUsable(world: World, shelf: Shelf, batch: Id)
    requires AnswersFor(world, shelf, batch)
    ensures batch in shelf.batches && Usable(shelf.releases, world.listing) && OthersOnly(world)
  {
  }

  lemma {:induction false} AnswersStillFit(world: World, s: Shelf, t: Shelf, batch: Id)
    requires AnswersFor(world, s, batch) && s.releases == t.releases && s.items == t.items
    requires batch in t.batches && SameBatch(s.batches[batch], t.batches[batch])
    ensures AnswersFor(world, t, batch)
  {
    hide IsListing;
  }

  lemma {:induction false} NotYetShelved(s: Shelf, window: int, clock: int, r: Id)
    requires ShelfOk(s, window, clock) && r !in s.releases
    ensures r !in s.items
  {
  }
}
