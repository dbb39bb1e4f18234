/** The new-episode detector, `check_new_episode`: fetch the listing, read
    the checkpoint, notify the single latest episode when it is newer than
    the checkpoint, and only then move the checkpoint to it. */
module Detector {
  import opened Wrappers
  import opened Episodes
  import opened Checkpoint
  import opened Notifier

  /** The HTTP answer of the listing endpoint: its status code and its body,
      `None` when the body is not a JSON list of episode records. */
  datatype Response = Response(status: int, body: Option<seq<Episode>>)

  /** `raise_for_status` raises for client and server errors. */
  predicate IsHttpError(status: int) {
    400 <= status < 600
  }

  /** `fetch_episodes`: the listing ordered by number, highest first, or
      `FetchError` for an error status or an unreadable body. */
  function FetchEpisodes(response: Response): (r: Result<seq<Episode>, Failure>)
    ensures r.Ok? <==> !IsHttpError(response.status) && response.body.Some?
    ensures r.Err? ==> r.error == FetchError
    ensures r.Ok? ==> NonIncreasing(r.value) && multiset(r.value) == multiset(response.body.value)
  {
    if IsHttpError(response.status) then Err(FetchError)
    else match response.body
      case None => Err(FetchError)
      case Some(episodes) => Ok(SortByNumberDesc(episodes))
  }

  /** How a run that raised nothing ended. */
  datatype Report =
    | NoEpisodes
    | NoNewEpisodes(latest: int, lastChecked: int)
    | NewEpisode(episode: Episode)

  /** What one run leaves behind: the collection, the episodes notified
      during the run, and how it ended. */
  datatype RunEffect = RunEffect(state: Collection, notified: seq<Episode>, result: Result<Report, Failure>)

  /** One run of the detector against the collection `state`, given the
      endpoint's answer, the relay's behaviour and the time of the save. */
  function Run(state: Collection, response: Response, send: SendOutcome, now: int): RunEffect {
    match FetchEpisodes(response)
    case Err(f) => RunEffect(state, [], Err(f))
    case Ok(episodes) =>
      if episodes == [] then RunEffect(state, [], Ok(NoEpisodes))
      else
        var latest := episodes[0];
        var lastChecked := LastChecked(state);
        if latest.number > lastChecked then
          match send
          case Delivered => RunEffect(Upsert(state, latest.number, now), [latest], Ok(NewEpisode(latest)))
          case LoginRejected => RunEffect(state, [], Err(AuthError))
          case TransportFailed => RunEffect(state, [], Err(SendError))
        else
          RunEffect(state, [], Ok(NoNewEpisodes(latest.number, lastChecked)))
  }

  /** The fetch succeeds: no error status and a readable list. */
  predicate Fetched(response: Response) {
    !IsHttpError(response.status) && response.body.Some?
  }

  /** The fetch succeeded, the listing is not empty, and its largest number
      is above the checkpoint: the run has something new to notify. */
  predicate HasNewEpisode(state: Collection, response: Response) {
    Fetched(response) && |response.body.value| > 0
    && MaxNumber(response.body.value) > LastChecked(state)
  }

  /** The listing ordered for the run starts with its first record of
      largest number. */
  lemma LatestOfFetch(response: Response)
    requires Fetched(response) && |response.body.value| > 0
    ensures FetchEpisodes(response).Ok?
    ensures var episodes := FetchEpisodes(response).value;
      |episodes| > 0 && episodes[0] == response.body.value[LatestIndex(response.body.value)]
  {
    SortedHeadIsFirstLatest(response.body.value);
  }

  /** A run notifies at most one episode, and it notifies one exactly when
      there is a new episode and the relay delivers. */
  lemma NotifiesIffNewAndDelivered(state: Collection, response: Response, send: SendOutcome, now: int)
    ensures |Run(state, response, send, now).notified| <= 1
    ensures |Run(state, response, send, now).notified| == 1
        <==> HasNewEpisode(state, response) && send == Delivered
  {
    if Fetched(response) && |response.body.value| > 0 {
      LatestOfFetch(response);
    }
  }

  /** The episode notified is the listing's first record with the largest
      number, the run reports it, and the checkpoint becomes its number. */
  lemma NotifiesTheLatest(state: Collection, response: Response, now: int)
    requires HasNewEpisode(state, response)
    ensures var eff := Run(state, response, Delivered, now);
      var latest := response.body.value[LatestIndex(response.body.value)];
      && eff.notified == [latest]
      && latest.number == MaxNumber(response.body.value)
      && eff.result == Ok(NewEpisode(latest))
      && LastChecked(eff.state) == MaxNumber(response.body.value)
      && eff.state == Upsert(state, latest.number, now)
  {
    LatestOfFetch(response);
  }

  /** An empty listing: nothing sent, nothing written. */
  lemma EmptyListingIsNoOp(state: Collection, response: Response, send: SendOutcome, now: int)
    requires Fetched(response) && response.body.value == []
    ensures Run(state, response, send, now) == RunEffect(state, [], Ok(NoEpisodes))
  {
  }

  /** Nothing above the checkpoint: nothing sent, nothing written, and the
      run reports the largest number and the checkpoint. */
  lemma UpToDateIsNoOp(state: Collection, response: Response, send: SendOutcome, now: int)
    requires Fetched(response) && |response.body.value| > 0
    requires MaxNumber(response.body.value) <= LastChecked(state)
    ensures Run(state, response, send, now)
      == RunEffect(state, [], Ok(NoNewEpisodes(MaxNumber(response.body.value), LastChecked(state))))
  {
    LatestOfFetch(response);
  }

  /** A failed send re-raises its error and leaves the checkpoint where it
      was, so the next run with a working relay notifies the same episode. */
  lemma FailedSendKeepsCheckpoint(state: Collection, response: Response, send: SendOutcome, now: int, later: int)
    requires HasNewEpisode(state, response) && send != Delivered
    ensures var eff := Run(state, response, send, now);
      && eff.state == state
      && eff.notified == []
      && eff.result == Err(if send == LoginRejected then AuthError else SendError)
      && Run(eff.state, response, Delivered, later).notified
         == [response.body.value[LatestIndex(response.body.value)]]
  {
    LatestOfFetch(response);
    NotifiesTheLatest(state, response, later);
  }

  /** A run that notifies nothing writes nothing. */
  lemma SilentRunKeepsState(state: Collection, response: Response, send: SendOutcome, now: int)
    requires Run(state, response, send, now).notified == []
    ensures Run(state, response, send, now).state == state
  {
  }

  /** The checkpoint never moves down. */
  lemma CheckpointNeverDecreases(state: Collection, response: Response, send: SendOutcome, now: int)
    ensures LastChecked(Run(state, response, send, now).state) >= LastChecked(state)
  {
  }

  /** With no checkpoint document, any delivered listing holding an episode
      numbered 1 or more is notified. */
  lemma FirstRunNotifies(state: Collection, response: Response, now: int, k: nat)
    requires LastEpisodeId !in state
    requires Fetched(response) && k < |response.body.value| && response.body.value[k].number >= 1
    ensures |Run(state, response, Delivered, now).notified| == 1
  {
    NotifiesIffNewAndDelivered(state, response, Delivered, now);
  }

  /** One scheduled invocation: what the endpoint answers, what the relay
      does, and the time. */
  datatype Attempt = Attempt(response: Response, send: SendOutcome, now: int)

  /** The collection and the notifications after a series of runs. */
  datatype History = History(state: Collection, notified: seq<Episode>)

  /** The runs one after the other, each on the collection the previous
      one left behind. */
  function RunAll(state: Collection, attempts: seq<Attempt>): History
    decreases |attempts|
  {
    if attempts == [] then History(state, [])
    else
      var eff := Run(state, attempts[0].response, attempts[0].send, attempts[0].now);
      var rest := RunAll(eff.state, attempts[1..]);
      History(rest.state, eff.notified + rest.notified)
  }

  /** Episode numbers rise strictly along a sequence of notifications. */
  predicate StrictlyIncreasing(s: seq<Episode>) {
    forall i, j :: 0 <= i < j < |s| ==> s[i].number < s[j].number
  }

  /** What one run contributes to a series: either nothing at all, or one
      episode above the checkpoint that becomes the new checkpoint. */
  lemma RunStep(state: Collection, a: Attempt)
    ensures var eff := Run(state, a.response, a.send, a.now);
      || (eff.notified == [] && eff.state == state)
      || (|eff.notified| == 1 && eff.notified[0].number > LastChecked(state)
          && LastChecked(eff.state) == eff.notified[0].number)
  {
  }

  /** Episode numbers rise strictly along a series of notifications, each
      above `floor`, and the checkpoint `last` is the last one notified (or
      `floor` when there is none). */
  predicate Chain(floor: int, notified: seq<Episode>, last: int) {
    && StrictlyIncreasing(notified)
    && (forall i :: 0 <= i < |notified| ==> notified[i].number > floor)
    && last >= floor
    && (|notified| > 0 ==> last == notified[|notified| - 1].number)
    && (notified == [] ==> last == floor)
  }

  /** A run that notified `first` (at most one episode, above `floor`, and
      moved the checkpoint to it) followed by a chain from there is a chain
      from `floor`. */
  lemma ChainPrepend(floor: int, first: seq<Episode>, mid: int, later: seq<Episode>, last: int)
    requires first == [] ==> mid == floor
    requires |first| <= 1
    requires first != [] ==> first[0].number > floor && mid == first[0].number
    requires Chain(mid, later, last)
    ensures Chain(floor, first + later, last)
  {
  }

  /** Over any series of runs, the notified numbers rise strictly and all
      lie above the starting checkpoint, so no episode number is notified
      twice; the checkpoint ends at the last one notified, never below where
      it started, and runs that notify nothing write nothing. */
  lemma {:induction false} NotificationsStrictlyIncrease(state: Collection, attempts: seq<Attempt>)
    ensures var h := RunAll(state, attempts);
      && Chain(LastChecked(state), h.notified, LastChecked(h.state))
      && (h.notified == [] ==> h.state == state)
    decreases |attempts|
  {
    if attempts != [] {
      var a := attempts[0];
      var eff := Run(state, a.response, a.send, a.now);
      var rest := RunAll(eff.state, attempts[1..]);
      NotificationsStrictlyIncrease(eff.state, attempts[1..]);
      RunStep(state, a);
      assert RunAll(state, attempts) == History(rest.state, eff.notified + rest.notified);
      ChainPrepend(LastChecked(state), eff.notified, LastChecked(eff.state), rest.notified, LastChecked(rest.state));
    }
  }

  /** Three episodes published since the checkpoint 5 produce a single
      notification, for episode 8, and move the checkpoint to 8; no later
      run ever notifies episode 6 or 7. */
  lemma OnlyLatestOfBatchNotified(e6: Episode, e7: Episode, e8: Episode, state: Collection,
                                  now: int, attempts: seq<Attempt>)
    requires e6.number == 6 && e7.number == 7 && e8.number == 8
    requires LastChecked(state) == 5
    ensures var eff := Run(state, Response(200, Some([e6, e7, e8])), Delivered, now);
      && eff.notified == [e8]
      && LastChecked(eff.state) == 8
      && e6 !in RunAll(eff.state, attempts).notified
      && e7 !in RunAll(eff.state, attempts).notified
  {
    var response := Response(200, Some([e6, e7, e8]));
    var eff := Run(state, response, Delivered, now);
    var listing := [e6, e7, e8];
    assert MaxNumber(listing) == 8 by {
      assert listing[2].number == 8;
    }
    assert LatestIndex(listing) == 2;
    NotifiesTheLatest(state, response, now);
    NotificationsStrictlyIncrease(eff.state, attempts);
    var later := RunAll(eff.state, attempts).notified;
    assert forall i :: 0 <= i < |later| ==> later[i].number > 8;
  }

  /** `check_new_episode` against the store and the relay: fetch, compare
      the latest episode with the checkpoint, send, and save only after the
      send returned. */
  method CheckNewEpisode(store: CheckpointStore, mailer: Mailer, response: Response, send: SendOutcome, now: int)
      returns (result: Result<Report, Failure>)
    modifies store, mailer
    ensures var eff := Run(old(store.episodeState), response, send, now);
      && store.episodeState == eff.state
      && mailer.sent == old(mailer.sent) + eff.notified
      && result == eff.result
  {
    var fetched := FetchEpisodes(response);
    if fetched.Err? {
      return Err(fetched.error);
    }
    var episodes := fetched.value;
    if episodes == [] {
      return Ok(NoEpisodes);
    }
    var latest := episodes[0];
    var lastChecked := store.GetLastChecked();
    if latest.number > lastChecked {
      var failure := mailer.SendEmail(latest, send);
      if failure.Some? {
        return Err(failure.value);
      }
      store.SaveLastChecked(latest.number, now);
      result := Ok(NewEpisode(latest));
    } else {
      result := Ok(NoNewEpisodes(latest.number, lastChecked));
    }
  }
}
