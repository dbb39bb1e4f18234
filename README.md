# New-episode checker, modelled in Dafny

The checker polls an episode-listing endpoint, compares the highest episode
number it finds with a persisted checkpoint (the number of the last episode
it notified), mails a notification for that latest episode when it is newer,
and only after the mail went out moves the checkpoint to its number. The
model covers `main.py`: the ordering done by `fetch_episodes`, the checkpoint
read and upsert, the mail send reduced to its outcome, and the decision and
ordering of `check_new_episode`.

- `wrappers.dfy` — `Option` and `Result`.
- `episodes.dfy` — the `Episode` record and the stable sort by number,
  highest first (`sorted(..., reverse=True)`), as an insertion sort with its
  order and permutation properties; which record comes first.
- `checkpoint.dfy` — the `episode_state` collection as a map from document id
  to document, the `"last_episode"` checkpoint document, and the
  `CheckpointStore` class whose methods read and upsert it.
- `notifier.dfy` — the `Mailer` class: the recipient's mailbox, and a send
  whose outcome (delivered, login rejected, other failure) is a parameter.
- `detector.dfy` — one run as a function `Run` of the collection, the HTTP
  answer, the send outcome and the clock; the method `CheckNewEpisode` over the
  store and the mailer, proved to have exactly the effect `Run` describes; a
  series of runs `RunAll` and its properties.

The code mails only the single latest episode (`main.py:101,106`). The
repository also describes a batch variant that mails every episode above the
checkpoint in one message; the model follows `main.py`, and
`Detector.OnlyLatestOfBatchNotified` shows the consequence: with the
checkpoint at 5 and episodes 6, 7 and 8 published, only episode 8 is ever
notified.

## Model

| member | source | states |
|---|---|---|
| Episodes.SortByNumberDesc | main.py:29 | the listing comes back ordered by number, highest first, and is a permutation of what was fetched |
| Episodes.SortedHeadIsMax | main.py:29 | the first record after sorting carries the largest number of the listing and is one of its records |
| Episodes.SortedHeadIsFirstLatest | main.py:29 | with equal numbers the sort keeps listing order, so the first record is the earliest record with the largest number |
| Checkpoint.Upsert | main.py:37-47 | after the upsert the checkpoint reads as the saved number; the checkpoint document exists and every other document is unchanged |
| Checkpoint.UpsertIdempotent | main.py:40-47 | saving the same number twice leaves the collection as one save would (up to the timestamp of the last save) and the checkpoint reads the same |
| Checkpoint.CheckpointStore.GetLastChecked | main.py:31-35 | 0 when there is no checkpoint document, otherwise its stored episode number |
| Checkpoint.CheckpointStore.SaveLastChecked | main.py:37-47 | the collection becomes the upsert of the checkpoint document with the number and time; the checkpoint then reads as that number |
| Notifier.Mailer.SendEmail | main.py:74-91 | a delivered send adds the episode to the mailbox; a rejected login raises `AuthError`, any other failure `SendError`, and neither adds anything |
| Detector.FetchEpisodes | main.py:23-29 | an error status (400 to 599) or an unreadable body raises `FetchError`; otherwise the result is the fetched listing ordered highest first, as a permutation |
| Detector.NotifiesIffNewAndDelivered | main.py:101-107 | a run notifies at most one episode, and one exactly when the fetch succeeds, the listing is non-empty, its largest number is above the checkpoint and the send is delivered |
| Detector.NotifiesTheLatest | main.py:101-107 | the notified episode is the listing's first record with the largest number, the run reports it, and the checkpoint becomes that number |
| Detector.EmptyListingIsNoOp | main.py:96-99 | an empty listing sends nothing, writes nothing and reports that no episodes were found |
| Detector.UpToDateIsNoOp | main.py:101-109 | when the largest number is not above the checkpoint nothing is sent or written, and the run reports the latest number and the checkpoint |
| Detector.FailedSendKeepsCheckpoint | main.py:104-113 | a failed send re-raises its error, writes nothing and sends nothing, so the next delivered run notifies the same episode |
| Detector.SilentRunKeepsState | main.py:93-113 | a run that notifies nothing leaves the collection unchanged |
| Detector.CheckpointNeverDecreases | main.py:102-107 | after any run the checkpoint is at least what it was before |
| Detector.FirstRunNotifies | main.py:31-35 | with no checkpoint document, a delivered run over a listing holding an episode numbered 1 or more notifies one episode |
| Detector.NotificationsStrictlyIncrease | main.py:93-113 | over any series of runs the notified numbers rise strictly and lie above the starting checkpoint, the checkpoint ends at the last one notified and never below its start, and silent series write nothing |
| Detector.OnlyLatestOfBatchNotified | main.py:101-107 | with the checkpoint at 5 and episodes 6, 7, 8 fetched, only episode 8 is notified, the checkpoint becomes 8, and no later run notifies 6 or 7 |
| Detector.CheckNewEpisode | main.py:93-113 | the store, the mailbox and the result after the method are those `Run` gives: fetch, compare, send, and save only after a delivered send |

## Left out

- The HTTP request itself and JSON decoding: the endpoint's answer is a parameter (status code, and the episode list or nothing when the body cannot be read); a connection failure, which also raises, is represented only through an error status.
- A record missing its `number` key or carrying a non-integer number: the model's records are typed, with integer numbers.
- MongoDB connection and query failures: the store's read and upsert always succeed in the model, so the case of a delivered mail followed by a failed save (which leaves the checkpoint behind and re-sends next run) is not modelled.
- The `updated_at` time comes from the wall clock in the code; here it is the `now` parameter and plays no part in any decision.
- Notifier.Mailer.SendEmail: treats a failed send as delivering nothing; whether a message can reach the recipient even though the SMTP session then raises is outside the model.
- The SMTP connection and login, the MIME message, the subject and body templates and the air-date formatting: library calls and text with no stated contract.
- Environment loading and `print` logging: configuration and diagnostics only.
- Overlapping runs racing on the checkpoint: runs are taken one after the other.
