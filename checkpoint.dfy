/** The checkpoint: the number of the last notified episode, kept as one
    document of the `episode_state` collection under a fixed id. */
module Checkpoint {

  /** The fields the checker sets on the checkpoint document; `updatedAt`
      is the wall-clock time of the save, supplied by the caller. */
  datatype StateDoc = StateDoc(episodeNumber: int, updatedAt: int)

  /** The fixed id of the checkpoint document. */
  const LastEpisodeId: string := "last_episode"

  /** The `episode_state` collection, documents by id. */
  type Collection = map<string, StateDoc>

  /** The checkpoint as read from a collection: the stored number, or 0 when
      there is no checkpoint document yet. */
  function LastChecked(state: Collection): int {
    if LastEpisodeId in state then state[LastEpisodeId].episodeNumber else 0
  }

  /** The collection after an upsert of the checkpoint document. */
  function Upsert(state: Collection, n: int, now: int): (state': Collection)
    ensures LastChecked(state') == n
    ensures state'.Keys == state.Keys + {LastEpisodeId}
    ensures forall id :: id in state && id != LastEpisodeId ==> state'[id] == state[id]
  {
    state[LastEpisodeId := StateDoc(n, now)]
  }

  /** Saving the same number again changes nothing but the timestamp: the
      checkpoint reads the same as after a single save. */
  lemma UpsertIdempotent(state: Collection, n: int, t1: int, t2: int)
    ensures Upsert(Upsert(state, n, t1), n, t2) == Upsert(state, n, t2)
    ensures LastChecked(Upsert(Upsert(state, n, t1), n, t2)) == LastChecked(Upsert(state, n, t1))
  {
  }

  /** The document store holding the collection. */
  class CheckpointStore {
    var episodeState: Collection

    constructor (initial: Collection)
      ensures episodeState == initial
    {
      episodeState := initial;
    }

    /** `get_last_checked_episode`: looks the checkpoint document up by its
        id; 0 when it does not exist. */
    method GetLastChecked() returns (n: int)
      ensures LastEpisodeId !in episodeState ==> n == 0
      ensures LastEpisodeId in episodeState ==> n == episodeState[LastEpisodeId].episodeNumber
    {
      if LastEpisodeId in episodeState {
        n := episodeState[LastEpisodeId].episodeNumber;
      } else {
        n := 0;
      }
    }

    /** `save_last_checked_episode`: upserts the checkpoint document with
        the given number and time; no other document changes. */
    method SaveLastChecked(n: int, now: int)
      modifies this
      ensures episodeState == Upsert(old(episodeState), n, now)
      ensures LastChecked(episodeState) == n
    {
      episodeState := episodeState[LastEpisodeId := StateDoc(n, now)];
    }
  }
}
