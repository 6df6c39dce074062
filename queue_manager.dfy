/** The queue manager itself: the process-wide queue and queue-id counter,
    updated in place by the mutating operations and read by the two queries.
    Each mutating method is proved to perform its transition from QueueSpec and
    to keep the queue invariant. */
module QueueManager {
  import opened Songs
  import opened QueueSpec
  import QueueLemmas

  /** Reply of getQueue: the entries and their count. */
  datatype QueueView = QueueView(queue: seq<Entry>, total: nat)

  /** Reply of getQueueStats. */
  datatype Stats = Stats(total: nat, totalDuration: nat, users: seq<string>)

  class Manager {
    var songQueue: seq<Entry>
    var currentQueueId: nat

    function State(): QueueState
      reads this
    {
      QueueState(songQueue, currentQueueId)
    }

    ghost predicate Valid()
      reads this
    {
      QueueSpec.Valid(State())
    }

    /** A fresh process: empty queue, counter at zero. */
    constructor ()
      ensures Valid() && State() == Initial
    {
      songQueue := [];
      currentQueueId := 0;
    }

    /** getQueue: the whole queue in order, and its length. */
    function GetQueue(): (r: QueueView)
      reads this
      ensures r.queue == songQueue && r.total == |songQueue|
    {
      QueueView(songQueue, |songQueue|)
    }

    /** getQueueStats: the number of entries, their total duration and each
        submitter once, in order of first appearance. */
    function GetQueueStats(): (r: Stats)
      reads this
      ensures r.total == |songQueue|
      ensures r.totalDuration == TotalDuration(songQueue)
      ensures forall u :: u in r.users <==> exists i :: 0 <= i < |songQueue| && songQueue[i].addedBy == u
      ensures NoDuplicates(r.users) && |r.users| <= |songQueue|
    {
      var submitters := seq(|songQueue|, i requires 0 <= i < |songQueue| reads this => songQueue[i].addedBy);
      assert forall i :: 0 <= i < |songQueue| ==> submitters[i] == songQueue[i].addedBy;
      Stats(|songQueue|, TotalDuration(songQueue), Distinct(submitters))
    }

    method AddToQueue(song: Option<Song>, addedBy: Option<string>) returns (r: Response<Added>)
      requires Valid()
      modifies this
      ensures Valid()
      ensures Step(State(), r) == Add(old(State()), song, addedBy)
    {
      ghost var before := State();
      QueueLemmas.AddKeepsValid(before, song, addedBy);
      if song.None? || song.value.id == "" {
        return Err(Failure(BadRequest, MsgIncomplete));
      }
      var normalizedSongId := song.value.id;
      var found := HasSong(songQueue, normalizedSongId);
      if found {
        return Err(Failure(BadRequest, MsgDuplicate));
      }
      currentQueueId := currentQueueId + 1;
      var queueItem := MakeEntry(currentQueueId, song.value, addedBy);
      songQueue := songQueue + [queueItem];
      r := Ok(Added(queueItem, |songQueue|));
    }

    method RemoveFromQueue(id: nat) returns (r: Response<Entry>)
      requires Valid()
      modifies this
      ensures Valid()
      ensures Step(State(), r) == Remove(old(State()), id)
    {
      ghost var before := State();
      QueueLemmas.ApplyKeepsValid(before, QueueLemmas.RemoveOp(id));
      var index := EntryIndex(songQueue, id);
      if index == -1 {
        return Err(Failure(NotFound, MsgNotInQueue));
      }
      assert FirstWithId(songQueue, index, id);
      var removed := songQueue[index];
      songQueue := songQueue[..index] + songQueue[index + 1..];
      r := Ok(removed);
    }

    method GetNext(currentSongId: Option<string>) returns (r: Response<Selection>)
      requires Valid()
      modifies this
      ensures Valid()
      ensures Step(State(), r) == Next(old(State()), currentSongId)
    {
      ghost var before := State();
      QueueLemmas.ApplyKeepsValid(before, QueueLemmas.NextOp(currentSongId));
      if |songQueue| == 0 {
        return Err(Failure(NotFound, MsgEmpty));
      }
      var nextSong: Entry;
      if Provided(currentSongId) {
        var currentIndex := SongIndex(songQueue, currentSongId.value);
        if currentIndex != -1 {
          assert FirstWithSong(songQueue, currentIndex, currentSongId.value);
          songQueue := songQueue[..currentIndex] + songQueue[currentIndex + 1..];
          if |songQueue| == 0 {
            return Err(Failure(NotFound, MsgPlayedOut));
          }
          var nextIndex := if currentIndex < |songQueue| then currentIndex else 0;
          nextSong := songQueue[nextIndex];
        } else {
          nextSong := songQueue[0];
        }
      } else {
        nextSong := songQueue[0];
      }
      r := Ok(Selection(nextSong, |songQueue|));
    }

    method ClearQueue() returns (cleared: nat)
      requires Valid()
      modifies this
      ensures Valid()
      ensures Step(State(), cleared) == Clear(old(State()))
    {
      var count := |songQueue|;
      songQueue := [];
      cleared := count;
    }
  }

  /** A session against one manager, as a caller can derive it from the
      contracts: add, duplicate rejected, finish the only song, then empty. */
  method Session(a: Song)
    requires a.id == "A"
  {
    var m := new Manager();
    var r1 := m.AddToQueue(Some(a), None);
    assert r1 == Ok(Added(MakeEntry(1, a, None), 1));
    assert m.songQueue == [MakeEntry(1, a, None)];
    assert HasSong(m.songQueue, "A") by { assert m.songQueue[0].songId == "A"; }
    var r2 := m.AddToQueue(Some(a), Some("bob"));
    assert r2 == Err(Failure(BadRequest, MsgDuplicate));
    var r3 := m.GetNext(Some("A"));
    assert FirstWithSong([MakeEntry(1, a, None)], 0, "A");
    assert r3 == Err(Failure(NotFound, MsgPlayedOut));
    var r4 := m.GetNext(None);
    assert r4 == Err(Failure(NotFound, MsgEmpty));
  }
}
