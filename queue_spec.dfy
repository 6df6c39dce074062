/** The queue manager's state and its four mutating operations as pure
    transitions from the old state to the new state and the caller's response.
    The class in QueueManager implements each of them in place. */
module QueueSpec {
  import opened Songs

  /** The module-level state: the ordered queue and the last queue id issued. */
  datatype QueueState = QueueState(queue: seq<Entry>, counter: nat)

  /** An error response: the `code` and `message` fields of the reply. */
  datatype Failure = Failure(code: int, message: string)

  datatype Response<T> = Ok(data: T) | Err(failure: Failure)

  /** A transition's outcome: the state after the call and the reply. */
  datatype Step<T> = Step(state: QueueState, response: T)

  /** Payload of a successful add: the new entry and its 1-based position. */
  datatype Added = Added(entry: Entry, position: nat)

  /** Payload of a successful get-next: the selected entry and the queue
      length after any removal. */
  datatype Selection = Selection(entry: Entry, remaining: nat)

  const BadRequest: int := 400
  const NotFound: int := 404

  const MsgIncomplete: string := "歌曲信息不完整"
  const MsgDuplicate: string := "该歌曲已在队列中"
  const MsgNotInQueue: string := "队列中未找到该歌曲"
  const MsgEmpty: string := "队列为空"
  const MsgPlayedOut: string := "队列已播放完毕"

  /** The state the process starts in: no entries, no id issued yet. */
  const Initial: QueueState := QueueState([], 0)

  /** JavaScript's `Array.prototype.findIndex`: the first index whose element
      satisfies `p`, or -1 when there is none. */
  function FindIndex<T>(s: seq<T>, p: T -> bool): (r: int)
    ensures -1 <= r < |s|
    ensures r == -1 <==> forall i :: 0 <= i < |s| ==> !p(s[i])
    ensures r != -1 ==> p(s[r]) && forall i :: 0 <= i < r ==> !p(s[i])
  {
    if |s| == 0 then -1
    else if p(s[0]) then 0
    else
      var k := FindIndex(s[1..], p);
      if k == -1 then -1 else k + 1
  }

  /** Index of the entry holding song `key`, compared by string form. */
  function SongIndex(q: seq<Entry>, key: string): (r: int)
    ensures -1 <= r < |q|
    ensures r == -1 <==> forall i :: 0 <= i < |q| ==> q[i].songId != key
    ensures r != -1 ==> q[r].songId == key && forall i :: 0 <= i < r ==> q[i].songId != key
  {
    FindIndex(q, (e: Entry) => e.songId == key)
  }

  /** Index of the entry with queue id `id`. */
  function EntryIndex(q: seq<Entry>, id: nat): (r: int)
    ensures -1 <= r < |q|
    ensures r == -1 <==> forall i :: 0 <= i < |q| ==> q[i].id != id
    ensures r != -1 ==> q[r].id == id && forall i :: 0 <= i < r ==> q[i].id != id
  {
    FindIndex(q, (e: Entry) => e.id == id)
  }

  /** `i` is the index `findIndex` reports for song `key`. */
  predicate FirstWithSong(q: seq<Entry>, i: int, key: string)
  {
    0 <= i < |q| && q[i].songId == key && forall j :: 0 <= j < i ==> q[j].songId != key
  }

  /** `i` is the index `findIndex` reports for queue id `id`. */
  predicate FirstWithId(q: seq<Entry>, i: int, id: nat)
  {
    0 <= i < |q| && q[i].id == id && forall j :: 0 <= j < i ==> q[j].id != id
  }

  /** `songQueue.some(item => String(item.songId) === key)`. */
  predicate HasSong(q: seq<Entry>, key: string)
  {
    exists i | 0 <= i < |q| :: q[i].songId == key
  }

  /** `splice(i, 1)`: the sequence without its element at `i`, every other
      element keeping its relative order. */
  function RemoveAt<T>(s: seq<T>, i: nat): (r: seq<T>)
    requires i < |s|
    ensures |r| == |s| - 1
    ensures forall k :: 0 <= k < i ==> r[k] == s[k]
    ensures forall k :: i <= k < |r| ==> r[k] == s[k + 1]
    ensures multiset(r) + multiset{s[i]} == multiset(s)
  {
    assert s == s[..i] + [s[i]] + s[i + 1..];
    s[..i] + s[i + 1..]
  }

  /** The queue invariant every operation keeps: song ids are truthy and
      pairwise distinct, queue ids are positive, no larger than the counter and
      strictly increasing from head to tail. */
  predicate Valid(s: QueueState)
  {
    (forall i :: 0 <= i < |s.queue| ==> s.queue[i].songId != "" && 0 < s.queue[i].id <= s.counter) &&
    (forall i, j :: 0 <= i < j < |s.queue| ==>
      s.queue[i].songId != s.queue[j].songId && s.queue[i].id < s.queue[j].id)
  }

  /** addToQueue: reject a missing song or falsy id, reject a song already
      queued, otherwise issue the next queue id and append the entry. */
  function Add(s: QueueState, song: Option<Song>, addedBy: Option<string>): (r: Step<Response<Added>>)
    ensures song.None? || song.value.id == "" ==>
      r == Step(s, Err(Failure(BadRequest, MsgIncomplete)))
    ensures song.Some? && song.value.id != "" && HasSong(s.queue, song.value.id) ==>
      r == Step(s, Err(Failure(BadRequest, MsgDuplicate)))
    ensures r.response.Ok? <==> song.Some? && song.value.id != "" && !HasSong(s.queue, song.value.id)
    ensures r.response.Ok? ==>
      var e := r.response.data.entry;
      r.state.counter == s.counter + 1 &&
      r.state.queue == s.queue + [e] &&
      e.id == s.counter + 1 &&
      e == MakeEntry(e.id, song.value, addedBy) &&
      r.response.data.position == |r.state.queue| == |s.queue| + 1
  {
    if song.None? || song.value.id == "" then
      Step(s, Err(Failure(BadRequest, MsgIncomplete)))
    else if HasSong(s.queue, song.value.id) then
      Step(s, Err(Failure(BadRequest, MsgDuplicate)))
    else
      var e := MakeEntry(s.counter + 1, song.value, addedBy);
      var q := s.queue + [e];
      Step(QueueState(q, s.counter + 1), Ok(Added(e, |q|)))
  }

  /** removeFromQueue: splice out the entry with queue id `id`, or report
      that there is none. The counter is never touched. */
  function Remove(s: QueueState, id: nat): (r: Step<Response<Entry>>)
    ensures (forall i :: 0 <= i < |s.queue| ==> s.queue[i].id != id) ==>
      r == Step(s, Err(Failure(NotFound, MsgNotInQueue)))
    ensures forall i :: FirstWithId(s.queue, i, id) ==>
      r == Step(QueueState(RemoveAt(s.queue, i), s.counter), Ok(s.queue[i]))
  {
    var index := EntryIndex(s.queue, id);
    if index == -1 then Step(s, Err(Failure(NotFound, MsgNotInQueue)))
    else Step(QueueState(RemoveAt(s.queue, index), s.counter), Ok(s.queue[index]))
  }

  /** A just-finished song id was given: `null`, `undefined` and "" are not. */
  predicate Provided(current: Option<string>)
  {
    current.Some? && current.value != ""
  }

  /** getNext: fail on an empty queue; when the just-finished song is queued,
      remove it and select the entry that followed it, wrapping to the head
      when it was the tail, or report the queue played out when it was the
      only one; otherwise peek at the head without removing anything. */
  function Next(s: QueueState, current: Option<string>): (r: Step<Response<Selection>>)
    ensures |s.queue| == 0 ==> r == Step(s, Err(Failure(NotFound, MsgEmpty)))
    ensures |s.queue| > 0 && (!Provided(current) || !HasSong(s.queue, current.value)) ==>
      r == Step(s, Ok(Selection(s.queue[0], |s.queue|)))
    ensures forall i :: Provided(current) && FirstWithSong(s.queue, i, current.value) ==>
      r.state == QueueState(RemoveAt(s.queue, i), s.counter) &&
      (|s.queue| == 1 ==> r.response == Err(Failure(NotFound, MsgPlayedOut))) &&
      (|s.queue| > 1 ==>
        r.response == Ok(Selection(if i + 1 < |s.queue| then s.queue[i + 1] else s.queue[0], |s.queue| - 1)))
  {
    if |s.queue| == 0 then
      Step(s, Err(Failure(NotFound, MsgEmpty)))
    else if Provided(current) then
      var currentIndex := SongIndex(s.queue, current.value);
      if currentIndex == -1 then
        Step(s, Ok(Selection(s.queue[0], |s.queue|)))
      else
        var rest := RemoveAt(s.queue, currentIndex);
        if |rest| == 0 then
          Step(QueueState(rest, s.counter), Err(Failure(NotFound, MsgPlayedOut)))
        else
          var nextIndex := if currentIndex < |rest| then currentIndex else 0;
          Step(QueueState(rest, s.counter), Ok(Selection(rest[nextIndex], |rest|)))
    else
      Step(s, Ok(Selection(s.queue[0], |s.queue|)))
  }

  /** clearQueue: drop every entry, keep the counter, report how many went. */
  function Clear(s: QueueState): (r: Step<nat>)
    ensures r.state.queue == [] && r.state.counter == s.counter
    ensures r.response == |s.queue|
  {
    Step(QueueState([], s.counter), |s.queue|)
  }

  /** Sum of the entries' durations (`reduce` with `duration || 0`). */
  function TotalDuration(q: seq<Entry>): nat
  {
    if |q| == 0 then 0 else TotalDuration(q[..|q| - 1]) + q[|q| - 1].duration
  }

  predicate NoDuplicates(xs: seq<string>)
  {
    forall i, j :: 0 <= i < j < |xs| ==> xs[i] != xs[j]
  }

  /** `[...new Set(xs)]`: each value once, in order of first occurrence. */
  function Distinct(xs: seq<string>): (r: seq<string>)
    ensures forall x :: x in r <==> x in xs
    ensures NoDuplicates(r)
    ensures |r| <= |xs|
  {
    if |xs| == 0 then []
    else
      var d := Distinct(xs[..|xs| - 1]);
      assert forall x :: x in xs <==> x in xs[..|xs| - 1] || x == xs[|xs| - 1];
      if xs[|xs| - 1] in d then d else d + [xs[|xs| - 1]]
  }
}
