/** Properties of the queue transitions: the invariant each keeps, how they
    compose, and the edge cases of get-next. */
module QueueLemmas {
  import opened Songs
  import opened QueueSpec

  /** One request served by the manager. */
  datatype Op =
    | AddOp(song: Option<Song>, addedBy: Option<string>)
    | RemoveOp(id: nat)
    | NextOp(current: Option<string>)
    | ClearOp

  function Apply(s: QueueState, op: Op): QueueState
  {
    match op
    case AddOp(song, addedBy) => Add(s, song, addedBy).state
    case RemoveOp(id) => Remove(s, id).state
    case NextOp(current) => Next(s, current).state
    case ClearOp => Clear(s).state
  }

  /** The state after serving `ops` one after another, starting from `s`. */
  function Run(s: QueueState, ops: seq<Op>): QueueState
    decreases |ops|
  {
    if |ops| == 0 then s else Run(Apply(s, ops[0]), ops[1..])
  }

  predicate AddSucceeds(s: QueueState, op: Op)
  {
    op.AddOp? && Add(s, op.song, op.addedBy).response.Ok?
  }

  /** The queue ids that the successful adds among `ops` return to their
      callers, in order. */
  function Issued(s: QueueState, ops: seq<Op>): seq<nat>
    decreases |ops|
  {
    if |ops| == 0 then []
    else
      var head :=
        if AddSucceeds(s, ops[0]) then [Add(s, ops[0].song, ops[0].addedBy).response.data.entry.id] else [];
      head + Issued(Apply(s, ops[0]), ops[1..])
  }

  /** Splicing one entry out keeps the invariant: the survivors keep their
      relative order, so distinctness and increasing ids carry over. */
  lemma RemoveAtKeepsValid(s: QueueState, i: nat)
    requires Valid(s) && i < |s.queue|
    ensures Valid(QueueState(RemoveAt(s.queue, i), s.counter))
  {
    var r := RemoveAt(s.queue, i);
    forall a, b | 0 <= a < b < |r|
      ensures r[a].songId != r[b].songId && r[a].id < r[b].id
    {
      var a' := if a < i then a else a + 1;
      var b' := if b < i then b else b + 1;
      assert r[a] == s.queue[a'] && r[b] == s.queue[b'] && a' < b';
    }
    forall a | 0 <= a < |r|
      ensures r[a].songId != "" && 0 < r[a].id <= s.counter
    {
      assert r[a] == s.queue[if a < i then a else a + 1];
    }
  }

  /** A successful add appends an entry whose song is new and whose queue id
      exceeds every live one, so the invariant holds afterwards. */
  lemma AddKeepsValid(s: QueueState, song: Option<Song>, addedBy: Option<string>)
    requires Valid(s)
    ensures Valid(Add(s, song, addedBy).state)
  {
    var r := Add(s, song, addedBy);
    if r.response.Ok? {
      var e := r.response.data.entry;
      var q := r.state.queue;
      forall a, b | 0 <= a < b < |q|
        ensures q[a].songId != q[b].songId && q[a].id < q[b].id
      {
        if b == |s.queue| {
          assert q[b] == e && q[a] == s.queue[a];
          assert !HasSong(s.queue, e.songId);
        } else {
          assert q[a] == s.queue[a] && q[b] == s.queue[b];
        }
      }
      forall a | 0 <= a < |q|
        ensures q[a].songId != "" && 0 < q[a].id <= r.state.counter
      {
        if a < |s.queue| {
          assert q[a] == s.queue[a];
        }
      }
    }
  }

  lemma {:induction false} ApplyKeepsValid(s: QueueState, op: Op)
    requires Valid(s)
    ensures Valid(Apply(s, op))
  {
    match op
    case AddOp(song, addedBy) =>
      AddKeepsValid(s, song, addedBy);
    case RemoveOp(id) =>
      var index := EntryIndex(s.queue, id);
      if index != -1 {
        assert FirstWithId(s.queue, index, id);
        RemoveAtKeepsValid(s, index);
      }
    case NextOp(current) =>
      if |s.queue| > 0 && Provided(current) {
        var index := SongIndex(s.queue, current.value);
        if index != -1 {
          assert FirstWithSong(s.queue, index, current.value);
          RemoveAtKeepsValid(s, index);
        }
      }
    case ClearOp =>
  }

  /** Whatever requests arrive, no two live entries ever share a song id and
      queue ids stay increasing and at most the counter. */
  lemma {:induction false} RunKeepsValid(s: QueueState, ops: seq<Op>)
    requires Valid(s)
    ensures Valid(Run(s, ops))
    ensures forall i, j :: 0 <= i < j < |Run(s, ops).queue| ==>
      Run(s, ops).queue[i].songId != Run(s, ops).queue[j].songId
    decreases |ops|
  {
    if |ops| > 0 {
      ApplyKeepsValid(s, ops[0]);
      RunKeepsValid(Apply(s, ops[0]), ops[1..]);
    }
  }

  /** The counter moves by exactly one on a successful add and never otherwise. */
  lemma ApplyCounter(s: QueueState, op: Op)
    ensures Apply(s, op).counter == s.counter + (if AddSucceeds(s, op) then 1 else 0)
  {
    match op
    case RemoveOp(id) =>
      var index := EntryIndex(s.queue, id);
      if index != -1 {
        assert FirstWithId(s.queue, index, id);
      }
    case NextOp(current) =>
      if |s.queue| > 0 && Provided(current) {
        var index := SongIndex(s.queue, current.value);
        if index != -1 {
          assert FirstWithSong(s.queue, index, current.value);
        }
      }
    case _ =>
  }

  /** Queue ids are handed out consecutively from the counter onwards, one per
      successful add and none otherwise: they strictly increase and are never
      reused, whatever is removed or cleared in between. */
  lemma {:induction false} IssuedIdsFresh(s: QueueState, ops: seq<Op>)
    ensures Run(s, ops).counter == s.counter + |Issued(s, ops)|
    ensures forall k :: 0 <= k < |Issued(s, ops)| ==> Issued(s, ops)[k] == s.counter + 1 + k
    decreases |ops|
  {
    if |ops| > 0 {
      ApplyCounter(s, ops[0]);
      IssuedIdsFresh(Apply(s, ops[0]), ops[1..]);
    }
  }

  /** Adding a song and then removing the queue id the add returned gives back
      the original queue; only the counter has moved on. */
  lemma AddThenRemoveRestores(s: QueueState, song: Option<Song>, addedBy: Option<string>)
    requires Valid(s)
    requires Add(s, song, addedBy).response.Ok?
    ensures var added := Add(s, song, addedBy);
      var removed := Remove(added.state, added.response.data.entry.id);
      removed.response == Ok(added.response.data.entry) &&
      removed.state == QueueState(s.queue, s.counter + 1)
  {
    var added := Add(s, song, addedBy);
    var q := added.state.queue;
    var e := added.response.data.entry;
    var i := |s.queue|;
    assert q[i] == e;
    forall j | 0 <= j < i
      ensures q[j].id != e.id
    {
      assert q[j] == s.queue[j];
    }
    assert FirstWithId(q, i, e.id);
    assert RemoveAt(q, i) == s.queue;
  }

  /** "Empty" and "played out" are told apart: the first only when the queue
      had no entry, the second only when the just-finished song was the sole
      entry. */
  lemma NextEmptyOrPlayedOut(s: QueueState, current: Option<string>)
    ensures Next(s, current).response == Err(Failure(NotFound, MsgEmpty)) <==> |s.queue| == 0
    ensures Next(s, current).response == Err(Failure(NotFound, MsgPlayedOut)) <==>
      |s.queue| == 1 && Provided(current) && s.queue[0].songId == current.value
    ensures Next(s, current).response == Err(Failure(NotFound, MsgPlayedOut)) ==>
      Next(s, current).state.queue == []
  {
    if |s.queue| > 0 && Provided(current) {
      var index := SongIndex(s.queue, current.value);
      if index != -1 {
        assert FirstWithSong(s.queue, index, current.value);
      }
    }
  }

  /** Without a just-finished song get-next only peeks: the state is unchanged,
      so asking again answers the same head. */
  lemma NextPeekIsIdempotent(s: QueueState, current: Option<string>)
    requires !Provided(current)
    ensures Next(s, current).state == s
    ensures Next(Next(s, current).state, current) == Next(s, current)
    ensures |s.queue| > 0 ==> Next(s, current).response.data.entry == s.queue[0]
  {
  }

  /** When get-next removes the just-finished song and selects another, the
      song is gone from the queue, the selection is a different song, and the
      selection is still queued (it is not consumed). */
  lemma NextAfterRemoval(s: QueueState, current: Option<string>)
    requires Valid(s)
    requires Provided(current) && HasSong(s.queue, current.value)
    ensures !HasSong(Next(s, current).state.queue, current.value)
    ensures |Next(s, current).state.queue| == |s.queue| - 1
    ensures Next(s, current).response.Ok? ==>
      var e := Next(s, current).response.data.entry;
      e.songId != current.value && e in Next(s, current).state.queue
  {
    var index := SongIndex(s.queue, current.value);
    assert FirstWithSong(s.queue, index, current.value);
    var r := Next(s, current);
    var rest := RemoveAt(s.queue, index);
    assert r.state.queue == rest;
    forall k | 0 <= k < |rest|
      ensures rest[k].songId != current.value
    {
      var k' := if k < index then k else k + 1;
      assert rest[k] == s.queue[k'] && k' != index;
    }
    if r.response.Ok? {
      var nextIndex := if index < |rest| then index else 0;
      assert r.response.data.entry == rest[nextIndex];
    }
  }

  /** Removing the tail entry wraps around: the head is selected. */
  lemma NextWrapsAtTail(s: QueueState, current: Option<string>)
    requires Valid(s) && |s.queue| > 1
    requires Provided(current) && s.queue[|s.queue| - 1].songId == current.value
    ensures Next(s, current).response == Ok(Selection(s.queue[0], |s.queue| - 1))
  {
    assert FirstWithSong(s.queue, |s.queue| - 1, current.value);
  }

  /** Clearing keeps the counter: the next add succeeds even for a song that
      was queued before, and its queue id is above every id that was live. */
  lemma ClearThenAdd(s: QueueState, song: Song, addedBy: Option<string>)
    requires Valid(s) && song.id != ""
    ensures var r := Add(Clear(s).state, Some(song), addedBy);
      r.response.Ok? &&
      r.response.data.entry.id == s.counter + 1 &&
      r.response.data.position == 1 &&
      forall i :: 0 <= i < |s.queue| ==> s.queue[i].id < r.response.data.entry.id
  {
  }

  /** Total duration grows by the appended entry's duration. */
  lemma TotalDurationAppend(q: seq<Entry>, e: Entry)
    ensures TotalDuration(q + [e]) == TotalDuration(q) + e.duration
  {
    assert (q + [e])[..|q|] == q;
  }

  /** Total duration shrinks by the spliced-out entry's duration. */
  lemma {:induction false} TotalDurationRemoveAt(q: seq<Entry>, i: nat)
    requires i < |q|
    ensures TotalDuration(RemoveAt(q, i)) + q[i].duration == TotalDuration(q)
    decreases |q|
  {
    var last := |q| - 1;
    if i < last {
      var front := q[..last];
      TotalDurationRemoveAt(front, i);
      assert RemoveAt(q, i) == RemoveAt(front, i) + [q[last]];
      TotalDurationAppend(RemoveAt(front, i), q[last]);
    } else {
      assert RemoveAt(q, i) == q[..last];
    }
  }

  /** A song added once cannot be added again while it is queued. */
  lemma DuplicateScenario(a: Song, alice: string, bob: string)
    requires a.id == "A"
    ensures var first := Add(Initial, Some(a), Some(alice));
      first.response.Ok? && first.response.data.position == 1 &&
      Add(first.state, Some(a), Some(bob)) == Step(first.state, Err(Failure(BadRequest, MsgDuplicate))) &&
      |first.state.queue| == 1 && first.state.queue[0].songId == "A"
  {
    var first := Add(Initial, Some(a), Some(alice));
    assert first.state.queue[0].songId == "A";
  }

  /** Queue [A, B, C]; B finishes: B leaves, C (which followed it) is selected
      and two entries remain. */
  lemma InteriorRemovalScenario(a: Entry, b: Entry, c: Entry, counter: nat)
    requires a.songId == "A" && b.songId == "B" && c.songId == "C"
    ensures var r := Next(QueueState([a, b, c], counter), Some("B"));
      r.state.queue == [a, c] && r.response == Ok(Selection(c, 2))
  {
    assert FirstWithSong([a, b, c], 1, "B");
    assert RemoveAt([a, b, c], 1) == [a, c];
  }
}
