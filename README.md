# Shared song-request queue manager, modelled in Dafny

The server side of a multi-user music player keeps a single in-memory
"play next" queue. Clients add songs, remove entries, ask for the next song to
play (optionally reporting the song that just finished) and clear the queue.
The queue manager owns two pieces of process-wide state: the ordered entry
list `songQueue` and the queue-id counter `currentQueueId`. This project models
that manager and proves what it promises:

- at most one live entry per song;
- queue ids that only grow and are never reused;
- the exact entry `getNext` selects after it removes a finished song;
- the difference between an empty queue and a played-out one;
- the add/remove round trip.

Files:

- `songs.dfy` (module `Songs`): the client's song descriptor and the stored
  entry. It also holds the normalisation applied at add time: the artist
  fallback chain, the `||` defaults for title, album, cover and duration, and
  the anonymous submitter.
- `queue_spec.dfy` (module `QueueSpec`): the state `QueueState(queue,
  counter)` and the queue invariant. The four mutating operations appear as
  pure transitions (`Add`, `Remove`, `Next`, `Clear`) that return the new
  state and the reply. Alongside them are `findIndex`, `splice`, the duration
  sum and the distinct-submitters list.
- `queue_lemmas.dfy` (module `QueueLemmas`): the invariant preserved by every
  operation and by any sequence of requests, plus the counter discipline.
  It also holds the add-then-remove round trip and the `getNext` edge cases
  (empty vs played out, peek idempotence, wrap at the tail, interior removal).
- `queue_manager.dfy` (module `QueueManager`): the class `Manager` with the
  fields `songQueue` and `currentQueueId`. Its mutators update the fields in
  place and are proved to perform the `QueueSpec` transition and to keep the
  invariant. The two queries are read-only functions. A client method
  `Session` replays a short session against the contracts.

Representation choices:

- Song ids are strings, namely their `String(...)` form, so the source's
  string comparisons become equality.
- A missing or falsy text field is `""`.
- A missing or non-array artist list is `[]`.
- A missing `song` or `addedBy` argument is `None`.
- The `currentSongId` of `getNext` is an `Option<string>`. `None` and
  `Some("")` both mean "not provided", as JavaScript's truthiness test does.

## Model

| member | source | states |
|---|---|---|
| Songs.Or | api-enhanced1/module/queue_manager.js:75-79 | JavaScript logical-or defaulting on strings: a truthy first operand is returned, otherwise the second; the result is blank only when both are |
| Songs.ResolveArtist | api-enhanced1/module/queue_manager.js:62-70 | artist fallback order: `artist` if truthy, else the non-empty `artists` names joined by " / ", else the non-empty `ar` names joined, else "未知艺术家" |
| Songs.JoinKeepsNames | api-enhanced1/module/queue_manager.js:67 | the joined artist text starts with the first name and is at least as long as the first name plus one separator per further name |
| Songs.JoinBlank | api-enhanced1/module/queue_manager.js:67-69 | a joined list is blank exactly when the list is empty or is a single blank name |
| Songs.ArtistNameBlank | api-enhanced1/module/queue_manager.js:62-70 | the resolved artist is blank iff `artist` is falsy and the chosen list holds exactly one nameless artist |
| Songs.MakeEntry | api-enhanced1/module/queue_manager.js:72-82 | the stored entry carries the given queue id and the song's id and resolved artist; its title is never blank; its duration is `duration` when that is non-zero and `dt` otherwise (so 0 only if both are); the submitter defaults to "匿名用户" |
| QueueSpec.FindIndex | api-enhanced1/module/queue_manager.js:119 | `findIndex`: -1 iff no element matches, otherwise the first matching index |
| QueueSpec.SongIndex | api-enhanced1/module/queue_manager.js:180-182 | first index whose song id equals the key, -1 iff none |
| QueueSpec.EntryIndex | api-enhanced1/module/queue_manager.js:119 | first index whose queue id equals the given id, -1 iff none |
| QueueSpec.RemoveAt | api-enhanced1/module/queue_manager.js:132 | `splice(i, 1)`: one element shorter; elements before `i` stay, later ones shift down by one; the multiset loses exactly the removed element |
| QueueSpec.Add | api-enhanced1/module/queue_manager.js:28-101 | missing song or falsy id gives 400 "歌曲信息不完整" and no change; a song already queued gives 400 "该歌曲已在队列中" and no change; success iff neither; on success exactly one entry with id old counter + 1 is appended, earlier entries untouched, counter + 1, position = new length = old length + 1 |
| QueueSpec.Remove | api-enhanced1/module/queue_manager.js:115-146 | unknown queue id gives 404 and no change; otherwise the first entry with that id is returned and spliced out, counter untouched |
| QueueSpec.Next | api-enhanced1/module/queue_manager.js:159-260 | empty queue gives 404 "队列为空" and no change; no or unmatched current song returns the head with the full length and changes nothing; a matched song is spliced out, then 404 "队列已播放完毕" if it was the only entry, else the entry that followed it (the old head if it was the tail) with remaining = new length |
| QueueSpec.Clear | api-enhanced1/module/queue_manager.js:277-298 | the queue becomes empty, the counter is kept, the reply is the old length |
| QueueSpec.Distinct | api-enhanced1/module/queue_manager.js:316 | `[...new Set(xs)]`: holds exactly the values of `xs`, each once, and is no longer than `xs` |
| QueueLemmas.RemoveAtKeepsValid | api-enhanced1/module/queue_manager.js:132 | splicing out any entry keeps song ids distinct and queue ids increasing and bounded by the counter |
| QueueLemmas.AddKeepsValid | api-enhanced1/module/queue_manager.js:45-84 | add keeps the invariant: the duplicate check and the fresh id keep song ids distinct and queue ids increasing |
| QueueLemmas.ApplyKeepsValid | api-enhanced1/module/queue_manager.js:28-298 | every operation (add, remove, get-next, clear) keeps the queue invariant |
| QueueLemmas.RunKeepsValid | api-enhanced1/module/queue_manager.js:45-60 | after any sequence of requests no two live entries share a song id |
| QueueLemmas.ApplyCounter | api-enhanced1/module/queue_manager.js:73 | the counter grows by exactly one on a successful add and is unchanged by every other outcome and operation |
| QueueLemmas.IssuedIdsFresh | api-enhanced1/module/queue_manager.js:73 | over any request sequence the queue ids returned by successful adds are counter+1, counter+2, … in order: strictly increasing, never reused, one per successful add |
| QueueLemmas.AddThenRemoveRestores | api-enhanced1/module/queue_manager.js:119-132 | removing the id a successful add returned gives back that entry and the original queue; only the counter has advanced |
| QueueLemmas.NextEmptyOrPlayedOut | api-enhanced1/module/queue_manager.js:166-207 | "队列为空" iff the queue was empty; "队列已播放完毕" iff the finished song was the only entry, and then the queue is empty |
| QueueLemmas.NextPeekIsIdempotent | api-enhanced1/module/queue_manager.js:221-233 | without a finished song, get-next changes nothing, returns the head, and a repeated call gives the same answer |
| QueueLemmas.NextAfterRemoval | api-enhanced1/module/queue_manager.js:180-213 | after removing the finished song the queue is one shorter and no longer holds it; the selected entry is a different song and is still queued |
| QueueLemmas.NextWrapsAtTail | api-enhanced1/module/queue_manager.js:209-213 | when the finished song was the tail of a longer queue, the head is selected |
| QueueLemmas.ClearThenAdd | api-enhanced1/module/queue_manager.js:277-297 | after clear, adding any song with a truthy id succeeds at position 1, even one queued before; its id is old counter + 1, above every id that was live |
| QueueLemmas.TotalDurationAppend | api-enhanced1/module/queue_manager.js:315 | total duration grows by the duration of the appended entry |
| QueueLemmas.TotalDurationRemoveAt | api-enhanced1/module/queue_manager.js:315 | total duration drops by the duration of the spliced-out entry |
| QueueLemmas.DuplicateScenario | api-enhanced1/module/queue_manager.js:45-60 | from the initial state: add "A" succeeds at position 1; adding "A" again is rejected as a duplicate; the queue holds one entry, "A" |
| QueueLemmas.InteriorRemovalScenario | api-enhanced1/module/queue_manager.js:209-213 | queue [A, B, C] and B finishes: the queue becomes [A, C], C is selected and 2 remain |
| QueueManager.Manager.constructor | api-enhanced1/module/queue_manager.js:9-10 | a fresh process has an empty queue and counter 0, which satisfies the invariant |
| QueueManager.Manager.GetQueue | api-enhanced1/module/queue_manager.js:15-21 | returns the queue as it is and its length |
| QueueManager.Manager.GetQueueStats | api-enhanced1/module/queue_manager.js:311-317 | total = length, totalDuration = sum of durations, users = exactly the submitters present, each once |
| QueueManager.Manager.AddToQueue | api-enhanced1/module/queue_manager.js:28-101 | updates the two fields in place exactly as `QueueSpec.Add` and keeps the invariant |
| QueueManager.Manager.RemoveFromQueue | api-enhanced1/module/queue_manager.js:115-146 | splices the queue in place exactly as `QueueSpec.Remove` and keeps the invariant |
| QueueManager.Manager.GetNext | api-enhanced1/module/queue_manager.js:159-260 | locates, splices and selects in place exactly as `QueueSpec.Next` and keeps the invariant |
| QueueManager.Manager.ClearQueue | api-enhanced1/module/queue_manager.js:277-298 | empties the queue in place, keeps the counter and returns the old length, as `QueueSpec.Clear` |

## Left out

- Logging: every `logger.*` call, the logger modules and the log-upload route. These are file and console output, and a logging failure never changes the functional result.
- The `addedAt: Date.now()` field of an entry is left out because it is a clock read and purely informational.
- The `catch` branches returning code 500 are left out. They fire only on exceptions from the runtime or the logger, which this model cannot raise.
- The `!nextSong` branch of `getNext` (404 "队列已空") is left out because it cannot be reached. Every path that gets there selects an element of a non-empty queue, and an entry object is always truthy.
- HTTP route handlers and the client store are left out; they only forward to the manager. The handlers' own 400s for a missing `song` or `id` are outside the manager.
- `parseInt(id)` in `removeFromQueue` is treated as the caller's coercion, so the queue id arrives as a natural number.
- Numeric song ids: the model takes each song id as its `String(...)` form. So the number 0, which the source rejects as falsy, is not distinguished from the accepted string "0". `NaN` ids are not represented either.
- `addedBy` passed explicitly as `null` is stored as `null` by the source. The model has only "given" (a string) and "not given" (the default applies).
- Durations are natural numbers. Negative, fractional or non-numeric `duration`/`dt` values are not represented.
- Success replies are modelled by their payload only. The code 200 and the fixed success messages ("添加成功", "移除成功", "获取成功", "已清空 N 首歌曲") are not modelled.
- QueueManager.Manager.GetQueueStats: states which submitters appear and that each appears once, not that they are listed in order of first appearance (which `Distinct` computes but no contract states).
- QueueSpec.Distinct: the first-occurrence order of `Set` iteration is computed but not stated in the contract.
- `getNext` keeps no record of the entry it selects, and `clearQueue` returns only the count; the list of cleared songs goes only to the log (api-enhanced1/module/queue_manager.js:280-291).
- The queue-id counter is an unbounded natural number. JavaScript number precision is not modelled: past 2^53 the source's `++currentQueueId` would stop changing the value and ids would repeat, which the model (and `QueueLemmas.IssuedIdsFresh`) does not capture.
- Concurrency: Node runs each request handler to completion, so every operation is one atomic method call.
