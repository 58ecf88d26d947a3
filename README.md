# ember-resource: resource lifecycle and `deepSet`

This Dafny project models two parts of `Ember.Resource`, a client-side resource
cache for Ember.js. The rest of the library is not modelled.

- **The lifecycle of a resource instance** (module `Lifecycle`, `lifecycle.dfy`).
  - An instance is UNFETCHED, FETCHING or FETCHED. It has an optional `expireAt`
    time and a `hasBeenFetched` flag.
  - `isExpired` and `isFetchable` are derived from those fields and the current
    time of a virtual clock.
  - `fetch()` moves a fetchable instance to FETCHING and issues one request.
  - A successful response sets FETCHED, `hasBeenFetched`, and an expiry five
    minutes (300000 ms) after the response.
  - `expireNow()` sets the expiry to now at once.
  - `expire()` defers the same write to the next turn of the run loop.
  - `destroy()` ends the life of the instance. Every later call leaves it unchanged.
  - Instances are objects of the class `Resource`, which reads the time from a
    `Clock`. The run loop is the class `RunLoop`, whose `pending` queue holds the
    deferred `expire()` work until `NextTurn` runs it.
  - Each method is specified by a function from the instance's old `Snapshot`
    to its new one.
  - A trace layer (`Step` and `Run` over a sequence of `Event`s) states the
    properties that relate several calls:
    - at most one request is in flight;
    - the fetched flag persists;
    - a destroyed instance is final;
    - `expire()` is deferred;
    - only `tick` moves time.
- **`Ember.Resource.deepSet(target, path, value)`** (modules `Path` in `path.dfy`
  and `DeepSet` in `deep_set.dfy`).
  - The path is split at every `.`, exactly as JavaScript's `split('.')` does.
  - The walk goes down every key but the last. It reuses an object found at a
    key and otherwise stores a new empty object there.
  - The last key receives `value`. An object value is stored as a deep copy
    made of new objects, so the stored copy shares no object with `value`.
  - Objects are heap objects (`class Obj`) with a `fields` map, and the walk and
    the copy are loops over them.
  - A ghost `rank` map describes the object graph the caller passes in: closed
    and acyclic. `Unfold` gives the JSON tree a value denotes in it.
  - `Copy` is proved to return new objects denoting the same tree.
  - `DeepSet` is proved to change no object but the walked nodes, and each of
    those at most at its one key.

The library's implementation files are not part of this model. The behaviour
modelled is the one that `spec/javascripts/lifecycleSpec.js` and
`spec/javascripts/deepSetSpec.js` pin down. Where the tests are silent, the
model makes these choices:
- at most one fetch in flight;
- writes to a destroyed instance are no-ops;
- `hasBeenFetched` holds once the state has been FETCHED.

Each scenario method, such as `Lifecycle.ExpireOnNextTurn` or
`DeepSet.CopyOnAssign`, replays the steps of one test on the objects. Its
`ensures` states what the test expects. The observer test of
`spec/javascripts/lifecycleSpec.js:156-183` creates its person with a `state`
attribute, which is not `resourceState`. The model reads `state` as an unrelated
attribute, so `Lifecycle.ExpireNowNotifies` starts from an UNFETCHED person.
`Lifecycle.ExpireNowFlipsFetchable` replays the same steps on a FETCHED person.

## Model

| member | source | states |
|---|---|---|
| `Lifecycle.RunExpiries` | spec/javascripts/lifecycleSpec.js:108-143 | the deferred `expire()` calls of one turn leave a live instance with `expireAt` equal to the turn's time, one notification per call, and nothing else changed; a destroyed instance is left as it was |
| `Lifecycle.Clock.constructor` | spec/javascripts/lifecycleSpec.js:115 | a clock starts at the given time with no ticks |
| `Lifecycle.Clock.Tick` | spec/javascripts/lifecycleSpec.js:115-141 | `tick` advances the time by its argument and counts one tick |
| `Lifecycle.Resource.constructor` | spec/javascripts/lifecycleSpec.js:24-49 | a created instance is UNFETCHED, not fetched, not destroyed, with no `expireAt` and no notifications |
| `Lifecycle.Resource.Fetch` | spec/javascripts/lifecycleSpec.js:51-60 | a request is issued exactly when the instance is live and fetchable, and then the state is FETCHING when the call returns; otherwise nothing changes |
| `Lifecycle.Resource.RespondSuccess` | spec/javascripts/lifecycleSpec.js:62-82 | a response to a live FETCHING instance sets FETCHED, `hasBeenFetched` and `expireAt = now + 300000`, with two notifications; otherwise nothing changes |
| `Lifecycle.Resource.SetExpireAt` | spec/javascripts/lifecycleSpec.js:93-106 | on a live instance only `expireAt` changes, and observers are notified once; on a destroyed one nothing changes |
| `Lifecycle.Resource.SetResourceState` | spec/javascripts/lifecycleSpec.js:113-114 | on a live instance only the state changes (and `hasBeenFetched` becomes true if it is FETCHED), with one notification; nothing changes on a destroyed one |
| `Lifecycle.Resource.ExpireNow` | spec/javascripts/lifecycleSpec.js:174-181 | `expireAt` becomes the current time within the call, and the notification is sent before it returns |
| `Lifecycle.Resource.Expire` | spec/javascripts/lifecycleSpec.js:108-117 | the instance is appended to the run loop's pending queue; the instance itself is unchanged |
| `Lifecycle.Resource.Destroy` | spec/javascripts/lifecycleSpec.js:145-148 | the instance is marked destroyed; nothing else changes |
| `Lifecycle.RunLoop.constructor` | spec/javascripts/lifecycleSpec.js:123-128 | a run loop starts with nothing pending |
| `Lifecycle.RunLoop.NextTurn` | spec/javascripts/lifecycleSpec.js:123-142 | the queue is emptied; every queued instance ends as `RunExpiries` says for the number of times it was queued; no clock moves or ticks |
| `Lifecycle.HasBeenFetchedPersists` | spec/javascripts/lifecycleSpec.js:71-73 | once `hasBeenFetched` holds, it holds after any sequence of events |
| `Lifecycle.FetchedMarkedInvariant` | spec/javascripts/lifecycleSpec.js:67-73 | "FETCHED implies `hasBeenFetched`" is preserved by every sequence of events |
| `Lifecycle.OneInFlightInvariant` | spec/javascripts/lifecycleSpec.js:51-60 | without outside writes of the state, at most one request is in flight, and a live instance has one exactly when it is FETCHING |
| `Lifecycle.NoDuplicateFetch` | spec/javascripts/lifecycleSpec.js:51-60 | `fetch()` while a request is in flight issues nothing and changes nothing |
| `Lifecycle.FetchingNotFetchable` | spec/javascripts/lifecycleSpec.js:51-60 | a FETCHING instance is not fetchable, so `fetch()` leaves it unchanged |
| `Lifecycle.Reachable` | spec/javascripts/lifecycleSpec.js:24-82 | every instance reached from creation by the lifecycle's own transitions has at most one request in flight and is marked fetched whenever it is FETCHED |
| `Lifecycle.DestroyedIsFinal` | spec/javascripts/lifecycleSpec.js:145-153 | after `destroy()`, no sequence of events changes the instance |
| `Lifecycle.ExpireDeferred` | spec/javascripts/lifecycleSpec.js:108-117 | any number of `expire()` calls only add queued work; the instance is untouched until the turn |
| `Lifecycle.ExpireThenTurn` | spec/javascripts/lifecycleSpec.js:108-143 | `expire()` and then a turn leave a live FETCHED instance expired and fetchable at the unchanged time, with the clock not ticked |
| `Lifecycle.ExpiryIsMonotone` | spec/javascripts/lifecycleSpec.js:93-98 | an expiry time that has passed stays passed as time advances |
| `Lifecycle.OnlyTicksMoveTime` | spec/javascripts/lifecycleSpec.js:137-141 | no sequence of events without `tick` moves the clock or counts a tick |
| `Lifecycle.NewObject` | spec/javascripts/lifecycleSpec.js:24-49 | a new object is UNFETCHED, not fetched, not expired, has no `expireAt` and is fetchable |
| `Lifecycle.FetchThenRespond` | spec/javascripts/lifecycleSpec.js:51-82 | `fetch()` issues a request and leaves FETCHING; the response gives FETCHED, `hasBeenFetched` and `expireAt` exactly five minutes after the response |
| `Lifecycle.SetExpiry` | spec/javascripts/lifecycleSpec.js:93-106 | after setting `expireAt`, the object is expired exactly when that time is not in the future, and it stays UNFETCHED |
| `Lifecycle.CountSnoc` | spec/javascripts/lifecycleSpec.js:116 | each `expire()` that queues `x` adds one occurrence of `r` to the pending work exactly when `x` is `r`, and none otherwise |
| `Lifecycle.CountOne` | spec/javascripts/lifecycleSpec.js:116 | a queue holding only `r` counts it once |
| `Lifecycle.ExpireOnNextTurn` | spec/javascripts/lifecycleSpec.js:108-143 | a FETCHED object is not fetchable; after `expire()` it is still unexpired in the same turn; after the next turn it is expired and fetchable, with no tick |
| `Lifecycle.ExpireDestroyed` | spec/javascripts/lifecycleSpec.js:145-153 | `expire()` on a destroyed object succeeds, and its deferred work changes nothing |
| `Lifecycle.ExpireNowNotifies` | spec/javascripts/lifecycleSpec.js:156-183 | an observer of `isFetchable` has been notified when `expireNow()` returns, and the object is expired |
| `Lifecycle.ExpireNowFlipsFetchable` | spec/javascripts/lifecycleSpec.js:156-183 | on a FETCHED person, `isFetchable` is false before `expireNow()` and true after it, and observers have been notified by the time it returns |
| `Lifecycle.Repeat` | spec/javascripts/lifecycleSpec.js:116 | `k` copies of one event, used to state repeated `expire()` calls |
| `Lifecycle.RunAppend` | spec/javascripts/lifecycleSpec.js:108-143 | running two sequences of events one after the other is running their concatenation |
| `Path.Split` | spec/javascripts/deepSetSpec.js:18-30 | splitting gives one more key than the path has dots, and no key contains a dot |
| `Path.JoinSplit` | spec/javascripts/deepSetSpec.js:18-30 | joining the keys of a split path with dots gives back the path |
| `Path.SplitJoin` | spec/javascripts/deepSetSpec.js:18-30 | splitting the dot-join of dot-free keys gives back those keys |
| `Path.SplitDotFree` | spec/javascripts/deepSetSpec.js:2-16 | a path without dots is a single key |
| `Path.SplitAfterKey` | spec/javascripts/deepSetSpec.js:18-30 | a dot-free key followed by a dot becomes the first key, before the keys of the rest |
| `DeepSet.Obj.constructor` | spec/javascripts/deepSetSpec.js:3 | an object literal holds exactly the given fields |
| `DeepSet.UnfoldWider` | spec/javascripts/deepSetSpec.js:49-52 | what a value denotes does not depend on objects outside its graph |
| `DeepSet.RankedUnion` | spec/javascripts/deepSetSpec.js:49-52 | two acyclic graphs over disjoint objects form one |
| `DeepSet.RankedAddRoot` | spec/javascripts/deepSetSpec.js:49-52 | a new object whose members lie in an acyclic graph extends it |
| `DeepSet.WidenMembers` | spec/javascripts/deepSetSpec.js:49-52 | extending a graph keeps what every member of a field map denotes |
| `DeepSet.UnfoldSameMembers` | spec/javascripts/deepSetSpec.js:49-52 | objects with the same keys whose members denote the same trees denote the same tree |
| `DeepSet.AddCopiedMember` | spec/javascripts/deepSetSpec.js:49-52 | copying one more member keeps the copied members equal, as trees, to the source's |
| `DeepSet.Copy` | spec/javascripts/deepSetSpec.js:49-54 | the copy denotes the same JSON tree as the value, every object in it is new, and a scalar is returned unchanged |
| `DeepSet.CopyObject` | spec/javascripts/deepSetSpec.js:49-54 | a new object with the same keys as the source, each member a copy denoting the same tree |
| `DeepSet.Descend` | spec/javascripts/deepSetSpec.js:18-30 | the key now holds the next node: the object already there, or a new empty object when the key is missing or holds a scalar; no other key changes |
| `DeepSet.Walk` | spec/javascripts/deepSetSpec.js:18-30 | one node per key but the last, from the target; each node's key holds the next node, reused or new; the nodes are pairwise distinct; no other object changes |
| `DeepSet.DeepSet` | spec/javascripts/deepSetSpec.js:2-55 | each walked node changes at most at its one key; the last node's last key holds a copy of the value made of new objects that denotes the same tree (the value itself when it is a scalar); no other object changes |
| `DeepSet.SplitTestPaths` | spec/javascripts/deepSetSpec.js:4-20 | `'a'` splits into one key and `'a.b.c'` into three |
| `DeepSet.SetAtPath` | spec/javascripts/deepSetSpec.js:2-8 | `deepSet({}, 'a', 'foo')` leaves `obj.a == 'foo'` |
| `DeepSet.OverwriteAtPath` | spec/javascripts/deepSetSpec.js:10-16 | `deepSet({a: 'foo'}, 'a', 'bar')` leaves `obj.a == 'bar'` |
| `DeepSet.CreateMissingNodes` | spec/javascripts/deepSetSpec.js:18-30 | `deepSet({}, 'a.b.c', 'foo')` makes `obj.a` and `obj.a.b` objects and `obj.a.b.c == 'foo'` |
| `DeepSet.UnfoldMember` | spec/javascripts/deepSetSpec.js:51-52 | a value denoting an object holds, at each member key, a value denoting that member |
| `DeepSet.UnfoldScalar` | spec/javascripts/deepSetSpec.js:51-52 | a value denoting a string or a number is that string or number |
| `DeepSet.NewTicketAndGroup` | spec/javascripts/deepSetSpec.js:33-47 | builds the ticket and the group data of the test as an acyclic graph of new objects; the group data is neither the ticket nor its data |
| `DeepSet.SplitDataGroup` | spec/javascripts/deepSetSpec.js:49 | `'data.group'` splits into two keys |
| `DeepSet.GroupDataDenotes` | spec/javascripts/deepSetSpec.js:42-47 | the group data denotes `{id: 2, name: 'Development'}` |
| `DeepSet.StoreGroup` | spec/javascripts/deepSetSpec.js:49 | after `deepSet(ticket, 'data.group', group.data)`, `ticket.data` is the same object and its `group` denotes `{id: 2, name: 'Development'}`; `group.data` itself is left unchanged |
| `DeepSet.CopyOnAssign` | spec/javascripts/deepSetSpec.js:32-55 | read after the call, `ticket.data.group.id` and `.name` equal `group.data.id` and `group.data.name` (2 and 'Development'), and `ticket.data.group` is a different object from `group.data` |

## Left out

- The ERROR state and the failure path of a fetch (error handler, reverting to fetchable) are not modelled: no test in the repository exercises them.
- The `Ember.Resource.ajax` wrapper is not modelled. It forwards to jQuery's `$.ajax`, a foreign library.
- The HTTP transport, the fake server, and the JSON payload of a response are not modelled. A response is the abstract `RespondSuccess` event, and merging the payload into the instance's data is not modelled.
- Resource identity, URLs, and schema field types (`Number`, `String`) are not modelled.
- Ember's observer machinery is not modelled. A counter stands in for it: one notification of `isFetchable`'s observers per write of `resourceState` or `expireAt`, whether or not the flag's value flips, and none when the clock ticks, although `isFetchable` reads the clock's time. Ember notifies a computed property's observers when a dependency changes.
- `Em.run.next` and the real run loop are replaced by the explicit pending queue of `RunLoop`.
- JavaScript `Date` and wall-clock time are replaced by integer milliseconds on a `Clock`.
- The ±100 ms tolerance of the expiry test is not modelled: the model states the expiry exactly.
- Lifecycle.Resource.SetResourceState: the lifecycle invariants (one request in flight) are proved only for event sequences without these direct writes. A direct write can put an instance in FETCHING with no request.
- DeepSet.DeepSet: requires the caller's object graph to be acyclic and closed, as the ghost `rank` describes. It says nothing about cyclic objects. A cyclic value would not let a deep copy terminate. The target's graph is also required to be acyclic, so that the walked nodes are distinct, although the walk itself only follows the path and would terminate on a cyclic target.
- DeepSet.DeepSet: copies the value before walking the path. This differs from a copy taken at the leaf only when the value reaches a walked node whose key was missing or held a scalar, because only those nodes are changed before the leaf.
- DeepSet.Descend: an intermediate key holding a scalar is replaced by a new empty object. The tests only cover missing keys.
- DeepSet.DeepSet: values are strings, integers and plain objects only. Arrays, booleans, `null`, `undefined` and inherited properties are not modelled.
