# A verified model of the chat server's shared state

The server is a set of worker processes around one PostgreSQL database and one Redis.
Workers route group messages to the sockets they hold, cache authenticated tokens, and
tell each other about changes by Pub/Sub pushes and by a Redis stream. This project
models the parts of it where steps of different workers and tasks interleave, and proves
what holds in every run.

Two kinds of model meet in each component. A class holds the mutable fields the Python
object or the tables hold (`WebSocketManager`, `GroupService`, `MessagingService`,
`AuthService`, `TokenCache`, `StreamListener`); its methods follow the source's branches
and loops, and are proved equal to functions on values. A transition system then runs
those functions, one step for each stretch of code between two awaits, each committed
transaction, each Redis command, in any order; its invariants hold for any number of
workers, users, sockets and steps.

| files | what they model |
|---|---|
| `Groups`, `GroupService` | users, groups and memberships with their foreign keys; the group and account transactions |
| `Registry`, `WebSocketManager` | one worker's three routing maps and the handlers that change them |
| `Cluster`, `ClusterStructure`, `ClusterRouting`, `ClusterRoutingRuns`, `ClusterOverlap` | all workers: registrations, pushes and deletions in flight; routing against the memberships table |
| `ClusterPresence`, `ClusterPresenceRuns` | the presence counters in Redis |
| `ClusterFanOut` | sending group messages while sockets come and go |
| `ClusterWitnesses` | runs that end where the documentation says the cluster never is |
| `History`, `Paging`, `Messaging` | message queries, paging by timestamp, who may write and read |
| `Tokens`, `AuthService`, `TokenCache` | token rows and transactions, the worker's cache and the authentication path |
| `Rotation`, `RotationRevocation`, `RotationWitnesses` | refresh rotation statement by statement, under row locks and read committed isolation |
| `Sessions` | token families over whole transactions |
| `AuthCluster`, `AuthCoherence`, `AuthStaleness`, `AuthWitnesses` | transactions, events, fills and cache hits on all workers |
| `EventStream`, `StreamListener`, `StreamWitnesses` | the trimmed stream and its listener's cursor |

## What the proofs say about the code

Where the code does not do what the repository's documentation says, the model follows
the code, a run shows the difference, and a lemma says exactly when the promise does hold.

- *Connection interleaving* (README.md:216-218) promises that connects and disconnects of
  an account are serialised by a lock. `register_connection` takes no lock
  (src/services/websocket.py:60-83). No join is missed all the same
  (`NoMissedJoins`), but a LEAVE or a deletion that takes effect between a registration's
  database read and its merge is undone by the merge (`RoutedToDeletedGroup`). Stale
  routing of an existing account happens exactly then (`StaleIffLateMerge`). Deleting an
  account pushes nothing, which is the other way to be routed without being a member
  (`AccountDeletionLeavesRouting`, and the run of `RoutedWithoutAccount`).
- *Multi-device presence* (README.md:219-221) promises an accurate count of sessions. The
  counter goes up with every socket and down only with a worker's last one for the user,
  so a user can stay listed with no socket open (`ClosedButListed`). HINCRBY and HDEL are
  two commands, and a reconnect between them leaves a registered user unlisted
  (`RegisteredButNotListed`). The law that does hold is `PresenceConservation`. With
  nothing in flight, the count is accurate if and only if the closes that left another
  socket of the user on its worker are as many as what HDEL threw away (`AccurateIff`);
  when no removal is ever interrupted between its two commands, if and only if there was
  no such close (`AccurateIffNoKeptClose`). A user is unlisted if and only if the last
  command on the user's field was an HDEL, or there was none (`UnlistedIffLastRemoves`).
- *Token rotation* (README.md:207-209): the row lock makes redemption unique
  (`RedeemedAtMostOnce`; without FOR UPDATE it is not, `RedeemedTwiceWithoutLock`). On
  reuse, the user's access tokens are revoked by one statement and the refresh tokens by
  another (src/services/auth.py:198-199), and each reaches the rows that are there when it
  starts. A rotation of another token survives if it commits during the second statement
  (`RotationEscapesRevocation`); if it commits between the two, its refresh token is
  revoked and its access token lives (`AccessTokenEscapesRevocation`). In either table a
  row survives exactly if it was inserted between the start of its own table's update and
  the commit (`RevokesWhatWasThere`), and the revocation is complete exactly if in
  neither table such a row is still valid (`RevocationCompleteIff`). With whole
  transactions as steps, only sessions begun afterwards survive
  (`OnlyNewSessionsSurviveReuse`).
- *Cache invalidation*: an authentication that read its row before a revocation and
  stores it after the event was handled leaves an entry nothing evicts
  (`StaleEntryNothingEvicts`). That, an event on its way and an event the listener never
  saw are the only ways to answer for a revoked token (`RevokedTokensAreAnnounced`), and
  with every event handled the first is the only one: the token had been revoked when
  the entry was stored (`StaleAtRestIff`). Such an entry, and the entries of deleted or
  deactivated accounts, for which no event is published (`DeletedAccountAnswered`,
  `DeactivatedAccountAnswered`), stay usable for less than 300 seconds from their store
  (`BoundedStaleness`, `RevokedTokensExpire`).
- *Stream delivery* (src/redis/stream.py:40): the listener asks for `$` until a read has
  returned something, and `$` means the end of the stream at each read, so what is
  appended between two reads before then is lost (`FirstReadDecides`, and the run of
  `LostBeforeFirstId`). From then on nothing is lost if and only if each read comes before
  the next entry is trimmed (`ContiguousIffInTime`; `LostByTrimming` is late), for which at most 10000 entries between successful reads are
  enough (`NothingLostBetweenReads`).
- *Paging* skips messages that share the timestamp of a page's last row
  (`TiedRowIsSkipped`). Whether pages of k enumerate a history can be told from its
  timestamps: they do if and only if, newest first, no multiple of k separates two equal
  ones (`CompleteIffCutsClean`).
- Deleting the account of a group's creator never commits: the ON DELETE SET NULL action
  of one foreign key leaves a NULL that the column forbids (`DeleteUserRowEffect`,
  `DeleteAccountCommitsIff`).

## Assumptions of the runs

- Each push on `ws_pushes` reaches each worker once; pushes about one user and one group,
  and a group's deletion with anything about that group, are handled in commit order.
  Pushes that do not conflict may be handled in any order.
- A chat message is dispatched at most once on each worker.
- Redis commands succeed. The database read of a registration may fail
  (`FetchFails`); a failing or cancelled registration in its Redis command is not modelled.
- Identifiers and tokens are new when they are drawn and are never drawn again; a token
  stands for its hash.
- Workers and the database agree on the time.
- In `AuthCluster` a worker takes the stream in order, from some position on, once; it may
  skip any event. That order is what `EventStream` proves of the listener, and that it
  skips none is exactly what `ContiguousIffInTime` and `FirstReadDecides` decide.

## Model

| member | source | states |
|---|---|---|
| Groups.DeleteUserRowEffect | src/database/sql.py:90-120 | deleting a user's row, with CASCADE on memberships and SET NULL on creators as actions, leaves no NULL creator exactly when the user created no remaining group, and then touches no group |
| Groups.ExecKeepsConsistent | src/database/sql.py:90-120 | every group, membership and account transaction keeps the foreign keys and keeps each group's creator among its members |
| Groups.CreatorAlwaysMember | src/services/group.py:34-178 | after any sequence of create, add, remove, delete-group and delete-account transactions every group's creator exists and is a member |
| Groups.DeleteAccountCommitsIff | src/services/user.py:53-58 | deleting an account commits exactly when it exists and created no remaining group, and then takes the account and its memberships; otherwise nothing changes |
| Groups.CreateGroupCommitsIff | src/services/group.py:33-50 | creating a group commits exactly for an existing user and a new key, with the creator as its one new member; the error otherwise |
| Groups.AddMemberCommitsIff | src/services/group.py:71-99 | adding commits exactly when the actor is the group's creator, the target exists and is no member; each refusal's error, in the source's order, with nothing changed |
| Groups.RemoveMemberCommitsIff | src/services/group.py:101-144 | removing commits exactly for a member who is not the creator, by that member or the creator; each refusal's error, with nothing changed |
| Groups.DeleteGroupCommitsIff | src/services/group.py:156-178 | deleting commits exactly for the group's creator and takes exactly its memberships |
| Groups.MemberIffJoined | src/services/group.py:34-178 | after any history a user is a member exactly if creating the group or its creator made the user one, and since then the user has not left, been removed by the creator or lost the account, and the creator has not deleted the group |
| GroupServices.GroupService.InsertMember | src/database/queries.py:332-343 | the insert succeeds exactly when the pair is new and both keys exist, and fails with the error of the constraint it breaks |
| GroupServices.GroupService.CreateGroup | src/services/group.py:33-50 | group and first membership are written together, or neither; the tables stay consistent |
| GroupServices.GroupService.AddMember | src/services/group.py:71-99 | adds exactly one existing non-member, for the group's creator only; each refusal leaves the tables as they were |
| GroupServices.GroupService.RemoveMember | src/services/group.py:101-144 | the member leaves or the creator removes; the creator never goes |
| GroupServices.GroupService.DeleteGroup | src/services/group.py:156-178 | only by its creator; the memberships cascade |
| GroupServices.GroupService.DeleteUserRow | src/database/sql.py:436-439 | the statement on the rows, where a creator can be NULL until the transaction ends |
| GroupServices.GroupService.DeleteAccount | src/services/user.py:53-58 | runs the statement and rolls all of it back when a NOT NULL creator is NULL |
| Registries.AddSocketEffect | src/services/websocket.py:62 | adding a socket makes exactly that pair live and touches no routing; the three maps stay well formed |
| Registries.MergeGroupsEffect | src/services/websocket.py:80-83 | the merge adds the read groups to routing and index and removes nothing |
| Registries.MergeNeedsTheSocket | src/services/websocket.py:79-80 | nothing is merged for a socket that has gone |
| Registries.RemoveSocketEffect | src/services/websocket.py:88-99 | closing the last socket removes the user from every group and from the index; closing another changes no routing |
| Registries.HandleJoinEffect | src/services/websocket.py:163-166 | a JOIN routes exactly the named user, and only if a local socket exists |
| Registries.HandleLeaveEffect | src/services/websocket.py:168-173 | a LEAVE removes exactly the named pair from routing and index |
| Registries.FinishDeletionEffect | src/services/websocket.py:187-190 | the clean-up unroutes the whole group, but unindexes only the members of the earlier snapshot |
| Registries.NoSocketNoRouting | src/services/websocket.py:93-99 | a user with no live socket is in no group's routing set and not in the index |
| Registries.RecipientIff | src/services/websocket.py:202-211 | a socket is sent a group message exactly if it is a local socket of a routed user other than the sender |
| Registries.FanOutIsScan | src/services/websocket.py:196-211 | with the index agreeing, the sockets found through the group index are those a scan of every local user finds |
| WebSocketManagers.WebSocketManager.RegisterSocket | src/services/websocket.py:60-62 | the first stretch of a registration, on the dictionaries |
| WebSocketManagers.WebSocketManager.MergeUserGroups | src/services/websocket.py:79-83 | the loop over the read groups merges all of them, if the socket is still there |
| WebSocketManagers.WebSocketManager.DiscardMember | src/services/websocket.py:97-99 | a member set loses the user, and its key when that leaves it empty |
| WebSocketManagers.WebSocketManager.UnregisterSocket | src/services/websocket.py:85-99 | the loop over the user's groups leaves none behind; says whether presence is to be decremented |
| WebSocketManagers.WebSocketManager.HandleMembershipChange | src/services/websocket.py:157-173 | a push changes routing and index for one pair, before the frames are sent |
| WebSocketManagers.WebSocketManager.FinishGroupDeletion | src/services/websocket.py:187-190 | the loop over the snapshot unindexes its members, and the group's key goes |
| WebSocketManagers.WebSocketManager.SendFrameToUserSockets | src/services/websocket.py:138-155 | one frame for each of the user's sockets and no other |
| WebSocketManagers.WebSocketManager.DispatchGroupMessage | src/services/websocket.py:196-211 | every socket of every local member but the sender gets one frame, when each socket is one user's and nothing interleaves |
| ClusterStructure.TransactKeepsDb | src/services/group.py:49 | pushes name what committed: a membership row stands exactly when the last push about the pair is a JOIN, deleted accounts aside |
| ClusterStructure.StepKeepsSound | src/services/websocket.py:60-190 | every step keeps the registries well formed, listing exactly the open sockets, with every unrouted index entry owed to a started deletion |
| ClusterRoutingRuns.RunKeepsRouting | src/services/websocket.py:60-190 | the routing invariant of all triples of worker, user and group holds in every state of every run |
| ClusterRoutingRuns.NoMissedJoins | src/services/websocket.py:60-83 | when all pushes about the pair are handled, a member with a completed registration on the worker is routed there |
| ClusterRoutingRuns.StaleExactlyWhenReadded | src/services/websocket.py:66-83 | with all pushes about the pair handled, a routed user is no member if and only if a late re-addition is on record, or the account was deleted |
| ClusterOverlap.StaleIffLateMerge | src/services/websocket.py:168-190 | with all pushes about the pair handled and the account existing, the worker routes a user who is no member if and only if in the run some registration read the group, then the user was taken out with no JOIN after it, then that registration merged, and no JOIN, LEAVE, deletion or last close took effect since |
| ClusterOverlap.ReaddedIsLateMerge | src/services/websocket.py:66-83 | the record of late re-additions is, in every state of every run, exactly that pattern of steps |
| ClusterRoutingRuns.AccountDeletionLeavesRouting | src/services/user.py:53-58 | from any reachable state in which a user is routed, deleting the account leads to one in which the user is gone, no member, still routed, and as settled as before |
| ClusterRoutingRuns.IndexAgreement | src/services/websocket.py:80-83 | at every await point routing implies index, and index implies routing unless the group's deletion has started on the worker |
| ClusterRoutingRuns.CleanTeardown | src/services/websocket.py:85-101 | in every state whoever is routed or indexed has an open socket on the worker, and no key holds an empty set |
| ClusterRoutingRuns.FanOutFindsEveryone | src/services/websocket.py:196-211 | in every run group dispatch finds the sockets a scan would find, unless the group's deletion has started |
| ClusterPresenceRuns.PresenceConservation | src/redis/queries.py:13-23 | counter plus pending increments minus pending decrements equals open sockets plus closes that were not a worker's last, minus what HDEL threw away; a counter that is not positive has a remover between its two commands |
| ClusterPresenceRuns.ListedAtRest | src/redis/queries.py:18-30 | with no registration or removal of the user under way, a listed user has a positive counter |
| ClusterPresenceRuns.UninterruptedPresence | src/services/websocket.py:62-101 | with removal as one command the law holds without the HDEL term, every decrement finds at least one, and a user with a counted socket is listed |
| ClusterPresenceRuns.AccurateIff | src/services/websocket.py:92-101 | in every run, with nothing of the user's in flight, the counter equals the open sockets exactly when the closes that kept other sockets are as many as what HDEL threw away |
| ClusterPresenceRuns.AccurateIffNoKeptClose | src/services/websocket.py:92-101 | in runs whose removals are never interrupted between HINCRBY and HDEL, exactly when no close kept other sockets; there a user is listed exactly when sockets or such closes are left |
| ClusterPresenceRuns.UnlistedIffLastRemoves | src/redis/queries.py:13-30 | in every state of every run a user is unlisted exactly when the last command on the user's field removed it, or there was none |
| ClusterPresence.CloseConserves | src/services/websocket.py:87-101 | a close keeps the law: it owes one decrement if it was the last on its worker, and is counted as kept otherwise |
| ClusterPresence.DecrementConserves | src/redis/queries.py:21-23 | HINCRBY -1 keeps the law and settles one pending decrement |
| ClusterFanOut.NeverTwice | src/services/websocket.py:138-211 | under any interleaving no socket of the cluster gets a group message twice |
| ClusterFanOut.NobodySkipped | src/services/websocket.py:196-211 | a socket that is open at the dispatch and stays open has got the message or has its user's send task pending |
| ClusterFanOut.ExactlyOnce | src/services/websocket.py:196-211 | after every send task of the dispatch, each socket of a routed user that stayed open has exactly one frame |
| ClusterFanOut.OnlyToRouted | src/services/websocket.py:202-211 | every frame goes back to a dispatch at which its user was routed and not the sender |
| ClusterRouting.DeletionWaits | src/services/websocket.py:177-185 | a deletion with local members changes no routing before its frames are sent, and remembers the members of the moment it started |
| ClusterWitnesses.ClosedButListed | README.md:219-221 | a reachable state at rest: a user with no open socket who is listed |
| ClusterWitnesses.RegisteredButNotListed | src/redis/queries.py:21-23 | a reachable state at rest: a registered user who is not listed |
| ClusterWitnesses.RoutedToDeletedGroup | README.md:216-218 | a reachable state with every push handled in which a worker routes a group that is gone |
| ClusterWitnesses.RoutedWithoutAccount | src/services/user.py:53-58 | a reachable state with every push handled in which a worker routes a group to a deleted account |
| ClusterWitnesses.MessageArrives | src/services/websocket.py:138-211 | a run in which a member's message reaches another member's socket |
| ClusterWitnesses.GroupIsCleanedUp | src/services/websocket.py:177-190 | a run in which a deletion, in its two stretches, ends a member's routing and index entry |
| History.LatestTimestamps | src/database/sql.py:330-336 | all answers to one ORDER BY ... LIMIT query list the same timestamps, however ties fall |
| History.LatestUnique | src/database/sql.py:330-336 | with distinct timestamps there is one answer |
| History.LatestIsLatest | src/database/sql.py:330-336 | sorting and cutting gives an answer: a descending sub-bag of min(k, n) rows with no later row left out |
| History.PushDown | src/database/sql.py:315-329 | cutting two bags to k before merging them leaves an answer of their union |
| History.BothWaysCount | src/database/sql.py:315-329 | the two-way filter selects exactly the stored direct messages between the two users, in either direction, below the cutoff |
| History.TimelineCount | src/database/sql.py:330-336 | the timeline's filter selects exactly the group's stored messages below the cutoff |
| History.ConversationIsLatest | src/database/sql.py:315-329 | between two different users the pushed-down union returns the latest k of the two-way filter |
| History.SelfConversationRepeats | src/database/sql.py:315-329 | for a user with themselves the union would repeat rows, so the condition is needed |
| Paging.WalkEnds | src/services/messaging.py:83-97 | following the last row's timestamp ends: there are no more pages than rows |
| Paging.WalkExists | src/api/routers/messaging.py:49-50 | with a limit of at least one a client can always go on to an empty page |
| Paging.PagesDescend | src/database/sql.py:330-336 | the pages one after the other are in descending order, below the first cutoff |
| Paging.PagesDisjoint | src/database/sql.py:330-336 | a later page's rows are strictly older than an earlier page's |
| Paging.PagesAreHistory | src/services/messaging.py:137-150 | the pages hold rows of the history, none too often, and are all of it if and only if no page ends inside a group of equal timestamps |
| Paging.CompleteIffCutsClean | src/database/sql.py:330-336 | every walk with limit k returns the whole history if and only if, in the stored timestamps newest first, no multiple of k separates two equal ones |
| Paging.DistinctTimesLoseNothing | src/services/messaging.py:137-150 | with distinct timestamps the pages concatenate to the sorted history, for every page size |
| Paging.TiedRowIsSkipped | src/database/sql.py:330-336 | two rows with one timestamp and pages of one: a walk that splits the tie and never returns the second row |
| Messaging.MessagingService.SendFriendRequest | src/services/user.py:62-73 | succeeds exactly for two different existing users with no request in that direction; keeps rows free of self-friendships |
| Messaging.MessagingService.AcceptFriendRequest | src/services/user.py:75-80 | accepts exactly an existing request in that direction |
| Messaging.MessagingService.RemoveFriendship | src/services/user.py:82-87 | removes both directions; fails exactly when there is neither |
| Messaging.MessagingService.GetFriendshipStatus | src/database/queries.py:129-141 | finds a row in one of the directions if there is any; with both it may be either |
| Messaging.MessagingService.SendDirectMessage | src/services/messaging.py:38-66 | stores a message only between friends, and always between those all of whose rows are accepted; keeps sender and recipient different |
| Messaging.MessagingService.GetDmHistory | src/services/messaging.py:74-97 | returns stored direct messages between exactly these two users before the cutoff, in order, none too often; what it leaves out is no later than anything in it, and it leaves out nothing below the limit. That the two differ follows from the stored friendships |
| Messaging.MessagingService.SendGroupMessage | src/services/messaging.py:105-129 | stores the message exactly for members |
| Messaging.MessagingService.GetGroupHistory | src/services/messaging.py:137-150 | for members exactly, returns stored messages of exactly this group before the cutoff, in order, leaving out only what is no later than the page, and nothing below the limit |
| AuthServices.AuthService.IssueTokenPair | src/services/auth.py:248-267 | two valid rows for the user, the access token with the access expiry and the refresh token with the refresh expiry |
| AuthServices.AuthService.Register | src/services/auth.py:126-138 | active account and both rows together, each with its own expiry, or neither; publishes nothing |
| AuthServices.AuthService.Login | src/services/auth.py:140-179 | reactivates, issues both rows, each with its own expiry, and announces the user exactly when reactivated or rehashed; a wrong password, or a hash changed before its replacement, rolls everything back |
| AuthServices.AuthService.RevokeAllUserTokens | src/database/sql.py:394-403 | revokes exactly the user's rows in both tables |
| AuthServices.AuthService.Refresh | src/services/auth.py:181-216 | succeeds exactly with a present, unrevoked, unexpired row, and then revokes it and adds the pair; present and revoked, even if expired, revokes all of the user's tokens and only those, and then raises; expired and absent change nothing |
| AuthServices.AuthService.Logout | src/services/auth.py:218-246 | revokes exactly the tokens named, then evicts, then publishes both in order, and every token published is dead; on a missing token leaves tables, cache and stream alone |
| Tokens.DeleteUserTakesItsTokens | src/database/sql.py:62-85 | deleting an account takes exactly its tokens and leaves the others as they are |
| TokenCaches.TokenCache.Get | src/services/auth.py:51-53 | returns an entry until it expires |
| TokenCaches.TokenCache.Set | src/services/auth.py:55-57 | stores with 300 seconds to live, within the size bound, changing no other entry that stays |
| TokenCaches.TokenCache.EvictUser | src/services/auth.py:63-70 | the loop removes exactly the user's unexpired entries |
| TokenCaches.TokenCache.HandleInvalidationEvent | src/services/auth.py:72-82 | a token's event removes its entry, a user's event the user's |
| TokenCaches.TokenCache.LookUp | src/api/dependencies.py:81-90 | up to the first read: a fresh entry answers or refuses, by the deactivated flag it was stored with |
| TokenCaches.TokenCache.AcceptRow | src/api/dependencies.py:95-109 | after the first read: goes on exactly with an unrevoked, unexpired row |
| TokenCaches.TokenCache.AcceptUser | src/api/dependencies.py:111-129 | after the second read: stores and returns exactly an allowed user |
| TokenCaches.TokenCache.Authenticate | src/api/dependencies.py:72-129 | the three in sequence: a fresh entry decides alone; otherwise the rows decide, and only a success is stored |
| Rotation.RedeemedAtMostOnce | src/services/auth.py:190-207 | with the row locked by its read, a refresh token is redeemed at most once in any interleaving of transactions |
| Rotation.DecideOutcome | src/services/auth.py:196-207 | the row read decides: revoked is a reuse, expired ends, anything else rotates for its user; no row changes before a commit |
| Rotation.CommitOutcome | src/services/auth.py:205-206 | a rotation's commit revokes its token and inserts both tokens of the pair, each with its own expiry |
| Rotation.RotationWasDecided | src/services/auth.py:190-207 | in every run a rotation under way was decided on its token's current row, unrevoked, before the row's expiry |
| Rotation.StepKeepsInv | src/database/queries.py:47-51 | what a transaction read under the lock stays true until it commits |
| RotationWitnesses.RedeemedTwiceWithoutLock | src/database/queries.py:198-206 | without FOR UPDATE two transactions can redeem one token |
| RotationRevocation.RevokesWhatWasThere | src/database/sql.py:394-403 | in any run and for either table, a row of the user is valid after the commit of a revocation of all tokens exactly when it was valid before and was inserted by a commit after its own table's update had started |
| RotationRevocation.RevocationCompleteIff | src/services/auth.py:196-200 | the revocation leaves the user no valid token of either kind exactly when, in each table, every row inserted since the start of its update had been revoked before the commit |
| RotationWitnesses.RotationEscapesRevocation | src/services/auth.py:196-207 | a reachable state in which both tokens of a rotation of the revoked family are valid after the reuse committed |
| RotationWitnesses.AccessTokenEscapesRevocation | src/services/auth.py:198-199 | a reachable state in which the reuse committed, no refresh token of the user is valid, and an access token of the revoked family is |
| Sessions.RunKeepsInv | src/services/auth.py:181-267 | in every run each valid token of a user whose reuse was detected has a chain of refreshes back to a later session |
| Sessions.OnlyNewSessionsSurviveReuse | src/services/auth.py:196-212 | after a detected reuse every token of the user that is valid later descends from a register or login that committed after it |
| Sessions.RotatedBeforeExpiry | src/services/auth.py:201-206 | every token issued by a refresh was issued for an unrevoked refresh token, before the refresh expiry of the pair in which that one had been issued |
| AuthCluster.EvictedIsInvalidate | src/services/auth.py:72-82 | the cluster's handling of an event is the cache object's |
| AuthCluster.FlagTxTouchesOneFlag | src/services/user.py:40-51 | deactivating and reactivating set one account's flag and touch no token |
| AuthCoherence.TxKeepsExpiry | src/services/auth.py:248-267 | every token row in every state has its own expiry from the pair the token was issued in |
| AuthCoherence.TxAnnounces | src/services/auth.py:190-244 | whatever access token a transaction revokes, it owes an event that evicts it |
| AuthCoherence.TxNamesTheDead | src/services/auth.py:201-244 | a revocation event names a token dead in the committed database |
| AuthCoherence.StepKeepsInv | src/api/dependencies.py:92-129 | every step keeps tables, events, fills and entries coherent |
| AuthCoherence.RevokedTokensAreAnnounced | src/api/dependencies.py:92-129 | a worker answers from its cache for a revoked token only if an evicting event is still to be published or handled, was handled between the entry's read and its store, or was skipped by the worker's listener since |
| AuthCoherence.RevokedSinceStore | src/services/auth.py:63-82 | when a token is revoked after its entry was stored, an evicting event is still to be published or handled, or was skipped |
| AuthCoherence.NoPhantomRevocations | README.md:213-215 | every revocation event on the stream names an issued token that is revoked or gone, in every later state |
| AuthStaleness.BoundedStaleness | src/api/dependencies.py:81-129 | every answered request rests on a transaction of the run that issued the token, a read of its row, unrevoked and before the access expiry of the pair it was issued in, then a read of its user, then a store less than 300 seconds ago |
| AuthStaleness.RevokedTokensExpire | src/services/auth.py:41-45 | no request succeeds 300 seconds after its token was revoked or deleted, plus the length of one authentication |
| AuthStaleness.StaleAtRestIff | src/api/dependencies.py:92-129 | with every event published and handled, a usable entry is of a revoked token if and only if the token had been revoked when the entry was stored, though not when its row was read |
| AuthWitnesses.StaleEntryNothingEvicts | src/api/dependencies.py:127-129 | a reachable state: every event handled, and a worker answers for a revoked token |
| AuthWitnesses.DeletedAccountAnswered | src/services/user.py:53-58 | a reachable state: 299 seconds after an account was deleted, with no event to come, a worker answers for its token |
| AuthWitnesses.DeactivatedAccountAnswered | src/services/user.py:40-44 | the same for a deactivated account and a request that does not allow one |
| EventStream.TakenInOrder | src/redis/stream.py:45-71 | across failing reads and any trimming, entries are taken in order and none twice |
| EventStream.ContiguousIffInTime | src/redis/stream.py:45-71 | with an id for a cursor, the entries taken are one contiguous segment, and none is skipped, if and only if no read finds the entry after the cursor trimmed |
| EventStream.NothingLostBetweenReads | src/redis/stream.py:18-32 | at most 10000 entries between successful reads are enough for that |
| EventStream.FirstReadDecides | src/redis/stream.py:40-45 | a new listener's first entries come from the first read during which one arrives, which leaves the cursor at the end of the log; what was appended before that read, or trimmed before it was served, is lost, and nothing else |
| StreamWitnesses.LostBeforeFirstId | src/redis/stream.py:40-45 | a run of a new listener that goes on from the second entry and never takes the first |
| StreamWitnesses.LostByTrimming | src/redis/stream.py:18-32 | a run in which 10001 entries between two reads make the listener skip one |
| EventStream.TurnHandsOver | src/redis/stream.py:50-71 | each turn hands the handler the readable events of exactly the entries it moves past |
| EventStream.ReadableOfPicks | src/redis/stream.py:50-65 | what a stretch of the log gives the handler are the events of all its readable entries, each once, in order, and nothing else |
| EventStream.HandledIsSegment | src/redis/stream.py:41-71 | after any run with timely reads, what was handed over are the events of all readable entries of one segment of the log, up to the cursor |
| EventStream.TimelyListenerMissesNothing | src/redis/stream.py:35-71 | an event published in that segment has been handed over |
| StreamListeners.StreamListener.PublishStreamEvent | src/redis/stream.py:20-32 | appends the event, and trimming leaves the last 10000 entries |
| StreamListeners.StreamListener.ListenToStream | src/redis/stream.py:35-81 | the loop over any sequence of failing and successful reads: the handler has got the events of all readable entries taken, in order and once, and with timely reads those are one segment of the log |
| StreamListeners.StreamListener.HandleMessages | src/redis/stream.py:50-71 | the inner loop takes every returned entry, and the cursor ends at the last |

## Left out

- Redis commands that fail or are cancelled during a registration or a removal, dropped Pub/Sub messages, reconnects of the Pub/Sub listener: the runs assume they do not happen.
- Timeouts and retries (asyncio.timeout, tenacity): only a registration's failing read is a step of its own.
- A frame that cannot be sent: `_safe_send` swallows the error, and the frame counts as sent.
- The per-user lock object and its weak references: one mutex for each user and worker, held by a removal until its Redis commands are done.
- invalidate_deleted_group_cache deletes Redis keys nothing reads; the deletion push follows it at once in the model.
- Direct messages' fan-out and push_to_user: one user's sockets, as for a membership frame.
- Users are their identifiers: usernames and password hashing are not modelled, and a name that is taken is an identifier that is taken.
- Locks on access rows: another transaction's update or deletion of an access row may run while a revocation holds it, where PostgreSQL makes it wait; once both have ended the rows are the same.
- The choice of the entry that cachetools drops when the cache is full: any may go.
- The purge of expired tokens, which nothing calls.
- TokenCaches.TokenCache.Authenticate: nothing runs between its two reads; its three stretches are methods of their own, and their interleaving with other tasks is in `AuthCluster`.
- Direct messages disappear with their users, group messages with their groups: message tables are fixed during a walk over pages, and so is the table a page is read from.
- Trimming of the stream is Redis's own choice within the bound it keeps; the upper bound of an approximate MAXLEN is not stated.
- Friendship lists, profile lookups, group listings, request validation, configuration and start-up: nothing hard to state.
