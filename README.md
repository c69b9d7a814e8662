# Optimistic member toggle of the card member selector

This project models the one piece of logic in the card `MemberSelector`
component of the web app: the optimistic toggle of a workspace member on a
task card.

- **The updater.** `onMutate` passes it to the card-detail cache. If the
  member's public id is already on the card, it removes every member with
  that id. Otherwise it appends the first workspace-roster member with that
  id, or changes nothing if the roster has none. Only the card's `members`
  field is replaced.
- **The snapshot/rollback protocol.** The cache maps a card public id to a
  card. `onMutate` saves the cached card as a snapshot and writes the toggled
  card only when a card is cached. `onError` writes the snapshot back when
  there is one and builds the error popup. `onSettled` asks for the card to
  be fetched again.

Modules:

- `Wrappers`: `Option`, standing for a TypeScript value that may be `undefined`.
- `Cards`: the card record, from its members down to the workspace roster.
- `MemberToggle`: the pure updater (`some`, `filter`, `find`, the
  `{ ...old, members }` spread) as functions, with lemmas about them.
- `OptimisticCache`: the cache as a class `CardCache` with a `map` field.
  Its methods are `GetData`, `SetData` (a value written under one key),
  `SetDataWithToggle` (the updater form of `setData`), `OnMutate`,
  `OnError` and `OnSettled`. `ToggleMembership` runs them in order for one
  mutation. Two specification functions, `AfterMutate` and `AfterError`,
  give the cache contents each step leaves behind.

The remote call is a parameter of `ToggleMembership`: `None` means
success, `Some(error)` means failure. The popup strings are the English
source text of the translated messages.

In apps/web/src/views/card/components/MemberSelector.tsx, the snapshot
`onMutate` returns is the whole cached card (line 39).
`onSettled` refetches using the component's `cardPublicId` prop (line 87),
not the mutation's variables. `OnSettled` takes its own id, and
`ToggleMembership` passes the same id because `handleSelect` (line 111)
does.

## Model

| member | source | states |
|---|---|---|
| `MemberToggle.HasMember` | apps/web/src/views/card/components/MemberSelector.tsx:45-47 | true exactly when some member in the list has the given public id |
| `MemberToggle.RemoveAll` | apps/web/src/views/card/components/MemberSelector.tsx:52-54 | no member with the id is left, and every member left comes from the input |
| `MemberToggle.FindMember` | apps/web/src/views/card/components/MemberSelector.tsx:57-59 | finds nothing exactly when no roster member has the id; otherwise returns the roster member at the first position holding the id |
| `MemberToggle.Toggle` | apps/web/src/views/card/components/MemberSelector.tsx:45-68 | only `members` changes, so the roster stays the same; afterwards the id is on the card exactly when it was not before and the roster has it; removal leaves no member with the id; an addition appends the first roster match at the end; an id on neither list leaves the card unchanged |
| `MemberToggle.Updater` | apps/web/src/views/card/components/MemberSelector.tsx:42-43 | an absent cache entry stays absent; a present one becomes `Some` of its `Toggle`, so every property of `Toggle` applies |
| `MemberToggle.RemoveAllKeepsOthersInOrder` | apps/web/src/views/card/components/MemberSelector.tsx:49-54 | the result is read off the input at increasing positions, and those positions include every member whose id differs: the order is kept and nothing else is dropped |
| `MemberToggle.RemoveAllCounts` | apps/web/src/views/card/components/MemberSelector.tsx:52-54 | every member whose id differs occurs in the result as often as in the input |
| `MemberToggle.RemoveAllAbsent` | apps/web/src/views/card/components/MemberSelector.tsx:52-54 | filtering a list that does not hold the id returns the list unchanged |
| `MemberToggle.RemoveAllAppend` | apps/web/src/views/card/components/MemberSelector.tsx:52-54 | filtering a concatenation gives the concatenation of the two filtered parts |
| `MemberToggle.RemoveAllShrinks` | apps/web/src/views/card/components/MemberSelector.tsx:51-54 | filtering never makes the list longer, and it makes the list strictly shorter when the id is on it |
| `MemberToggle.ToggleRemovesInOrder` | apps/web/src/views/card/components/MemberSelector.tsx:45-54 | toggling an assigned id leaves no member with that id, makes the list shorter, keeps the other members in order and keeps each one's number of occurrences |
| `MemberToggle.ToggleTwiceRestores` | apps/web/src/views/card/components/MemberSelector.tsx:45-68 | toggling an unassigned id twice gives back exactly the original card |
| `MemberToggle.FirstWithIdUnique` | apps/web/src/views/card/components/MemberSelector.tsx:57-59 | only one position can be the first that holds a given id |
| `OptimisticCache.FailureNotification` | apps/web/src/views/card/components/MemberSelector.tsx:78-84 | the header is always the fixed text and the icon is `error`; the message is the error's message when that is non-empty and the fixed fallback otherwise, so it is never empty |
| `OptimisticCache.AfterMutate` | apps/web/src/views/card/components/MemberSelector.tsx:39-43 | the optimistic write keeps the same keys and changes no entry except the toggled card; with no cached card the cache is unchanged |
| `OptimisticCache.AfterError` | apps/web/src/views/card/components/MemberSelector.tsx:74-77 | a present snapshot is written back under the card's key; no other key changes; with no snapshot the cache is unchanged |
| `OptimisticCache.RollbackRestores` | apps/web/src/views/card/components/MemberSelector.tsx:39-77 | rolling back with the snapshot `onMutate` took gives back exactly the cache from before the mutation |
| `OptimisticCache.MutateKeepsKeyedById` | apps/web/src/views/card/components/MemberSelector.tsx:42-68 | if every entry is stored under its own card's id before the optimistic write, that still holds after it |
| `OptimisticCache.CardCache.GetData` | apps/web/src/views/card/components/MemberSelector.tsx:39 | returns the cached card for the key, or nothing exactly when the key is absent |
| `OptimisticCache.CardCache.SetData` | apps/web/src/views/card/components/MemberSelector.tsx:76 | overwrites exactly the one entry and changes nothing else |
| `OptimisticCache.CardCache.SetDataWithToggle` | apps/web/src/views/card/components/MemberSelector.tsx:42-69 | the cache becomes `AfterMutate` of the old cache: when the updater returns nothing, nothing is written |
| `OptimisticCache.CardCache.OnMutate` | apps/web/src/views/card/components/MemberSelector.tsx:37-73 | the returned snapshot is the card cached before the call, or nothing; the cache becomes `AfterMutate` of the old cache |
| `OptimisticCache.CardCache.OnError` | apps/web/src/views/card/components/MemberSelector.tsx:74-85 | the cache becomes `AfterError` of the old cache, and the return value is the failure popup for the error |
| `OptimisticCache.CardCache.OnSettled` | apps/web/src/views/card/components/MemberSelector.tsx:86-88 | the card is marked for refetching, and the cached entries stay the same |
| `OptimisticCache.CardCache.ToggleMembership` | apps/web/src/views/card/components/MemberSelector.tsx:36-89 | on success the cache holds the optimistic write and no popup is shown; on failure the cache equals exactly its value before the toggle, provided nothing else writes the cache between `onMutate` and `onError` (no second toggle, no refetch started after the `cancel` at line 38), and the popup for the error is returned; both outcomes request a refetch; entries stored under their own card's id stay so |

## Left out

- Rendering: the dropdown, the avatars, the loading skeleton and the `selectedMembers` display filter (lines 91-144). These are UI.
- `handleInviteMember`: the navigation to `/members` and the invite modal (lines 93-96). These are navigation and modal services.
- The `cancel` of in-flight card reads (line 38), the RPC transport and `api.useUtils` (lines 32, 36). These are library internals that are not visible here.
- The `setTimeout(..., 0)` deferral of the dispatch (lines 109-114). This is event-loop scheduling.
- Overlapping toggles on one card. Each toggle takes its own snapshot, so the rollback of an earlier toggle can overwrite a later toggle's optimistic write. The model runs one mutation at a time.
- `invalidateCard` is not part of this model. `OnSettled` records only that a refetch was requested for the card id. The refetch and its result are not modelled.
- Translation of the popup texts (`t` macro). The header and the fallback are constant strings.
- `setData` with an updater writes nothing when the updater returns `undefined`. This is how the query cache library behaves; its code is not part of this model.
- Member, card, list, board and workspace records carry only the fields the toggle reads, plus one stand-in field each for the rest of the record.
- ToggleMembership: the exact rollback on failure assumes nothing else writes the cache between `onMutate` and `onError` (no second toggle on the card, no refetch started after the `cancel` at line 38). The model runs one mutation with no interleaved writes, so it does not capture those.
