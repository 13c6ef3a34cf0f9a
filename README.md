# Marketplace view-model hooks

This project models the two React hooks in `hooks/custom.ts` of the
olympe-marketplace front end. They turn blockchain query results into what the
"buy" and "sell" pages show.

- `useCustomListing` joins the collection's valid direct listings and valid
  English auctions into one view `{data, isLoading}`. Its effect returns early
  while either query is loading. Once both have loaded, it stores the
  concatenation (direct listings first), or whichever collection is present.
- `useSalableNFTs` mounts its own `useCustomListing`. It reads the NFTs the
  connected wallet owns. Its effect returns early while the merged view or the
  owned-NFT query is loading. Otherwise it stores, with `isLoading` false, the
  owned NFTs whose `metadata.id` equals no listing's `tokenId`. An absent
  owned-NFT result becomes `[]`.

Each hook's state slot is a field of a class (`CustomHooks.CustomListing`,
`CustomHooks.SalableNfts`). Each effect is a method of that class. The SDK query
results and loading flags are the method's parameters. Each method is specified
by a pure step function (`ListingStep`, `SalableStep`) of the old slot and the
inputs. React may run the effects in any order as the queries resolve, so
`HookProperties.Run` applies any sequence of effect runs. The lemmas state what
the slots hold after every such sequence.

Files:

- `wrappers.dfy`: `Option`, for a query result that may be `undefined`.
- `custom_hooks.dfy`: the data model, the merge, `find`, the salability filter,
  the two step functions and the two hook classes.
- `hook_properties.dfy`: lemmas about the filter (multiplicity, order,
  set difference, idempotence, exact matching), about re-running effects, and
  about arbitrary sequences of effect runs, plus the worked scenarios.

Two behaviours of the code a reader may not expect (`hooks/custom.ts:35-45`):

- When both listing queries have loaded and neither returned data, no branch of
  the effect fires and the slot is left as it was; the view is never emptied
  and settled. From the initial slot the view therefore stays
  `isLoading: true` forever, and so does the salable view.
  `HookProperties.RunListingStuckWithoutData` and
  `HookProperties.RunStuckWithoutListings` prove this.
- The effect only returns early while a query loads, so a settled view stays
  settled, with its old data, when a query starts loading again. See
  `HookProperties.ListingSettledStays` and
  `HookProperties.ScenarioReloadKeepsStaleView`.

`HookProperties.Apply` restates the two effect methods on a value: its
`ListingResolved` case is exactly the `ensures` of
`CustomHooks.SalableNfts.ListingEffect` (the listing slot becomes `ListingStep`
of the old one, the salable slot is unchanged), and its `OwnedResolved` case is
exactly the `ensures` of `CustomHooks.SalableNfts.Effect` (the salable slot
becomes `SalableStep` of the old one and the current listing slot, the listing
slot is unchanged). So `HookProperties.Run` gives the two fields of a
`SalableNfts` object after any sequence of calls to those methods, and the
trace lemmas hold of every such sequence.

## Model

| member | source | states |
|---|---|---|
| `CustomHooks.Merge` | hooks/custom.ts:38-44 | the stored data is absent exactly when both collections are absent; with both present its length is the sum of the two lengths, the direct listings first in their order, then the auctions in theirs; with one present it is that collection; every stored listing comes from one of the two inputs |
| `CustomHooks.ListingStep` | hooks/custom.ts:35-45 | while either query is loading the slot is unchanged; once both have loaded, both present gives `{direct ++ auctions, false}`, one present gives `{that one, false}`, neither leaves the slot unchanged |
| `CustomHooks.CustomListing.constructor` | hooks/custom.ts:33 | the listing slot starts as `{data: [], isLoading: true}` |
| `CustomHooks.CustomListing.Effect` | hooks/custom.ts:35-45 | the effect's early return and three branches leave the slot equal to `ListingStep` of the old slot and the four inputs |
| `CustomHooks.FindByTokenId` | hooks/custom.ts:66 | `find` returns nothing exactly when no listing has the token id; otherwise it returns the first listing whose `tokenId` equals the id |
| `CustomHooks.ListedIdsSpec` | hooks/custom.ts:66 | `find` succeeds for an id exactly when the id is among the listings' token ids |
| `CustomHooks.Salables` | hooks/custom.ts:65-69 | the filter never yields more NFTs than are owned |
| `CustomHooks.SalablesMembership` | hooks/custom.ts:65-69 | an NFT is in the result exactly when it is owned and `find` finds no listing with its id |
| `CustomHooks.SalableStep` | hooks/custom.ts:62-73 | while the merged view or the owned query is loading the slot is unchanged; otherwise it is settled, holding `[]` for an absent owned result and the filtered owned NFTs otherwise |
| `CustomHooks.SalableNfts.constructor` | hooks/custom.ts:50-60 | a fresh inner listing hook and a salable slot both start as `{data: [], isLoading: true}` |
| `CustomHooks.SalableNfts.ListingEffect` | hooks/custom.ts:51 | the inner listing hook's effect updates only the listing slot and keeps a settled salable view backed by a settled listing view |
| `CustomHooks.SalableNfts.Effect` | hooks/custom.ts:62-73 | the effect leaves the salable slot equal to `SalableStep` of the old slot, the merged view and the owned query, and does not touch the listing slot |
| `HookProperties.SalablesMultiplicity` | hooks/custom.ts:65-69 | each owned NFT occurs in the result as often as among the owned NFTs, or not at all when its id is listed |
| `HookProperties.SalablesSubsequence` | hooks/custom.ts:65-69 | the salable NFTs are a subsequence of the owned NFTs, so their order is preserved |
| `HookProperties.SalablesCons` | hooks/custom.ts:65-69 | the first owned NFT is kept in front of the filtered rest exactly when its id is not listed |
| `HookProperties.SalablesAppend` | hooks/custom.ts:65-69 | filtering `a ++ b` gives the filtered `a` followed by the filtered `b` |
| `HookProperties.SalablesIdsAreSetDifference` | hooks/custom.ts:65-69 | the ids of the salable NFTs are the owned ids minus the listed token ids |
| `HookProperties.SalablesNothingListed` | hooks/custom.ts:65-69 | when no owned NFT's id is listed, the result is the owned NFTs unchanged |
| `HookProperties.SalablesIdempotent` | hooks/custom.ts:65-69 | filtering the result again by the same listings changes nothing |
| `HookProperties.ExactTokenIdMatch` | hooks/custom.ts:66 | ids match by exact string equality: a listing for "01" does not hide NFT "1", a listing for "1" does |
| `HookProperties.ListingStepIdempotent` | hooks/custom.ts:35-45 | running the listing effect twice on the same inputs gives the same slot as running it once |
| `HookProperties.SalableStepIdempotent` | hooks/custom.ts:62-73 | running the salability effect twice on the same inputs gives the same slot as running it once |
| `HookProperties.ListingSettledStays` | hooks/custom.ts:36-44 | a settled listing view stays settled under any inputs, and keeps its data while a query is loading |
| `HookProperties.RunListingLastFiring` | hooks/custom.ts:35-45 | after any sequence of listing effect runs the slot is the settled merge of the last inputs that made a branch fire, or the starting slot when none did |
| `HookProperties.RunListingStuckWithoutData` | hooks/custom.ts:38-44 | if both collections are always absent, the listing view stays `{[], true}` forever |
| `HookProperties.RunListingPart` | hooks/custom.ts:51-73 | in any interleaving of the two effects, the listing slot is what the listing effect runs alone produce |
| `HookProperties.RunKeepsConsistent` | hooks/custom.ts:36-72 | in any interleaving, a settled salable view is always backed by a settled listing view |
| `HookProperties.RunStuckWithoutListings` | hooks/custom.ts:63-64 | if both listing collections are always absent, both views stay in their initial loading state whatever the owned query does |
| `HookProperties.ScenarioMergeBoth` | hooks/custom.ts:39 | direct listing "1" and auction "2", both loaded, give the settled view ["1", "2"] |
| `HookProperties.ScenarioSalable` | hooks/custom.ts:65-69 | owned "1", "2", "3" with "2" listed leave "1" then "3" salable |
| `HookProperties.ScenarioReloadKeepsStaleView` | hooks/custom.ts:36-37 | a view settled on ["1"] stays settled on ["1"] when a query starts loading again |

## Left out

- The SDK hooks `useContract`, `useValidDirectListings`, `useValidEnglishAuctions`, `useOwnedNFTs` and `useAddress` are calls into the thirdweb SDK; only their results and loading flags appear, as method parameters.
- `loadingMarketplace` is read but gates nothing, so it has no counterpart.
- React's scheduling, its dependency comparison and the order in which queries resolve are modelled only as arbitrary sequences of effect runs; skipping an effect whose inputs did not change is covered by idempotence.
- A listing carries only its kind and `tokenId`, and an owned NFT only its `metadata.id`; the other fields are never read by these hooks.
- `find` returns a listing object, which is always truthy in the source; the model treats "found" as `Some`.
- Strings are compared as sequences of characters; JavaScript compares UTF-16 code units, which agrees for equality.
- `components/SaleInfo.tsx` (approval checks, listing and auction creation, date handling), `pages/mint.tsx`, `pages/collection.tsx` and `pages/buy.tsx` are contract calls or presentation and are not part of this model.
