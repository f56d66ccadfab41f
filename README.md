# Florist order dashboard: order lifecycle model

A Dafny model of the logic of a single-page order dashboard for a florist. Staff see
a list of orders held in memory, add orders through a form, and move each order
along a fixed pipeline: pending, then preparing, then delivered.

The model has five modules, one per source file plus two small helpers:

- `OrderCard`: the `Order` record, its three-valued `Status`, the successor function
  `NextStatus` (`getNextStatus`), and the card's advance button as `AdvanceAction`.
  An order total is `Amount`, a whole number of cents or `NotANumber`.
- `IdFormat`: how an order id is minted. `Decimal` is JavaScript's integer
  `toString`, `PadStart` is `padStart` with a one-character filler, and
  `Pad3(n)` is `Decimal(n)` padded with `'0'` to width 3. `Value` reads digits back,
  which gives the round trip and the injectivity of ids.
- `Index`: the page. It holds the seed list, the pure list builders `Added`
  (`[...orders, {...}]`) and `Updated` (`orders.map(...)`), the status views
  `FilterByStatus`, the counters `Count`, and the class `OrderStore`. Its methods
  `Add` and `ChangeStatus` replace the `orders` field in one step, as `setOrders`
  does. `SubmitNewOrder` connects the dialog's `onAddOrder` to `Add`.
- `NewOrderDialog`: the form fields `FormData`, the required-field guard, and the
  class `Dialog` with its `open` and `form` state and the `Submit` method.
- `Wrappers`: `Option`.

Two facts are kept apart on purpose. The store accepts any status for a matching
order, including a backward step (`UpdatedAcceptsAnyStatus`,
`StoreAllowsBackwardStep`). Only the card's offer, `AdvanceAction`, moves an order
forward, one stage at a time (`AdvanceMovesOneStageForward`).

Three facts about the code that shape the model:

- The store does not enforce forward-only transitions; only `AdvanceAction` does.
- Submission rejects only an empty total. Any other text goes through `parseTotal`
  (the model of `parseFloat`), which may yield `NotANumber`, and that value is stored.
- Ids are never checked. They are unique because every reachable list has the ids
  `Pad3(1..n)` in order: the seed does, and adding or changing a status keeps it so
  (`SeedSequential`, `AddedSequential`, `UpdatedSequential`, `SequentialIdsUnique`).
  That condition is sufficient, not necessary.

## Model

| member | source | states |
|---|---|---|
| OrderCard.StatusValues | src/components/OrderCard.tsx:13 | every status is pending, preparing or delivered, and these three are distinct |
| OrderCard.NextStatus | src/components/OrderCard.tsx:38-42 | a next status exists exactly when the status is not delivered, and it is one pipeline stage later |
| OrderCard.NextStatusIsRankSuccessor | src/components/OrderCard.tsx:38-42 | NextStatus(s) is t if and only if t is exactly one pipeline stage after s |
| OrderCard.NextStatusTable | src/components/OrderCard.tsx:38-42 | pending goes to preparing, preparing goes to delivered, delivered has no next status |
| OrderCard.NoSelfSuccessor | src/components/OrderCard.tsx:38-42 | no status is its own successor |
| OrderCard.Pipeline | src/components/OrderCard.tsx:38-42 | applying NextStatus repeatedly from any status reaches delivered after at most two steps, each step being NextStatus, and stops there |
| OrderCard.AdvanceAction | src/components/OrderCard.tsx:89-97 | the advance button is offered if and only if the status is not delivered; it calls back with the card's own id and NextStatus of its status, one stage later |
| IdFormat.Decimal | src/pages/Index.tsx:43 | toString of a count is a non-empty string of decimal digits with no leading zero for positive counts |
| IdFormat.DecimalValue | src/pages/Index.tsx:43 | reading the decimal text of n back gives n |
| IdFormat.DecimalLength | src/pages/Index.tsx:43 | the decimal text of n fits in k characters exactly when n is below 10^k |
| IdFormat.PadStart | src/pages/Index.tsx:43 | padStart gives width max(width, length), keeps the text as its suffix, and fills only the prefix with the filler |
| IdFormat.Pad3 | src/pages/Index.tsx:43 | the id of count n is at least three characters: the decimal of n with only '0's in front of it |
| IdFormat.Pad3Width | src/pages/Index.tsx:43 | ids for counts up to 999 are exactly three characters long |
| IdFormat.Pad3NoTruncation | src/pages/Index.tsx:43 | from 1000 on the id is the plain decimal, at least four characters long, nothing cut |
| IdFormat.Pad3Value | src/pages/Index.tsx:43 | an id consists of digits and reads back as the count it was made from |
| IdFormat.Pad3Injective | src/pages/Index.tsx:43 | two counts give the same id only if they are equal |
| IdFormat.Pad3Examples | src/pages/Index.tsx:43 | counts 1, 2, 3, 42 and 1000 give "001", "002", "003", "042" and "1000" |
| Index.Seed | src/pages/Index.tsx:9-40 | the page starts with three orders, pending, preparing and delivered, with totals 150.00, 220.00 and 180.00 |
| Index.SeedSequential | src/pages/Index.tsx:9-40 | the seed's ids are Pad3(1), Pad3(2), Pad3(3) in order |
| Index.Added | src/pages/Index.tsx:42-45 | adding grows the list by exactly one, keeps every earlier order in its place, and appends a pending order with id Pad3(old length + 1) and the draft's other fields |
| Index.AddedSequential | src/pages/Index.tsx:43-44 | if the ids are Pad3(1..n) in order, after an add they are Pad3(1..n+1) |
| Index.SequentialIdsUnique | src/pages/Index.tsx:43-44 | sequential ids are pairwise different |
| Index.AddedCounts | src/pages/Index.tsx:42-45 | an add raises the total and pending counters by one and leaves the other two counters unchanged |
| Index.Updated | src/pages/Index.tsx:47-51 | a status change keeps length and order; each order with the given id gets the new status and keeps its other fields; every other order is unchanged |
| Index.UpdatedUnknownId | src/pages/Index.tsx:47-51 | a status change for an id not in the list leaves the list identical |
| Index.UpdatedSequential | src/pages/Index.tsx:47-51 | a status change keeps the ids sequential |
| Index.UpdatedAcceptsAnyStatus | src/pages/Index.tsx:47-51 | the store installs any of the three statuses on a matching order whatever its current status |
| Index.StoreAllowsBackwardStep | src/pages/Index.tsx:47-51 | the store moves the delivered seed order back to pending, a backward step |
| Index.AdvanceMovesOneStageForward | src/components/OrderCard.tsx:91 | with unique ids, pressing an order's advance button moves that order exactly one stage forward and leaves every other order unchanged |
| Index.FilterByStatus | src/pages/Index.tsx:53-55 | each status view holds only orders of that status, drawn from the list, and is no longer than the list |
| Index.FilterIsStatusSubsequence | src/pages/Index.tsx:53-55 | a status view is an order-preserving subsequence of the list that holds every order of that status as often as the list does, and no other order |
| Index.FilterAppend | src/pages/Index.tsx:53-55 | the view of a list with one order appended is the old view, followed by that order if it has the status |
| Index.FilterPartition | src/pages/Index.tsx:53-55 | the sizes of the three status views sum to the length of the list |
| Index.Count | src/pages/Index.tsx:73-91 | the total counter is the list length and equals the sum of the three status counters |
| Index.SeedScenario | src/pages/Index.tsx:9-40 | the seed shows counters 3, 1, 1, 1; advancing order "001" gives 3, 0, 2, 1 |
| Index.NewOrderScenario | src/components/NewOrderDialog.tsx:26-54 | a filled form with an empty address appends pending order "004" with that address empty and the parsed total; the same form with no customer name is rejected |
| Index.OrderStore.constructor | src/pages/Index.tsx:9-40 | the store starts with the seed list, whose ids are sequential |
| Index.OrderStore.Add | src/pages/Index.tsx:42-45 | the orders field becomes Added of the old list; sequential ids stay sequential and unique |
| Index.OrderStore.ChangeStatus | src/pages/Index.tsx:47-51 | the orders field becomes Updated of the old list; sequential ids stay sequential |
| Index.OrderStore.Counts | src/pages/Index.tsx:73-91 | the counters for the current list total its length and the status counters sum to it |
| Index.SubmitNewOrder | src/pages/Index.tsx:99 | a submission that passes the guard appends its draft to the store, clears the form and closes the dialog; otherwise the store, the form and the open flag are unchanged and the missing-fields notice is shown |
| NewOrderDialog.RequiredFilled | src/components/NewOrderDialog.tsx:29 | the guard passes exactly when none of customer name, phone, delivery date, arrangement and total is the empty string |
| NewOrderDialog.SubmittedDraft | src/components/NewOrderDialog.tsx:29-41 | nothing is sent exactly when customer name, phone, delivery date, arrangement or total is empty; otherwise the text fields are sent as entered, with the parsed total |
| NewOrderDialog.AddressOptional | src/components/NewOrderDialog.tsx:29 | the delivery address never decides whether submission goes through |
| NewOrderDialog.Dialog.constructor | src/components/NewOrderDialog.tsx:16-24 | the dialog starts closed with every field empty |
| NewOrderDialog.Dialog.Submit | src/components/NewOrderDialog.tsx:26-54 | a rejected submission reports missing fields and leaves the form and open flag as they were; an accepted one sends the draft, clears every field and closes the dialog |

## Left out

- Rendering, styling, icons, tabs, cards, badges and the dialog chrome, including the display-only `StatsCard` component. They hold no logic.
- Toast notifications are calls into a foreign library. The model only returns which notice is shown (`Notice`).
- `parseFloat` is floating-point parsing. It is the `parseTotal` parameter, and totals are whole cents or `NotANumber`. `toFixed(2)` display formatting is left out.
- React state scheduling and re-rendering. Each handler is one atomic replacement of its state cell.
- The per-field `onChange` edits of the form and the dialog's `onOpenChange` trigger. They are input-widget glue that copies one typed value into `formData` or `open`. No member of `Dialog` opens it or edits `form`: a caller stands in for them by assigning the public fields `open` and `form` directly, so `Submit`'s "open is unchanged" after a rejection matters when the dialog was opened that way. The total input is a number input (src/components/NewOrderDialog.tsx:123-129), for which the browser reports non-numeric text as the empty string, so the guard rejects it; `NotANumber` arises only when non-numeric text gets past that widget.
