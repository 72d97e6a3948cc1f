# Holiday gift budget: the budget store, the gift-list page and the suggestion rules

This project is a Dafny model of the in-browser core of a holiday gift-budgeting
app. It covers three parts:

- **The budget store** (`src/app/services/budget.ts`). It holds the user's first
  name, a total budget and an ordered list of recipients, and each recipient
  holds a list of gifts. Every gift operation rebuilds the matching recipient's
  gift list and recomputes its `spent` as the sum of the gift prices. Three
  values are derived from the state: total spent, budget remaining and
  percentage used.
- **The gift-list page** (`src/app/gift-list/gift-list.ts`). This is the
  add/edit modal and its form. Submitting the form validates it and then sends
  either an update or an addition to the store. The page also derives two
  figures per recipient, and it has a chat panel.
- **The suggestion rules** (`src/app/services/chat.ts`). These are the search
  query built from a recipient, the cut to five suggestions, the fixed
  three-item fallback, and the welcome message.

Layout, one module per file:

- `wrappers.dfy` (`Wrappers`): `Option`, standing for `undefined`-or-value.
- `lists.dfy` (`Lists`): the array methods the store uses (`map` with a
  conditional, `filter`, `find`) as functions over sequences.
- `budget_model.dfy` (`BudgetModel`): the `Gift` and `Recipient` records,
  `Partial<T>` updates and their spread, the price sum, each store update as a
  function from the old recipient list to the new one, the derived values, and
  the lemmas about them.
- `budget_service.dfy` (`BudgetService`): the `Budget` class. Its fields are the
  three signals, and its methods replace them. Each method's `ensures` ties the
  new state to the function above.
- `chat_model.dfy` (`ChatModel`): the suggestion rules.
- `gift_list.dfy` (`GiftListPage`): the `GiftList` class over a `Budget` store,
  plus the pure submit decision (`Submit`) and the derived figures.

Modelling choices:

- Money is `real`.
- A `Partial<Gift>` or `Partial<Recipient>` keeps a required field as
  `Option<T>`, where `None` means the key is absent.
- An optional field becomes a `Slot<T>`: `Keep` for an absent key, `Put(v)` for
  a present one.
- `Put(None)` is a key that holds `undefined`. Spreading it clears the field.
  The page relies on this: saving an edit with an empty store field removes the
  gift's store name.
- The page's `recipient` is a value snapshot. The store never changes a
  recipient object in place (every update builds new objects), so a copy
  behaves like the reference the source keeps.

Behaviour of the code worth knowing:

- A parsed reply is only cut to its first five entries (`slice(0, 5)`). The
  code does not filter candidates, and it does not cap at ten.
- An empty parsed list is returned as an empty suggestion list, not as the
  fallback.
- `generateGiftSuggestions` ignores its `userMessage` argument, so the model has
  no such parameter.
- The store keeps its state only in memory. The Firestore service only injects
  the driver, so no document reads or writes exist to model.

## Model

| member | source | states |
|---|---|---|
| `Lists.MapIf` | src/app/services/budget.ts:57 | The conditional `map`: same length, picked elements rewritten, all others kept in place |
| `Lists.RemoveAll` | src/app/services/budget.ts:62 | The `filter`: nothing dropped survives, everything kept survives, and nothing new appears |
| `Lists.FirstIndex` | src/app/services/budget.ts:105 | The `find`: absent exactly when nothing matches, otherwise the position of the first match |
| `BudgetModel.Patch` | src/app/services/budget.ts:57 | Spreading one optional key: an absent key keeps the field, a present one replaces it, and `undefined` clears it |
| `BudgetModel.MergeGift` | src/app/services/budget.ts:82 | `{...g, ...u}`: each key the update carries wins and every other field is the gift's own, so an empty update changes nothing |
| `BudgetModel.MergeRecipient` | src/app/services/budget.ts:57 | The same for `{...r, ...u}` on a recipient, `spent` and `gifts` included |
| `BudgetModel.Sum` | src/app/services/budget.ts:70 | The left fold of gift prices; with no negative price it is never negative |
| `BudgetModel.TotalOf` | src/app/services/budget.ts:33 | The left fold of the recipients' `spent`; with no negative `spent` it is never negative |
| `BudgetModel.SumAppend` | src/app/services/budget.ts:70 | The price sum of two concatenated gift lists is the sum of their price sums |
| `BudgetModel.SumOfPositivePrices` | src/app/services/budget.ts:70 | With positive prices the sum is non-negative, and positive once there is a gift |
| `BudgetModel.TotalIsSumOfAllGifts` | src/app/services/budget.ts:32-34 | While every recipient's spent matches its gifts, total spent is the sum of the prices of all gifts of all recipients |
| `BudgetModel.TotalShift` | src/app/services/budget.ts:32-34 | If each recipient with a given id has its spent moved by d and the others keep theirs, total spent moves by d once per such recipient |
| `BudgetModel.WithGifts` | src/app/services/budget.ts:69-71 | The rebuilt recipient has exactly the new gifts, its spent equals their price sum, and every other field is unchanged |
| `BudgetModel.UpdatedGifts` | src/app/services/budget.ts:82 | Same length; every gift with the id has the update merged in; every other gift is unchanged |
| `BudgetModel.RemainingGifts` | src/app/services/budget.ts:95 | No gift with the id remains, every other gift is kept, and nothing new appears |
| `BudgetModel.RemainingGiftsAppend` | src/app/services/budget.ts:95 | Deleting from a concatenation is the concatenation of the deletions, so survivors keep their order |
| `BudgetModel.RemainingGiftsAbsent` | src/app/services/budget.ts:95 | Deleting an id no gift has returns the same list |
| `BudgetModel.AddGiftTo` | src/app/services/budget.ts:65-76 | Same length. A recipient with the id gets the old gifts plus g at the end, spent becomes the new price sum, and nothing else changes. Other recipients are untouched |
| `BudgetModel.UpdateGiftIn` | src/app/services/budget.ts:78-89 | Same length. A recipient with the id gets its gifts updated by id and spent recomputed from them. Other recipients are untouched |
| `BudgetModel.DeleteGiftFrom` | src/app/services/budget.ts:91-102 | Same length. A recipient with the id keeps exactly its gifts with other ids and spent is recomputed. Other recipients are untouched |
| `BudgetModel.UpdateRecipientIn` | src/app/services/budget.ts:55-59 | Same length; the update is spread over each recipient with the id; the others are unchanged |
| `BudgetModel.DeleteRecipientFrom` | src/app/services/budget.ts:61-63 | No recipient with the id remains, every other one is kept, and nothing new appears |
| `BudgetModel.DeleteRecipientAbsent` | src/app/services/budget.ts:61-63 | Deleting an id no recipient has returns the same list |
| `BudgetModel.DeleteRecipientAppend` | src/app/services/budget.ts:62 | Deleting recipients keeps the others in their order |
| `BudgetModel.FindRecipient` | src/app/services/budget.ts:104-106 | Returns absent exactly when no recipient has the id, and otherwise the first recipient that has it |
| `BudgetModel.GiftOpsKeepSpentInvariant` | src/app/services/budget.ts:65-102 | Adding, updating and deleting a gift each keep "spent equals the price sum" for every recipient |
| `BudgetModel.GiftOpsOnUnknownRecipient` | src/app/services/budget.ts:65-102 | A gift operation on an id no recipient has leaves the list unchanged |
| `BudgetModel.AddGiftRaisesTotal` | src/app/services/budget.ts:65-76 | Adding a gift raises total spent by its price once per recipient with the id, so by exactly the price when ids are unique |
| `BudgetModel.DeleteNeverRaisesSpent` | src/app/services/budget.ts:95-96 | With non-negative prices, deleting gifts never raises the recomputed spent |
| `BudgetModel.UpdateRecipientKeepsSpent` | src/app/services/budget.ts:55-59 | An update that sets neither spent nor gifts keeps the spent invariant |
| `BudgetModel.UpdateRecipientCanBreakSpent` | src/app/services/budget.ts:55-59 | An update that sets spent breaks the invariant: recipient updates do not guard it |
| `BudgetModel.DeleteRecipientThenFind` | src/app/services/budget.ts:61-63 | After deleting an id, looking it up returns absent |
| `BudgetModel.AddRecipientThenFind` | src/app/services/budget.ts:51-53 | The list grows by one with the new recipient last. Looking up its id finds it, unless an earlier recipient has that id, in which case the earlier one is found |
| `BudgetModel.Remaining` | src/app/services/budget.ts:36-38 | Remaining plus total spent equals the total budget; remaining is non-negative exactly when spending is within budget |
| `BudgetModel.PercentageUsed` | src/app/services/budget.ts:40-44 | Exactly 0 for a zero total budget whatever was spent; otherwise percentage times budget equals spent times 100 |
| `BudgetModel.PercentageUsedBounds` | src/app/services/budget.ts:40-44 | With a positive budget and spending within it the percentage is between 0 and 100; overspending takes it above 100 |
| `BudgetService.Budget.constructor` | src/app/services/budget.ts:28-30 | Starts with an empty name, a zero budget and no recipients |
| `BudgetService.Budget.TotalSpent` | src/app/services/budget.ts:32-34 | The recipients' `spent` added up, even when some `spent` disagrees with its gifts; while the spent invariant holds, the sum of every gift's price |
| `BudgetService.Budget.BudgetRemaining` | src/app/services/budget.ts:36-38 | Remaining plus total spent equals the total budget |
| `BudgetService.Budget.BudgetPercentageUsed` | src/app/services/budget.ts:40-44 | 0 when the total budget is 0; otherwise percentage times budget equals total spent times 100 |
| `BudgetService.Budget.SetUserData` | src/app/services/budget.ts:46-49 | Sets name and budget; recipients unchanged |
| `BudgetService.Budget.AddRecipient` | src/app/services/budget.ts:51-53 | Recipients become the old list plus the new one at the end; the invariant is kept when the new recipient satisfies it |
| `BudgetService.Budget.UpdateRecipient` | src/app/services/budget.ts:55-59 | Recipients become the merged list; name and budget unchanged |
| `BudgetService.Budget.DeleteRecipient` | src/app/services/budget.ts:61-63 | Recipients become the filtered list; a later lookup of the id is absent; the invariant is kept |
| `BudgetService.Budget.AddGift` | src/app/services/budget.ts:65-76 | The new list is AddGiftTo of the old; name and budget unchanged; the invariant is kept |
| `BudgetService.Budget.UpdateGift` | src/app/services/budget.ts:78-89 | The new list is UpdateGiftIn of the old; name and budget unchanged; the invariant is kept |
| `BudgetService.Budget.DeleteGift` | src/app/services/budget.ts:91-102 | The new list is DeleteGiftFrom of the old; name and budget unchanged; the invariant is kept |
| `BudgetService.Budget.GetRecipientById` | src/app/services/budget.ts:104-106 | Absent exactly when no recipient has the id; otherwise the first recipient of the list with that id |
| `BudgetService.FirstSessionTotals` | src/app/services/budget.ts:32-76 | Budget 500, recipient Alex, gifts at 20 and 35: Alex's spent is 55, total spent is 55 and 445 remains |
| `ChatModel.SearchQuery` | src/app/services/chat.ts:29-45 | The query is built step by step; it always starts with "Christmas gift ideas" and ends with " under $" followed by the budget |
| `ChatModel.InterestsClause` | src/app/services/chat.ts:36-38 | The interests clause is present exactly when interests are non-empty, and then reads " for someone who likes " followed by the interests |
| `ChatModel.AgeClause` | src/app/services/chat.ts:39-41 | The age clause is present exactly when the age is positive |
| `ChatModel.GenderClause` | src/app/services/chat.ts:42-44 | The gender clause is present exactly when a gender is given |
| `ChatModel.SearchQueryClauses` | src/app/services/chat.ts:29-45 | The query is the opening, then the interests, age and gender clauses in that order (a missing age counts as 0), then " under $" and the budget |
| `ChatModel.SearchQueryBare` | src/app/services/chat.ts:29-45 | The query is exactly "Christmas gift ideas under $" plus the budget if and only if there are no interests, no positive age and no gender |
| `ChatModel.FirstSuggestions` | src/app/services/chat.ts:87 | A prefix of the parsed list, at most five long, and the whole list when it is shorter than five |
| `ChatModel.Min` | src/app/services/chat.ts:106 | `Math.min`: at most both arguments and equal to one of them |
| `ChatModel.Fallback` | src/app/services/chat.ts:103-125 | Exactly three items: Gift Card, Cozy Blanket, Board Game. Each price is the smaller of its share of the budget (30%, 25%, 30%) and its cap (50, 40, 45): at most both and equal to one |
| `ChatModel.FallbackWithinBudget` | src/app/services/chat.ts:103-125 | Together the defaults cost at most 85% of the budget and at most 135. A positive budget gives positive prices. Up to a budget of 150 each price is exactly its share |
| `ChatModel.SuggestionMessage` | src/app/services/chat.ts:76-133 | Always a bot message with suggestions. A failure gives the fallback text and set. A parsed reply gives the "found" text and exactly the first min(5, n) suggestions of the reply |
| `ChatModel.WelcomeMessage` | src/app/services/chat.ts:137-144 | A bot message without suggestions whose text starts with the fixed greeting and names the recipient right after it |
| `GiftListPage.FromField` | src/app/gift-list/gift-list.ts:91-92 | An empty form field is sent as absent, and any other text as itself |
| `GiftListPage.ToField` | src/app/gift-list/gift-list.ts:77-78 | An absent field fills the form with the empty text |
| `GiftListPage.EditForm` | src/app/gift-list/gift-list.ts:72-80 | The modal open in edit mode on the gift, with its name and price; a missing store or link becomes the empty text, a present one is copied |
| `GiftListPage.FieldRoundTrip` | src/app/gift-list/gift-list.ts:72-106 | Filling a form field from a gift and sending it back gives the field unchanged, except that a present empty text comes back absent |
| `GiftListPage.Submit` | src/app/gift-list/gift-list.ts:82-106 | No dispatch exactly when the name is empty, the price is missing or not positive, or there is no recipient id. In edit mode with an id it sends an update of that gift with the form's name, price, store and link. Otherwise it sends a new gift whose recipientId is the page's. Empty store or link fields are sent as absent |
| `GiftListPage.EditThenSaveKeepsGift` | src/app/gift-list/gift-list.ts:72-93 | Opening a gift for editing and saving without changes writes the same gift back |
| `GiftListPage.AddedGiftIsLast` | src/app/gift-list/gift-list.ts:94-109 | After a valid add-mode submit, the reloaded recipient has its old gifts followed by the new one, and its spent rises by the new price |
| `GiftListPage.TrimStart` | src/app/gift-list/gift-list.ts:154 | The first half of `trim`: a suffix of the text, all that is dropped is whitespace, and what is left starts with a non-whitespace character |
| `GiftListPage.TrimEnd` | src/app/gift-list/gift-list.ts:154 | The second half of `trim`: a prefix of the text, all that is dropped is whitespace, and what is left ends with a non-whitespace character |
| `GiftListPage.IsBlank` | src/app/gift-list/gift-list.ts:154 | `!text.trim()` holds exactly when every character of the text is whitespace, the empty text included |
| `GiftListPage.RemainingFor` | src/app/gift-list/gift-list.ts:131-136 | 0 with no recipient; otherwise remaining plus spent equals the recipient's budget, which is the budget less the price sum while the invariant holds |
| `GiftListPage.PercentageFor` | src/app/gift-list/gift-list.ts:138-143 | 0 with no recipient or a budget that is not positive; otherwise percentage times budget equals spent times 100 |
| `GiftListPage.PercentageForBounds` | src/app/gift-list/gift-list.ts:138-143 | Spending within a positive budget gives 0 to 100; overspending gives more than 100 |
| `GiftListPage.GiftList.constructor` | src/app/gift-list/gift-list.ts:15-37 | Starts with no recipient, a closed and empty modal, an empty chat and the injected store |
| `GiftListPage.GiftList.OnInit` | src/app/gift-list/gift-list.ts:39-53 | Stores the route id, and loads the recipient from the store when that id is non-empty |
| `GiftListPage.GiftList.OpenModal` | src/app/gift-list/gift-list.ts:55-59 | Shows the modal in add mode with no editing id; the form fields are left as they were |
| `GiftListPage.GiftList.CloseModal` | src/app/gift-list/gift-list.ts:61-70 | Hides the modal, leaves edit mode, clears the editing id and all four form fields |
| `GiftListPage.GiftList.EditGift` | src/app/gift-list/gift-list.ts:72-80 | Shows the modal in edit mode with the gift's id, name and price; a missing store or link becomes the empty text |
| `GiftListPage.GiftList.AddGift` | src/app/gift-list/gift-list.ts:82-116 | An invalid form changes nothing on the page or in the store. A valid one performs Submit's dispatch on the store, reloads the recipient, and closes and clears the modal |
| `GiftListPage.GiftList.DeleteGift` | src/app/gift-list/gift-list.ts:118-125 | With a recipient id and a confirmed prompt, deletes the gift in the store and reloads the recipient; otherwise nothing changes |
| `GiftListPage.GiftList.GetRemainingBudget` | src/app/gift-list/gift-list.ts:131-136 | 0 with no recipient loaded; otherwise remaining plus spent equals the budget |
| `GiftListPage.GiftList.GetBudgetPercentage` | src/app/gift-list/gift-list.ts:138-143 | 0 with no recipient or a budget that is not positive; otherwise percentage times budget equals spent times 100 |
| `GiftListPage.GiftList.ToggleChat` | src/app/gift-list/gift-list.ts:145-151 | Flips the panel. It appends the welcome message only when the panel opens, the history is empty and a recipient is loaded |
| `GiftListPage.GiftList.SendMessage` | src/app/gift-list/gift-list.ts:153-167 | A non-blank input with a recipient loaded is appended as a user message and the input is cleared; otherwise nothing changes |
| `GiftListPage.GiftList.AddSuggestedGift` | src/app/gift-list/gift-list.ts:178-201 | With a recipient id, the suggestion's name and price are added as a gift, the recipient is reloaded, and a confirmation is appended; otherwise nothing changes |

## Left out

- Persistence: the Firestore service (`src/app/services/firebase.service.ts`) only injects the driver, and the store never writes or reads documents.
- The network request in `generateGiftSuggestions`: the `fetch` call, its headers, `response.json()` and `JSON.parse`. Its outcome is the `Reply` parameter, either a parsed list or a failure.
- Turning a number into text for the search query is left abstract, as the parameter `show`.
- Timestamps, and ids made from `Date.now()`, are parameters. Ids are opaque, and nothing makes them unique.
- IEEE floating point (rounding, `NaN`, `Math.min` on `NaN`): money is `real`.
- A `Partial<T>` key for a required field that holds `undefined` (such as `{ name: undefined }`) cannot be expressed, because no caller passes one.
- Router navigation, `alert` and `confirm`: the answer to `confirm` is the `confirmed` parameter of `DeleteGift`.
- The bot reply that `sendMessage` schedules with `setTimeout` is not modelled. What it pushes into `chatMessages` is a Promise object, not a message, so `SendMessage` covers only the user message.
- `ChatMessage.timestamp` is not kept.
- The Express relay, sign-in, the auth guard, the dashboard (its clock-based day count and its `confirm` wrapper), the budget-input and recipient-profile forms, the splash screen and the routes are form, routing or I/O glue.
