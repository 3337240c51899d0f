# Storefront model

A Dafny model of the client-side logic of a small storefront single-page app. It covers:

- the catalog page: the six-way product filter, plus adding, updating and deleting products and recording completed orders;
- the wishlist hook;
- the admin product form: loading a product into the form, turning the form back into product data, and editing the image list;
- the product modal: the image carousel and the quantity stepper;
- the two-step checkout and the order it builds;
- the scripted chat assistant;
- the profile page's order totals and profile save;
- the filter sidebar;
- the mock authentication provider;
- the sign-in dialog with its second step for the administrator.

Modules follow the source files, and each is written in that file's form:

- `Storefront` models app/page.tsx. `FilterProducts` is a pure function. The page state is the class `AppState`, whose fields are sequences.
- `Wishlist` models hooks/useWishlist.ts. Its class `WishlistState` is proved against the pure `Added`/`Removed`/`Toggled`.
- `ProductForm` models components/ProductForm.tsx. `Submit` and `LoadForm` are pure; the image-list edits are methods of `FormState`.
- `ProductModal` models components/ProductModal.tsx, with the class `ModalState`.
- `Checkout` models components/Checkout.tsx. `FinalTotal` and `BuildOrder` are pure; the dialog state is `CheckoutState`.
- `AIChat` models components/AIChat.tsx. The rule table is pure; the message list is `ChatState`. An answer names its text by a `Reply` value (one per rule and one per fallback index), and `ReplyString` gives the exact text when the assistant's line is built.
- `UserProfile` models components/UserProfile.tsx. The three totals are pure; `ProfileState` edits the provider.
- `Filters` models components/Filters.tsx and is pure.
- `Auth` models the `AuthProvider` in components/AdminPanel.tsx, as the class `AuthProvider`.
- `AuthModal` models components/AuthModal.tsx, as the class `AuthModalState`.
- Shared records live in `Types` (types/index.ts) and the seed catalog in `Seed` (data/products.ts).
- `Seqs` holds generic sequence helpers: filter, map, take, subsequence and sum.
- `Text` holds ASCII lowercasing, `includes`, `trim`, `split` and `join`.

Money, prices and ratings are exact `real`s. Clock readings (`Date.now()`, `new Date()`) and the random fallback index are parameters. Browser storage is a `map<string, User>` field of the provider. Artificial delays are collapsed, so every async operation is immediate.

The two-factor step follows the code. A sign-in with the administrator's address calls `login`, and `login` has already stored the user before the second step is shown (components/AuthModal.tsx:44-48, components/AdminPanel.tsx:57-58). A wrong code only sets an error (components/AuthModal.tsx:64-72). So, after a wrong code, the session that `login` set remains. `AuthModal.AuthModalState.HandleSubmit` and `HandleTwoFactorSubmit` state this behaviour.

## Model

| member | source | states |
|---|---|---|
| Storefront.InitialFilters | app/page.tsx:38-44 | the page's opening criteria: every category and brand, prices 0..1000, rating 0, stock flag off; what they show is stated by `InitialFiltersKeepAll` and `OpeningPageShowsCatalog` |
| Storefront.MatchesSearch | app/page.tsx:49-51 | the lowercased query occurs in the lowercased name, description or some tag; `EmptySearchMatchesEverything` and `Text.ContainsIff` state what that means |
| Storefront.MatchesCategory | app/page.tsx:53 | "All" or the product's exact category; `CategoryPasses` and `CategorySentinel` state its effect |
| Storefront.MatchesBrand | app/page.tsx:54 | "All" or the product's exact brand; `BrandPasses` and `BrandSentinel` state its effect |
| Storefront.MatchesPrice | app/page.tsx:55 | the price lies between the two ends, both inclusive; `PriceBoundsInclusive` and `InvertedRangeIsEmpty` state its edge cases |
| Storefront.MatchesRating | app/page.tsx:56 | the rating is at least the minimum; `InitialFiltersKeepAll` uses the 0 minimum |
| Storefront.MatchesStock | app/page.tsx:57 | the flag is off or the product is in stock; `StockPasses` and `StockFlag` state its effect |
| Storefront.Matches | app/page.tsx:59 | all six tests hold; `FilterMembership` ties it to the shown list |
| Storefront.FilterProducts | app/page.tsx:47-61 | the result is an order-preserving subsequence of the catalog, and each product occurs in it exactly as often as in the catalog when it passes all six tests, otherwise not at all |
| Storefront.FilterMembership | app/page.tsx:48-60 | a product is shown iff it is in the catalog and passes search, category, brand, price, rating and stock |
| Storefront.EmptySearchMatchesEverything | app/page.tsx:49-51 | the empty query passes the text test for every product |
| Storefront.EmptyQueryMatches | app/page.tsx:49-59 | with an empty query only the other five tests decide |
| Storefront.CategoryPasses | app/page.tsx:53 | for any category other than "All", a product passes iff it passes with "All" and has exactly that category |
| Storefront.BrandPasses | app/page.tsx:54 | for any brand other than "All", a product passes iff it passes with "All" and has exactly that brand |
| Storefront.StockPasses | app/page.tsx:57 | with the in-stock flag on, a product passes iff it passes with the flag off and is in stock |
| Storefront.CategorySentinel | app/page.tsx:53 | the list for a named category is the "All" list narrowed to that category, in order |
| Storefront.BrandSentinel | app/page.tsx:54 | the list for a named brand is the "All" list narrowed to that brand, in order |
| Storefront.StockFlag | app/page.tsx:57 | the in-stock list is the flag-off list narrowed to in-stock products, in order |
| Storefront.PriceBoundsInclusive | app/page.tsx:55 | a price equal to either end of an ordered range passes |
| Storefront.InvertedRangeIsEmpty | app/page.tsx:55 | a range whose low end is above its high end shows nothing |
| Storefront.InitialFiltersKeepAll | app/page.tsx:38-44 | with the initial criteria and an empty query, any catalog whose prices lie in 0..1000 and whose ratings are non-negative is shown whole and in order |
| Storefront.OpeningPageShowsCatalog | app/page.tsx:29-61 | the page opens showing all six seed products |
| Storefront.PriceWindowPasses | app/page.tsx:55 | with otherwise initial criteria, a price window keeps exactly the products priced inside it (with a non-negative rating) |
| Storefront.PriceWindowKeeps | app/page.tsx:55 | products priced inside the window followed by products priced outside it filter to the first run |
| Storefront.SeedPriceWindow | app/page.tsx:55 | the window 100..300 keeps the headphones and the watch of the seed catalog and drops the 899 lens, the 45 tea set, the backpack and the coffee |
| Storefront.ResetRestoresInitialFilters | components/Filters.tsx:109-115 | the sidebar's reset record equals the page's initial criteria |
| Storefront.NewProduct | app/page.tsx:77-85 | the added product has the fresh id, rating 4.5 and no reviews, and otherwise the submitted data |
| Storefront.MergeProduct | app/page.tsx:88 | `{ ...p, ...updates }`; `MergeLaws` and `UpdateProducts` state its laws |
| Storefront.MergeLaws | app/page.tsx:88 | applying a patch twice is applying it once, and the empty patch changes nothing |
| Storefront.UpdateProducts | app/page.tsx:87-89 | same length and order; exactly the entries with the id are merged with the patch |
| Storefront.UpdateKeepsIds | app/page.tsx:87-89 | a patch without an id leaves the catalog's id sequence unchanged |
| Storefront.DeleteProducts | app/page.tsx:91-93 | `prev.filter(p => p.id !== id)`; `DeleteSpec` and `DeleteUndoesAdd` state what remains |
| Storefront.DeleteSpec | app/page.tsx:91-93 | delete leaves an order-preserving subsequence with no entry of that id, and keeps every other entry as often as before |
| Storefront.DeleteUndoesAdd | app/page.tsx:77-93 | deleting a freshly added product (with a new id) gives back the catalog it was added to |
| Storefront.AppState.FilteredProducts | app/page.tsx:47-61 | the grid shows, in catalog order, exactly the catalog's products that pass the page's query and criteria |
| Storefront.AppState.constructor | app/page.tsx:29-44 | the page starts with the seed catalog, no orders, the initial criteria, an empty query and the shop view |
| Storefront.AppState.SetSearchQuery | app/page.tsx:30 | the query becomes the typed text |
| Storefront.AppState.SetFilters | app/page.tsx:38 | the criteria become the sidebar's record |
| Storefront.AppState.CategoryChange | app/page.tsx:73-75 | only the category key of the criteria changes |
| Storefront.AppState.AddProduct | app/page.tsx:77-85 | the catalog gains exactly the new product at its end |
| Storefront.AppState.UpdateProduct | app/page.tsx:87-89 | the catalog becomes `UpdateProducts` of the old catalog |
| Storefront.AppState.DeleteProduct | app/page.tsx:91-93 | the catalog becomes `DeleteProducts` of the old catalog |
| Storefront.AppState.OrderComplete | app/page.tsx:95-99 | the order is appended and the view switches to the profile |
| Wishlist.HasId | hooks/useWishlist.ts:9 | `some(item => item.id === id)`, read recursively; `HasIdIff` states it by index |
| Wishlist.Added | hooks/useWishlist.ts:7-14 | the list after `addToWishlist`; `AddSpec` states it |
| Wishlist.Removed | hooks/useWishlist.ts:16-18 | the list after `removeFromWishlist`; `RemoveSpec` and `RemovedHasId` state it |
| Wishlist.Toggled | hooks/useWishlist.ts:24-30 | the list after `toggleWishlist`; `ToggleSpec` states it |
| Wishlist.HasIdIff | hooks/useWishlist.ts:9 | `some(item => item.id === id)` holds iff some index carries the id |
| Wishlist.UniqueIdsIff | hooks/useWishlist.ts:8-13 | the id-uniqueness invariant means no two positions share an id |
| Wishlist.HasIdAppend | hooks/useWishlist.ts:12 | an id is in a concatenation iff it is in either part |
| Wishlist.AddSpec | hooks/useWishlist.ts:7-14 | adding a present id changes nothing; adding an absent one appends it at the end; the old entries stay in front; the id is then present |
| Wishlist.RemovedHasId | hooks/useWishlist.ts:16-18 | after removing `id`, an id is present iff it differs from `id` and was present before |
| Wishlist.RemoveSpec | hooks/useWishlist.ts:16-18 | remove keeps exactly the items with another id, each as often as before, in order, and the id is gone |
| Wishlist.ToggleSpec | hooks/useWishlist.ts:24-30 | toggling flips the product's membership and leaves every other id's membership unchanged |
| Wishlist.RemovedUnique | hooks/useWishlist.ts:17 | removing keeps ids unique |
| Wishlist.AppendUnique | hooks/useWishlist.ts:12 | appending an absent id keeps ids unique |
| Wishlist.UniquePreserved | hooks/useWishlist.ts:7-30 | add, remove and toggle all keep ids unique |
| Wishlist.RemoveAbsent | hooks/useWishlist.ts:17 | removing an absent id changes nothing |
| Wishlist.ToggleTwiceAbsent | hooks/useWishlist.ts:24-30 | toggling an absent product twice restores the list exactly |
| Wishlist.ToggleTwicePresent | hooks/useWishlist.ts:24-30 | toggling a present product twice keeps it present but moves it to the end |
| Wishlist.WishlistState.constructor | hooks/useWishlist.ts:5 | the wishlist starts empty |
| Wishlist.WishlistState.IsInWishlist | hooks/useWishlist.ts:20-22 | true iff some item has the id |
| Wishlist.WishlistState.AddToWishlist | hooks/useWishlist.ts:7-14 | the items become `Added` of the old items, and unique ids stay unique |
| Wishlist.WishlistState.RemoveFromWishlist | hooks/useWishlist.ts:16-18 | the items become `Removed` of the old items, and unique ids stay unique |
| Wishlist.WishlistState.ToggleWishlist | hooks/useWishlist.ts:24-30 | the items become `Toggled` of the old items, and unique ids stay unique |
| ProductForm.DefaultForm | components/ProductForm.tsx:12-23 | the empty form: one blank image field, category "Electronics", in stock; `FormState.constructor` starts from it |
| ProductForm.LoadForm | components/ProductForm.tsx:25-40 | every field is copied; a missing original price becomes 0 and the tags are joined with ", " |
| ProductForm.ParseTags | components/ProductForm.tsx:49 | the tags are an order-preserving subsequence of the trimmed comma-separated pieces, each non-empty piece kept exactly as often as it occurs and the empty ones dropped; so no tag is empty or has whitespace at either end |
| ProductForm.KeptImages | components/ProductForm.tsx:48 | the submitted images are an order-preserving subsequence of the form's, every one non-blank, and each non-blank image kept exactly as often as it occurs |
| ProductForm.OriginalPriceOf | components/ProductForm.tsx:47 | an original price of 0 becomes absent; any other value is kept |
| ProductForm.Submit | components/ProductForm.tsx:42-57 | the submitted data carries rating 4.5, no reviews, the two submit-time stamps, the parsed tags, the kept images and every other field of the form |
| ProductForm.NoTags | components/ProductForm.tsx:49 | an empty tag field gives no tags |
| ProductForm.SplitJoinedTags | components/ProductForm.tsx:36-49 | splitting the joined tags at commas gives the tags with a space before each but the first |
| ProductForm.TagsRoundTrip | components/ProductForm.tsx:36-49 | joined and re-split tags come back unchanged when each is non-empty, trimmed and comma-free |
| ProductForm.LoadThenSubmit | components/ProductForm.tsx:25-57 | editing a product and saving unchanged gives back its data with rating 4.5, no reviews and the new time stamps, when its original price is not 0, its images are non-blank and its tags are as above |
| ProductForm.ReplaceAt | components/ProductForm.tsx:66-71 | same length; only the entry at the index changes |
| ProductForm.RemoveAt | components/ProductForm.tsx:73-78 | in range, exactly the entry at the index goes and the rest close up in order; out of range nothing changes |
| ProductForm.FormState.constructor | components/ProductForm.tsx:12-40 | the form is the default record, or the loaded product |
| ProductForm.FormState.AddImageField | components/ProductForm.tsx:59-64 | one blank image field is appended and nothing else changes |
| ProductForm.FormState.UpdateImage | components/ProductForm.tsx:66-71 | only the image list changes, by `ReplaceAt` |
| ProductForm.FormState.RemoveImage | components/ProductForm.tsx:73-78 | only the image list changes, by `RemoveAt` |
| ProductModal.NextIndex | components/ProductModal.tsx:27-31 | for an index in range, the next index is (i + 1) mod len and stays in range |
| ProductModal.PrevIndex | components/ProductModal.tsx:33-37 | 0 goes to len - 1 and any other index to i - 1; in range it is (i + len - 1) mod len |
| ProductModal.StepsUndo | components/ProductModal.tsx:27-37 | back after forward and forward after back are the identity |
| ProductModal.ForwardIsModular | components/ProductModal.tsx:27-31 | n forward presses move the index to (i + n) mod len |
| ProductModal.Decrement | components/ProductModal.tsx:153 | the quantity never drops below 1 and otherwise goes down by 1 |
| ProductModal.Increment | components/ProductModal.tsx:160 | the quantity goes up by exactly 1 |
| ProductModal.ModalState.constructor | components/ProductModal.tsx:22-23 | the modal starts open, on the first image with quantity 1 |
| ProductModal.ModalState.Close | components/ProductModal.tsx:47-51 | the X button or the backdrop closes the modal |
| ProductModal.ModalState.NextImage | components/ProductModal.tsx:27-75 | the index becomes `NextIndex` and stays in range |
| ProductModal.ModalState.PrevImage | components/ProductModal.tsx:33-69 | the index becomes `PrevIndex` and stays in range |
| ProductModal.ModalState.SelectImage | components/ProductModal.tsx:84-89 | the index becomes the chosen dot |
| ProductModal.ModalState.DecrementQuantity | components/ProductModal.tsx:153 | the quantity becomes `Decrement` of the old one, at least 1 |
| ProductModal.ModalState.IncrementQuantity | components/ProductModal.tsx:160 | the quantity goes up by 1 and stays at least 1 |
| ProductModal.ModalState.AddToCart | components/ProductModal.tsx:39-42 | the product and exactly the current quantity, at least 1, are handed on, and the modal closes |
| Checkout.FinalTotal | components/Checkout.tsx:42-43 | the total is the subtotal plus the donation, plus 2.50 exactly when the offset is chosen |
| Checkout.DefaultsAddSevenFifty | components/Checkout.tsx:36-43 | with the defaults the total grows by 7.50; 100 becomes 107.50 |
| Checkout.LastFour | components/Checkout.tsx:58 | the last four characters, or all of them when there are fewer |
| Checkout.LastFourOfSuffix | components/Checkout.tsx:58 | what precedes the last four characters does not show |
| Checkout.OrderUserId | components/Checkout.tsx:53 | the user's id, or "guest" without a user or with an empty id |
| Checkout.BuildOrder | components/Checkout.tsx:51-63 | total equals `FinalTotal` and subtotal + offset + donation; the offset is 2.50 iff chosen, else 0; status pending; masked card; tracking number "NS" + stamp |
| Checkout.MaskShowsOnlyLastFour | components/Checkout.tsx:58 | the payment text is the fixed mask followed by at most four card characters, always the final ones |
| Checkout.CheckoutState.constructor | components/Checkout.tsx:22-38 | step 1, empty address in the US, empty payment, offset on, 5 donated, not processing |
| Checkout.CheckoutState.Continue | components/Checkout.tsx:233 | step 1 moves to step 2 |
| Checkout.CheckoutState.Back | components/Checkout.tsx:299 | step 2 moves to step 1 |
| Checkout.CheckoutState.SetCarbonOffset | components/Checkout.tsx:122 | the offset choice becomes the box's value |
| Checkout.CheckoutState.SetCharityDonation | components/Checkout.tsx:137-143 | the donation becomes one of 0, 2, 5, 10 |
| Checkout.CheckoutState.SetShippingAddress | components/Checkout.tsx:187-222 | the address becomes the edited one |
| Checkout.CheckoutState.SetPaymentInfo | components/Checkout.tsx:253-280 | the payment details become the edited ones |
| Checkout.CheckoutState.PlaceOrder | components/Checkout.tsx:45-68 | the order is `BuildOrder` of the current choices and processing is over |
| AIChat.TopicOf | components/AIChat.tsx:33-97 | the if-chain over the lowercased message; `TopicIsFirstMatch` reads it as the rule table |
| AIChat.TopicIsFirstMatch | components/AIChat.tsx:33-97 | the topic is the first rule of the table (audio, fitness, eco, gift) with a keyword in the lowercased message |
| AIChat.FirstMatchIsEarliest | components/AIChat.tsx:35-86 | a rule wins when it matches and no earlier rule does |
| AIChat.OtherIffNoMatch | components/AIChat.tsx:88-97 | for a table of real rules, the first match is the fallback exactly when no rule has a keyword in the text |
| AIChat.FallbackIffNoMatch | components/AIChat.tsx:33-97 | the if-chain falls through to the fallback exactly when no keyword of the table occurs in the lowercased message |
| AIChat.Recommend | components/AIChat.tsx:43-47 | one recommendation per picked product, carrying its id, the rule's reason and the rule's confidence |
| AIChat.Picked | components/AIChat.tsx:36-85 | the `.filter(...).slice(0, n)` of each rule; `PickedSpec` states it |
| AIChat.PickedSpec | components/AIChat.tsx:36-85 | each rule picks a prefix of the catalog products passing its test, as long as its limit (2, 1, 1, 2) or the number that qualify, whichever is smaller; every pick is a catalog product, in catalog order |
| AIChat.GiftPicksFirstTwo | components/AIChat.tsx:80 | the gift rule picks the first two catalog products, or all when there are fewer |
| AIChat.RecommendSpec | components/AIChat.tsx:36-85 | the recommended ids are the ids of the first catalog products passing the rule's test, up to the limit, in catalog order; each is the id of a qualifying catalog product; all carry the given reason and confidence |
| AIChat.ReplyFor | components/AIChat.tsx:42-96 | only the fallback branch answers with one of the four fallback texts, the one the random index picks |
| AIChat.ReplyOfEachRule | components/AIChat.tsx:42-79 | each rule answers with its own reply (headphones, watch, sustainability, gift), and no other topic gives it |
| AIChat.ReplyString | components/AIChat.tsx:42-96 | the exact answer text of each rule and of the four fallbacks |
| AIChat.Answer | components/AIChat.tsx:41-97 | what each branch of the if-chain returns; `AnswerSpec` states it |
| AIChat.RuleRecommendations | components/AIChat.tsx:36-85 | a rule's recommendations, with its own reason and confidence, carry the ids of its first qualifying catalog products up to its limit |
| AIChat.AnswerSpec | components/AIChat.tsx:41-97 | a rule's answer has recommendations iff it is not the fallback, and then they are the rule's first qualifying products |
| AIChat.GenerateResponse | components/AIChat.tsx:32-98 | `generateAIResponse`; `ResponseText` and `ResponseRecommendations` state it in terms of the rule table |
| AIChat.ResponseText | components/AIChat.tsx:33-96 | the reply is that of the first rule with a keyword in the lowercased message, or the fallback reply the random index picks |
| AIChat.ResponseRecommendations | components/AIChat.tsx:35-97 | there are recommendations iff some rule's keyword occurs in the lowercased message, and then they carry the ids of the first matching rule's first qualifying catalog products up to its limit, in catalog order, with its reason and confidence |
| AIChat.BotMessage | components/AIChat.tsx:117-124 | the assistant's line: a bot line with the given id and time, the text of the response's reply and its recommendations |
| AIChat.ChatState.constructor | components/AIChat.tsx:11-21 | the window starts closed, holding only the greeting, with empty input and not typing |
| AIChat.ChatState.SetOpen | components/AIChat.tsx:141-162 | the window opens or closes |
| AIChat.ChatState.SetInputText | components/AIChat.tsx:249 | the input becomes the typed text |
| AIChat.ChatState.SendMessage | components/AIChat.tsx:100-128 | a blank input changes nothing; otherwise the user's line, stamped at sending, and the assistant's answer to it, stamped at replying, are appended, the input is cleared and typing is over |
| UserProfile.UserOrders | components/UserProfile.tsx:28 | exactly the orders with the user's id, each as often as before, in order |
| UserProfile.TotalSpent | components/UserProfile.tsx:29 | the sum of the user's order totals; `AggregatesAreMaskedSums`, `NoOrdersNoTotals`, `OtherUsersIgnored` and `OwnOrderAdds` state it |
| UserProfile.CarbonSaved | components/UserProfile.tsx:30 | the sum of the user's carbon offsets, stated by the same lemmas |
| UserProfile.CharityContributed | components/UserProfile.tsx:31 | the sum of the user's donations, stated by the same lemmas |
| UserProfile.AggregatesAreMaskedSums | components/UserProfile.tsx:29-31 | each total is the sum over all orders with every other user's orders counted as 0 |
| UserProfile.NoOrdersNoTotals | components/UserProfile.tsx:28-31 | a user without orders has no orders listed and all three totals 0 |
| UserProfile.OtherUsersIgnored | components/UserProfile.tsx:28-31 | other users' orders, inserted anywhere, change neither the list nor any total |
| UserProfile.OwnOrderAdds | components/UserProfile.tsx:29-31 | a new order of the user's adds exactly its total, offset and donation |
| UserProfile.ProfileState.constructor | components/UserProfile.tsx:15-19 | not editing; the form holds the user's name and address, or empty text |
| UserProfile.ProfileState.SetEditing | components/UserProfile.tsx:15 | the edit flag takes the given value |
| UserProfile.ProfileState.SetForm | components/UserProfile.tsx:16-19 | the form takes the typed name and address |
| UserProfile.ProfileState.SaveProfile | components/UserProfile.tsx:23-26 | exactly the name and the address are merged into the signed-in user and stored, and editing ends |
| Filters.ResetFilters | components/Filters.tsx:109-115 | the reset button's record; `SlidersStayInRange` and `Storefront.ResetRestoresInitialFilters` state it |
| Filters.UpdateFilter | components/Filters.tsx:17-19 | the changed key takes the new value and every other key keeps its old one |
| Filters.LowPriceSlider | components/Filters.tsx:59-64 | only the low end of the range changes |
| Filters.HighPriceSlider | components/Filters.tsx:67-72 | only the high end of the range changes |
| Filters.RatingSlider | components/Filters.tsx:83-89 | only the rating changes, to a half step between 0 and 5 |
| Filters.SlidersStayInRange | components/Filters.tsx:59-115 | the reset record and every slider move keep whole prices in 0..1000 and the rating in half steps from 0 to 5 |
| Filters.SlidersCanInvertRange | components/Filters.tsx:64-72 | nothing keeps low at most high: two slider moves invert the range |
| Filters.UpdatesCommute | components/Filters.tsx:17-19 | changes to different keys commute |
| Filters.LastChangeWins | components/Filters.tsx:17-19 | a later change to the same key overrides an earlier one |
| Auth.MockUser | components/AdminPanel.tsx:48-55 | id "1"; role admin and name "Admin User" iff the address is the administrator's, otherwise customer "John Doe"; offset 0 |
| Auth.NewUser | components/AdminPanel.tsx:72-79 | always a customer, with the given id, name and address and offset 0 |
| Auth.MergeUser | components/AdminPanel.tsx:98 | `{ ...user, ...updates }`; `MergeUserSpec` states it key by key |
| Auth.MergeUserSpec | components/AdminPanel.tsx:96-98 | each of the eight keys present in the patch is overwritten and each absent one kept; a second application changes nothing; the empty patch is the identity |
| Auth.NameEmailPatchSpec | components/UserProfile.tsx:24 | a name-and-address patch changes those two keys and no other |
| Auth.AuthProvider.constructor | components/AdminPanel.tsx:29-40 | the user is restored from the stored entry when there is one, and loading is over |
| Auth.AuthProvider.Login | components/AdminPanel.tsx:42-65 | always succeeds; the user is `MockUser` and stored under "user"; loading is over |
| Auth.AuthProvider.Register | components/AdminPanel.tsx:67-89 | always succeeds; the user is `NewUser` and stored under "user"; loading is over |
| Auth.AuthProvider.Logout | components/AdminPanel.tsx:91-94 | no user, and the "user" entry is removed |
| Auth.AuthProvider.UpdateProfile | components/AdminPanel.tsx:96-102 | nothing changes without a user; otherwise the merged user is set and stored |
| AuthModal.Toggled | components/AuthModal.tsx:224 | the link always switches to the other mode |
| AuthModal.ToggleTwice | components/AuthModal.tsx:224 | switching twice returns to the first mode |
| AuthModal.AuthModalState.constructor | components/AuthModal.tsx:16-26 | the given mode, an empty form, no error, no code, no second step |
| AuthModal.AuthModalState.Close | components/AuthModal.tsx:118-125 | the X button or the backdrop closes the dialog; mode, form, error, code and second step stay as they were |
| AuthModal.AuthModalState.Reopen | app/page.tsx:108-114 | the page opens the dialog again, showing what it held when it was closed |
| AuthModal.AuthModalState.ToggleMode | components/AuthModal.tsx:224 | the mode switches |
| AuthModal.AuthModalState.SetFormData | components/AuthModal.tsx:150-200 | the form takes the typed fields |
| AuthModal.AuthModalState.SetTwoFactorCode | components/AuthModal.tsx:92 | the code takes the typed text |
| AuthModal.AuthModalState.HandleSubmit | components/AuthModal.tsx:32-62 | differing passwords on register give "Passwords do not match" and touch nothing else, the provider's loading flag included; an administrator sign-in opens the second step with the session set; any other success closes the dialog and clears the form; after either success the provider is not loading |
| AuthModal.AuthModalState.HandleTwoFactorSubmit | components/AuthModal.tsx:64-72 | "123456" leaves the second step and closes; any other code only sets "Invalid 2FA code"; the session is untouched either way |
| Text.Trim | components/ProductForm.tsx:49 | `trim()` on ASCII whitespace; `TrimSpec` states it |
| Text.Split | components/ProductForm.tsx:49 | `split(',')`: at least one part, none containing the separator; `SplitJoin` states its inverse |
| Text.Join | components/ProductForm.tsx:36 | `join(', ')`; `SplitJoin` states its inverse |
| Text.Lower | components/AIChat.tsx:33 | lowercasing keeps the length and maps each character |
| Text.ContainsIff | app/page.tsx:49-51 | `includes` holds iff the text occurs at some position |
| Text.TrimStartIsSuffix | components/ProductForm.tsx:49 | stripping leading whitespace leaves a suffix of the text |
| Text.TrimSpec | components/ProductForm.tsx:48-49 | a trimmed text has no whitespace at either end, and trimming a trimmed text changes nothing |
| Text.SplitJoin | components/ProductForm.tsx:36-49 | splitting joined comma-free parts at the separator gives the parts back |

## Left out

- Rendering, markup and styling of every component are not modelled; they are presentation only. The same goes for the password visibility toggle, the profile tabs, the logout button's wiring and the `AdminPanel` default export.
- The cart ledger is not part of this model. Its hook is not among the modelled files, so `cart.clearCart()` in `handleOrderComplete` is left out, and the cart subtotal and items are parameters of checkout.
- The artificial delays are collapsed. `isProcessing`, `isTyping` and `isLoading` are set and then cleared within one method, so the in-between state is not observable.
- `Date.now()`, `new Date()` and `Math.random()` are parameters: ids and time stamps are strings passed in, and the fallback answer is an index in 0..3.
- `localStorage` with `JSON.stringify`/`JSON.parse` is a map from keys to users; serialisation is not modelled.
- JavaScript floating-point arithmetic is replaced by exact reals. `parseInt` and `parseFloat` on slider values are replaced by integer positions.
- `toLowerCase` and `trim` are modelled on ASCII. Unicode case mapping and Unicode whitespace are not modelled.
- React state batching and stale closures are not modelled; each handler runs to completion on the current state. In particular, `toggleWishlist` reads the current list.
- Callbacks to the parent are not calls. `onSave`, `onAddToCart`, `onProductRecommend` and `onOrderComplete` become results of the method. `onClose` becomes the `isOpen` flag of `ProductModal.ModalState` and `AuthModal.AuthModalState`. The product form and the checkout dialog have no such flag, so closing them with X, the backdrop or the cancel button (components/ProductForm.tsx:83-91, :264; components/Checkout.tsx:73-79) is not modelled. Neither is the checkout's closing after an order: see `Checkout.CheckoutState.PlaceOrder` below.
- Auth.AuthProvider.Login and Auth.AuthProvider.Register: the `catch` path that returns false is not modelled. It is reached only when the `localStorage.setItem` write throws (components/AdminPanel.tsx:58, :82), for instance on a full or forbidden storage, and a `map` field cannot model a failing write. So the model always succeeds, and the "Authentication failed" branch of `HandleSubmit` is unreachable in it.
- AuthModal.AuthModalState.HandleSubmit: the "An error occurred. Please try again." path for exceptions is not modelled; no exceptions are modelled.
- AuthModal.AuthModalState.constructor: the model starts from a freshly mounted dialog that is open. The page mounts the dialog once, closed (app/page.tsx:296-299), and its hooks run before `if (!isOpen) return null` (components/AuthModal.tsx:16-30); the model reaches later openings only through `Close` and `Reopen`, which keep the dialog's state.
- ProductModal.ModalState: the model covers a freshly mounted modal only. The page mounts the modal once (app/page.tsx:286) and its state hooks run before the early `return null` (components/ProductModal.tsx:22-25), so the index and quantity carry over to the next product shown. That carried-over state is not modelled, including an index left out of range by a switch to a product with fewer images, which `nextImage` then moves further out.
- Checkout.CheckoutState.PlaceOrder: the dialog's closing after the order is handed on is not modelled; the order is the method's result.
- The concrete search over the seed catalog (the query "headphone" finds only the headphones) is not proved. It needs proofs that a word is absent from long literal texts. The filter's general contract and `FilterMembership` state what decides it.
