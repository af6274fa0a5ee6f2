# Restaurant merchant app: a Dafny model of its order watcher, list rules and session logic

The merchant app of a restaurant menu service is a React Native program. It
lists the restaurant's orders, polls for new ones and alerts the owner. It
lets the owner change an order's state, manage products, configure alert
sound and vibration, activate a subscription and share the public menu link.

Under the screens sits a small amount of sequential logic, and this project
models it in Dafny:

- **Order-arrival watchers.** There are two copies, one on the orders screen
  and one on the home screen. Each keeps a set of seen order ids, an
  in-flight flag that drops overlapping fetches, and a single timer slot. It
  raises at most one alert per fetch, and only when an order whose id was
  not seen before is `NEW`.
- **Order list rules.** These are the state labels, the display order (`NEW`
  first, then newest first), the state filter, the state changes the screen
  offers, and how the order list payload is normalised.
- **Home screen list and settings updates.** This covers toggling a
  product's `active` flag, deleting by id, merging stored settings over the
  defaults, choosing the alert sound, and the product-load guard.
- **Subscription-block notifier.** This is a module-level `expired` flag with
  two single-slot listeners.
- **Session and request authentication.** This covers which token a request
  carries, how the header map is rewritten, and how sign-in, sign-out and
  restore use the key-value store.
- **Form logic.** This covers the product form's price digits, save checks
  and image URL cache, the activation-code normalisation, and the menu URL
  with its copy and share guards.

## How the model is built

- **Pure code** becomes datatypes and functions. Their properties are lemmas.
  This covers the comparator, filter, transitions, header rewrite, settings
  overlay, trim and digits.
- **Objects and closures that update state** become classes. A component's
  state and refs become fields, and each handler becomes a method with a
  `modifies` clause.
- **An `await` that another handler can observe splits its handler in
  two.** This applies where a flag is raised or a value recorded before the
  await: `load`, `loadProducts`, the home poll tick, `uploadImageIfNeeded`,
  `onSave`, `onActivate` and the QR screen's `load`. A `Begin…` method runs
  up to the await. An `End…` method takes the awaited outcome as a parameter
  and requires the flag that `Begin…` set. JavaScript runs one callback at a
  time, so the two halves are atomic.
- **The other handlers are one method each.** This applies where nothing
  observable happens before the await, or only a request is logged. Examples
  are `setStatus`, `loadNewOrdersCount`, `onToggleActive`, `onDelete`,
  `loadStorage`, `signIn`, `pickImage`, `copyLink` and `shareLink`. Each
  awaited outcome is a parameter of that one method. The model does not
  cover another handler running while such an await is pending.
- **Network answers, storage reads and user choices are parameters.** This
  includes `Result<…>` values whose error carries the HTTP status, the
  "confirm" tap and JSON parse success.
- **Effects outside the app are ghost state.** Alerts, vibrations, sounds
  played, error messages shown, requests sent and listener calls are ghost
  counters or logs. Live timers are a ghost count tied to the timer slot, so
  "at most one interval" is a checked invariant.

Files:

| File | Contents |
|---|---|
| `wrappers.dfy` | Option/Result |
| `text.dfy` | ECMAScript `trim`, ASCII `toUpperCase`, `\d` digits |
| `orders.dfy` | `src/services/orders.ts` |
| `order_list.dfy` | The pure rules of `OrdersScreen.tsx` |
| `arrivals.dfy` | The arrival rule both watchers share |
| `orders_screen.dfy` | The `OrdersScreen.tsx` watcher class |
| `home_screen.dfy` | `HomeScreen.tsx` |
| `subscription_block.dfy` | The notifier |
| `api.dfy` | The interceptor |
| `auth_context.dfy` | `AuthContext.tsx` |
| `create_product.dfy`, `subscription_blocked.dfy`, `my_qr.dfy` | The three form screens |

## Model

| member | source | states |
|---|---|---|
| Wrappers.IsPaymentRequired | src/screens/OrdersScreen.tsx:193 | `err?.response?.status === 402`: the failure carries status 402. |
| Orders.StatusName | src/services/orders.ts:3-8 | The spelling of each state. `StatusNamesRoundTrip` states that the spellings are distinct and parse back. |
| Orders.ParseStatus | src/services/orders.ts:3-8 | A spelling that parses is the spelling of the state it parses to. |
| Orders.StatusNamesRoundTrip | src/services/orders.ts:3-8 | There are exactly five states with distinct spellings, and every spelling reads back as its state. |
| Orders.ListOrders | src/services/orders.ts:29-32 | An array payload comes back unchanged, with the same elements in the same order. Any other payload becomes a one-element list. |
| Orders.UpdateOrderStatus | src/services/orders.ts:34-37 | The request path is `/orders/` + id + `/status`. The body has the single key `status`, holding the state's spelling. |
| Orders.UpdateOrderStatusTargets | src/services/orders.ts:34-37 | The id read back from the path is the order the request was built for, and the body parses back to the requested state. |
| OrderList.StatusLabel | src/screens/OrdersScreen.tsx:26-41 | The Portuguese label of each state. `StatusLabelInjective` states what it guarantees. |
| OrderList.StatusLabelInjective | src/screens/OrdersScreen.tsx:26-41 | Two states share a label exactly when they are the same state. |
| OrderList.Score | src/screens/OrdersScreen.tsx:259-260 | The comparator's group score: 0 for `NEW`, 1 for every other state. |
| OrderList.Compare | src/screens/OrdersScreen.tsx:258-263 | The comparator: the group score difference first, then the newer order first. `CompareMeansPrecedes` states what it means. |
| OrderList.CompareMeansPrecedes | src/screens/OrdersScreen.tsx:258-263 | The comparator says "not after" exactly when a `NEW` order comes before a non-`NEW` one, or both are in the same group and the first is at least as recent. This relation is total and transitive. |
| OrderList.SortedMeansGrouped | src/screens/OrdersScreen.tsx:255-266 | Being in comparator order is the same as having every `NEW` order before every other order and each group newest first. |
| OrderList.Insert | src/screens/OrdersScreen.tsx:258-263 | Inserting adds exactly the one order: the result's multiset is the old one plus that order. |
| OrderList.InsertSorted | src/screens/OrdersScreen.tsx:258-263 | Inserting into a sorted list keeps it sorted. |
| OrderList.SortOrders | src/screens/OrdersScreen.tsx:255-266 | `sortedOrders`, as an insertion sort by the comparator. `SortOrdersCorrect` states its result. |
| OrderList.SortOrdersCorrect | src/screens/OrdersScreen.tsx:255-266 | `sortedOrders` is a permutation of `orders`, with every `NEW` order first and each group newest first. |
| OrderList.WithStatus | src/screens/OrdersScreen.tsx:268-271 | The filtered list is no longer than the input, and every order in it has the chosen state. |
| OrderList.WithStatusAppend | src/screens/OrdersScreen.tsx:268-271 | Filtering keeps the relative order, because it distributes over concatenation. |
| OrderList.WithStatusSelects | src/screens/OrdersScreen.tsx:268-271 | Each order of the chosen state occurs as often as in the input. No order of any other state occurs. |
| OrderList.FilteredOrders | src/screens/OrdersScreen.tsx:268-271 | `filteredOrders`: the sorted list under `ALL`, otherwise `WithStatus` of it. `FilterAll`, `WithStatus` and `WithStatusSelects` state its laws. |
| OrderList.FilterAll | src/screens/OrdersScreen.tsx:269 | The `ALL` filter shows the sorted list itself. |
| OrderList.OfferedTransitions | src/screens/OrdersScreen.tsx:486-575 | No button leads back to `NEW`. |
| OrderList.TransitionsMoveForward | src/screens/OrdersScreen.tsx:486-575 | Every offered change moves the order strictly forward. Only `DELIVERED` and `CANCELED` offer nothing. |
| OrderList.OfferedPathBounded | src/screens/OrdersScreen.tsx:486-575 | Following the buttons, an order passes through at most four states and never returns to `NEW`. |
| Arrivals.IdsOf | src/screens/OrdersScreen.tsx:168 | The ids a list of orders adds to the seen set. `IdsOfMembers` and `IdsOfSnoc` state them. |
| Arrivals.IdsOfMembers | src/screens/OrdersScreen.tsx:167-168 | An id is recorded exactly when some fetched order carries it. |
| Arrivals.IdsOfSnoc | src/screens/OrdersScreen.tsx:168 | Recording one more order adds exactly its id. |
| Arrivals.Unseen | src/screens/OrdersScreen.tsx:167 | The unseen list is no longer than the fetched list, and none of its ids was seen. |
| Arrivals.UnseenMembers | src/screens/OrdersScreen.tsx:167 | An order is in the unseen list exactly when it was fetched and its id was not seen. |
| Arrivals.AnyNew | src/screens/OrdersScreen.tsx:171 | `newOnes.some(o => o.status === "NEW")`. `AnyNewMeans` states what it decides. |
| Arrivals.AnyNewMeans | src/screens/OrdersScreen.tsx:171 | `some(o => o.status === "NEW")` holds exactly when some order of the list is `NEW`. |
| Arrivals.IsNewArrival | src/screens/OrdersScreen.tsx:167-171 | One order alerts when its id was not seen and its state is `NEW`. |
| Arrivals.HasNewArrival | src/screens/OrdersScreen.tsx:167-171 | The alert condition of `detectNewOrders`. `UnseenAnyNew`, `HasNewArrivalSnoc`, `SeenNeverAlerts` and `FirstLoadAlerts` state it. |
| Arrivals.HasNewArrivalSnoc | src/screens/OrdersScreen.tsx:167-171 | A longer list satisfies the alert condition when its shorter part did, or when its last order is an unseen `NEW` one. |
| Arrivals.CountNew | src/screens/HomeScreen.tsx:198 | The count of `NEW` orders is at most the list length, and it is 0 exactly when no order is `NEW`. |
| Arrivals.CountNewIsFilterLength | src/screens/HomeScreen.tsx:198 | The count is the length of the list that the `NEW` status filter keeps. |
| Arrivals.UnseenIds | src/screens/OrdersScreen.tsx:167-168 | Adding only the unseen ids leaves the same seen set as adding every fetched id. |
| Arrivals.UnseenAnyNew | src/screens/OrdersScreen.tsx:167-175 | The unseen orders contain a `NEW` one exactly when some order with a previously unseen id is `NEW`. |
| Arrivals.SeenNeverAlerts | src/screens/OrdersScreen.tsx:167-171 | Orders whose ids were all seen never alert, whatever their state. |
| Arrivals.RefreshDoesNotRealert | src/screens/OrdersScreen.tsx:201-204 | A reload that returns only orders fetched before raises no alert. |
| Arrivals.StatusChangeDoesNotRealert | src/screens/OrdersScreen.tsx:201-204 | A list whose orders only changed state since the last fetch raises no alert. |
| Arrivals.MoreSeenFewerAlerts | src/screens/OrdersScreen.tsx:167-171 | A larger seen set can only remove alerts. |
| Arrivals.FirstLoadAlerts | src/screens/OrdersScreen.tsx:211-215 | With nothing seen yet, as on the first load, the alert fires exactly when some fetched order is `NEW`. |
| OrdersScreen.OrderWatcher.constructor | src/screens/OrdersScreen.tsx:86-102 | A mounted screen has nothing seen, no fetch in flight, no timer and no orders. It is loading, with auto-refresh on and the `ALL` filter. |
| OrdersScreen.OrderWatcher.StopPolling | src/screens/OrdersScreen.tsx:148-153 | Afterwards the timer slot is empty and no timer is live, even when none existed. Nothing else changes. |
| OrdersScreen.OrderWatcher.StartPolling | src/screens/OrdersScreen.tsx:155-161 | A timer is created only when the slot was empty, so exactly one timer is live afterwards. Nothing else changes. |
| OrdersScreen.OrderWatcher.DetectNewOrders | src/screens/OrdersScreen.tsx:163-176 | The new seen set is the old one plus every fetched id. One alert fires exactly when an order whose id was not seen before is `NEW`; otherwise none fires. |
| OrdersScreen.OrderWatcher.BeginLoad | src/screens/OrdersScreen.tsx:178-185 | Nothing happens while a fetch is in flight. Otherwise the flag is raised and a non-silent load shows the spinner. |
| OrdersScreen.OrderWatcher.EndLoad | src/screens/OrdersScreen.tsx:185-199 | On success, the fetched ids are recorded as seen and as fetched, `orders` is replaced and alerts follow the arrival rule. On failure, the seen set, the orders and the alerts are unchanged, and a message appears unless the status was 402. The flag clears on both paths. |
| OrdersScreen.OrderWatcher.Tick | src/screens/OrdersScreen.tsx:158-160 | The interval starts a silent load, or is dropped while one is in flight. The spinner is untouched, and only the load flags can change. |
| OrdersScreen.OrderWatcher.OnFocus | src/screens/OrdersScreen.tsx:218-224 | Focus starts a silent load and, with auto-refresh on, makes sure one timer runs. The spinner is untouched, and only the load flags and the timer slot can change. |
| OrdersScreen.OrderWatcher.OnBlur | src/screens/OrdersScreen.tsx:225-227 | Leaving the screen leaves no live timer, and only the timer slot changes. |
| OrdersScreen.OrderWatcher.OnAppActive | src/screens/OrdersScreen.tsx:233-242 | Becoming active starts a silent load, or is dropped while one is in flight. The spinner and the timer are untouched, and only the load flags can change. |
| OrdersScreen.OrderWatcher.ToggleAutoRefresh | src/screens/OrdersScreen.tsx:218-230 | After the switch, a timer is live exactly when auto-refresh is on, and there is never more than one. A silent load starts unless one is in flight. Only the switch, the load flags and the timer slot change. |
| OrdersScreen.OrderWatcher.SetStatus | src/screens/OrdersScreen.tsx:201-209 | The PATCH for that order and state is sent. Success starts a silent reload. Failure shows a message unless the status was 402, and starts nothing. The spinner is untouched, and nothing outside the request log, the message count and the load flags changes. |
| OrdersScreen.OrderWatcher.SetFilter | src/screens/OrdersScreen.tsx:273-278 | The chip sets the filter. |
| HomeScreen.SetActive | src/screens/HomeScreen.tsx:237-239 | Entries with the id get the new `active` value and keep every other field. All other entries are unchanged. |
| HomeScreen.SetActiveIdempotent | src/screens/HomeScreen.tsx:237-239 | Applying the same update twice is the same as applying it once. |
| HomeScreen.SetActiveInverse | src/screens/HomeScreen.tsx:231-239 | Setting back the previous value restores the list, so the toggle can be undone. |
| HomeScreen.RemoveById | src/screens/HomeScreen.tsx:261 | No entry with the id remains, and the list does not grow. |
| HomeScreen.RemoveByIdExact | src/screens/HomeScreen.tsx:261 | Exactly the entries with that id go. Every other entry stays as often as before. |
| HomeScreen.RemoveByIdAppend | src/screens/HomeScreen.tsx:261 | Deleting keeps the order of what stays. |
| HomeScreen.Stored | src/screens/HomeScreen.tsx:113-118 | What `saveSettings` writes with `JSON.stringify(next)`: every field present. `LoadedSettingsLaws` states that it loads back exactly. |
| HomeScreen.Overlay | src/screens/HomeScreen.tsx:106-109 | Each stored field overrides, and each absent field keeps its previous value. |
| HomeScreen.LoadedSettings | src/screens/HomeScreen.tsx:100-111 | What `loadSettings` makes of the stored JSON text. `LoadedSettingsLaws` states its laws. |
| HomeScreen.LoadedSettingsLaws | src/screens/HomeScreen.tsx:100-118 | A missing or unreadable key keeps the settings. Saved settings load back exactly. Overlaying is idempotent, and an empty object changes nothing. |
| HomeScreen.SelectedSoundAsset | src/screens/HomeScreen.tsx:90-98 | Choice 2 selects sound 2 and choice 3 selects sound 3. Exactly the other values select sound 1. |
| HomeScreen.HomeState.constructor | src/screens/HomeScreen.tsx:66-88 | A mounted screen has default settings, nothing seen, no timer, no products and is loading. |
| HomeScreen.HomeState.AddIds | src/screens/HomeScreen.tsx:204 | The loop adds every id of the list to the seen set. |
| HomeScreen.HomeState.PlayNewOrderSound | src/screens/HomeScreen.tsx:120-139 | With sound off, nothing plays. Otherwise the asset loaded the first time plays. |
| HomeScreen.HomeState.NotifyNewOrder | src/screens/HomeScreen.tsx:141-150 | One alert. It vibrates only when vibration is on. With sound on, the cached asset (or the chosen one, cached now) is appended to the sounds played. With sound off, the sound state is unchanged. It never fails. |
| HomeScreen.HomeState.LoadNewOrdersCount | src/screens/HomeScreen.tsx:194-218 | The count is the number of `NEW` orders, or 0 on failure. On success every fetched id is recorded. Only with `shouldNotify` and an unseen `NEW` order does one alert fire. It vibrates and plays exactly when it alerts and the setting is on, and what plays is the cached asset or the chosen one, which is then cached. Otherwise no sound is played or loaded. A failure changes nothing else. |
| HomeScreen.HomeState.RestartPolling | src/screens/HomeScreen.tsx:323-338 | The old interval is cleared before a new one starts, so exactly one is live. |
| HomeScreen.HomeState.StopPolling | src/screens/HomeScreen.tsx:340-345 | The cleanup leaves no live interval. |
| HomeScreen.HomeState.TickBegin | src/screens/HomeScreen.tsx:329-333 | A tick is dropped while a poll is in flight. Otherwise it raises the flag. |
| HomeScreen.HomeState.TickEnd | src/screens/HomeScreen.tsx:333-337 | An alerting count follows the arrival rule. It vibrates and plays only with that alert and the setting on, playing the cached asset or caching the chosen one. A failed fetch alerts, vibrates and plays nothing. The flag is cleared on every path. |
| HomeScreen.HomeState.LoadSettings | src/screens/HomeScreen.tsx:100-111 | The settings become the stored fields over the current ones. A change restarts the single poll interval. |
| HomeScreen.HomeState.SaveSettings | src/screens/HomeScreen.tsx:113-118 | The settings become the given ones. A change restarts the single poll interval. |
| HomeScreen.HomeState.BeginLoadProducts | src/screens/HomeScreen.tsx:152-157 | Nothing happens while a load is running. Otherwise the guard is raised and a non-silent load shows the spinner. |
| HomeScreen.HomeState.EndLoadProducts | src/screens/HomeScreen.tsx:159-175 | Success replaces the products. Failure keeps them and shows a message unless the status was 402. The guard clears on both paths. |
| HomeScreen.HomeState.OnToggleActive | src/screens/HomeScreen.tsx:231-250 | After a successful update, entries with the item's id get `!item.active` and nothing else changes. On failure the list is unchanged, and a message appears unless the status was 402. |
| HomeScreen.HomeState.OnDelete | src/screens/HomeScreen.tsx:252-291 | After confirmation, success removes exactly that id with no message, and 402 is silent. Any other failure keeps the list and shows one message; a 404 starts a silent reload exactly when no product load is running. Without confirmation nothing happens. |
| SubscriptionBlock.Notifier.constructor | src/services/subscriptionBlock.ts:3-6 | The module starts with both slots empty and not expired. |
| SubscriptionBlock.Notifier.SetExpiredListener | src/services/subscriptionBlock.ts:8-11 | The slot holds the new listener, which fires once at once if and only if the flag is set. |
| SubscriptionBlock.Notifier.SetRestoredListener | src/services/subscriptionBlock.ts:13-15 | The slot holds the new listener. Nothing fires and the flag is unchanged. |
| SubscriptionBlock.Notifier.NotifyExpired | src/services/subscriptionBlock.ts:17-20 | The flag is set, and the registered expired listener, if any, is called exactly once. |
| SubscriptionBlock.Notifier.NotifyRestored | src/services/subscriptionBlock.ts:22-25 | The flag is cleared, and the registered restored listener, if any, is called exactly once. |
| SubscriptionBlock.Notifier.ResetExpired | src/services/subscriptionBlock.ts:27-29 | The flag is cleared and no listener is called. |
| Text.TrimStart | src/services/api.ts:13 | The leading half of `trim`. `TrimStartShape` states it. |
| Text.TrimEnd | src/services/api.ts:13 | The trailing half of `trim`. `TrimEndShape` states it. |
| Text.TrimStartShape | src/services/api.ts:13 | Leading trim drops only white space, keeps a suffix, and leaves no leading space. |
| Text.TrimEndShape | src/services/api.ts:13 | Trailing trim drops only white space, keeps a prefix, and leaves no trailing space. |
| Text.Trim | src/services/api.ts:13 | Neither end of a trimmed string is white space. |
| Text.TrimDropsOnlySpace | src/services/api.ts:13 | The result is the infix between an all-space prefix and an all-space suffix. |
| Text.TrimOfTrimmed | src/services/api.ts:13 | Trimming a string with no space at either end returns it unchanged. |
| Text.TrimIdempotent | src/services/api.ts:13 | Trimming twice is trimming once. |
| Text.TrimBlank | src/screens/CreateProductScreen.tsx:126-132 | A string trims to "" exactly when it is all white space. |
| Text.UpperChar | src/screens/SubscriptionBlockedScreen.tsx:48 | `toUpperCase` on one character: ASCII `a`-`z` map to `A`-`Z`, and every other character is kept. |
| Text.ToUpper | src/screens/SubscriptionBlockedScreen.tsx:48 | Each character is upper-cased, and the length is unchanged. |
| Text.ToUpperShape | src/screens/SubscriptionBlockedScreen.tsx:48 | No lower-case ASCII letter remains, and every other character is kept. |
| Text.UpperKeepsTrimmed | src/screens/SubscriptionBlockedScreen.tsx:48 | Upper-casing a trimmed string leaves it trimmed. |
| Text.Truthy | src/services/api.ts:13 | JavaScript truthiness of a string or null: not null and not "". |
| Text.OnlyDigits | src/screens/CreateProductScreen.tsx:72 | What remains is digits only, and it is no longer than the input. |
| Text.OnlyDigitsSnoc | src/screens/CreateProductScreen.tsx:72 | Appending a character appends it to the result exactly when it is a digit. Together with the empty case, this defines the function. |
| Text.OnlyDigitsCounts | src/screens/CreateProductScreen.tsx:72 | Each digit occurs in the result as often as in the input, and no other character occurs. |
| Text.Decimal | src/screens/CreateProductScreen.tsx:73 | A numeral is non-empty and made of digits. |
| Text.DecimalValue | src/screens/CreateProductScreen.tsx:73 | `Number` of a digit string: its decimal value, with leading zeros allowed. |
| Text.DecimalValueOfDecimal | src/screens/CreateProductScreen.tsx:73 | The value of the numeral of n is n. |
| Text.OnlyDigitsOfDigits | src/screens/CreateProductScreen.tsx:72 | Keeping the digits of an all-digit string returns it unchanged. |
| Api.ChosenToken | src/services/api.ts:10-13 | A truthy memory token wins, then a truthy stored token, then ""; the winner is trimmed, and the result has no space at either end. |
| Api.BlankMemoryTokenShadowsDisk | src/services/api.ts:13 | A whitespace-only memory token still wins and yields no token. |
| Api.RewrittenHeaders | src/services/api.ts:15-23 | `authorization` is gone. `Authorization` is present exactly when the token is non-empty, and then equals `Bearer ` + token. Every other header is untouched. |
| Api.RewrittenHeadersLaws | src/services/api.ts:15-23 | The header carries exactly the chosen token, and running the interceptor twice changes nothing. |
| Api.Intercept | src/services/api.ts:9-32 | A missing header map becomes an empty one, then come the two deletes and the conditional insert. The result is the rewritten header map for the chosen token. |
| AuthContext.HasValue | src/context/AuthContext.tsx:24-27 | `getItem(key)` is truthy: the key is stored with a non-empty value. |
| AuthContext.Restored | src/context/AuthContext.tsx:24-37 | A session is restored exactly when both keys hold a value, with the trimmed token and the stored user. Otherwise there is no token and no user. |
| AuthContext.SignedInStore | src/context/AuthContext.tsx:50-53 | The store after `signIn`'s two writes. `SignedInStoreHolds` and `SignInRestores` state what it holds and restores. |
| AuthContext.SignedInStoreHolds | src/context/AuthContext.tsx:50-53 | After sign-in, the store holds the trimmed token and the user. |
| AuthContext.SignInRestores | src/context/AuthContext.tsx:46-59 | A sign-in restores on the next start exactly when its trimmed token and user are non-empty, and then restores that same session. |
| AuthContext.SignOutNotRestored | src/context/AuthContext.tsx:61-68 | A signed-out store restores nothing. |
| AuthContext.AuthProvider.constructor | src/context/AuthContext.tsx:17-19 | The provider starts with no user and loading. |
| AuthContext.AuthProvider.LoadStorage | src/context/AuthContext.tsx:21-41 | With both keys, the trimmed token is installed and the user is set if it parses. Otherwise token and user are cleared. Loading ends on every path and the store is unchanged. |
| AuthContext.AuthProvider.SignIn | src/context/AuthContext.tsx:46-59 | A failed login changes nothing. Otherwise the store gets the trimmed token and user, and the same token is installed. |
| AuthContext.AuthProvider.SignOut | src/context/AuthContext.tsx:61-68 | Both keys are removed, no token is installed and the user is cleared. |
| CreateProduct.PriceNumber | src/screens/CreateProductScreen.tsx:71-74 | `priceNumber`. `PriceNumberSnoc`, `PriceNumberNoDigits` and `PriceNumberOfNumeral` state what it reads. |
| CreateProduct.PriceNumberSnoc | src/screens/CreateProductScreen.tsx:71-74 | Typing a digit gives ten times the old price plus that digit. Typing anything else leaves the price unchanged. |
| CreateProduct.PriceNumberNoDigits | src/screens/CreateProductScreen.tsx:71-74 | Text without digits is worth 0. |
| CreateProduct.PriceNumberOfNumeral | src/screens/CreateProductScreen.tsx:71-74 | The numeral of any amount reads back as that amount. |
| CreateProduct.CheckSave | src/screens/CreateProductScreen.tsx:125-150 | The checks of `onSave` and the fields it sends. `CheckSaveDecides` states them. |
| CreateProduct.CheckSaveDecides | src/screens/CreateProductScreen.tsx:125-150 | Save is refused exactly when the trimmed name is blank or the price is below 1, and the name is checked first. Accepted fields are the trimmed name, the trimmed description or none, and the digit price. |
| CreateProduct.ProductForm.constructor | src/screens/CreateProductScreen.tsx:61-69 | An empty form with price text "1990", no image and nothing in progress. |
| CreateProduct.ProductForm.Disabled | src/screens/CreateProductScreen.tsx:170 | `disabled`: saving or uploading. `BeginSave` requires it to be false. |
| CreateProduct.ProductForm.PickImage | src/screens/CreateProductScreen.tsx:76-106 | A picked, non-empty URI replaces the image and clears the cached URL. A refusal, cancellation, missing or empty URI, or failure changes neither. Only a refusal or failure shows a message. |
| CreateProduct.ProductForm.BeginUpload | src/screens/CreateProductScreen.tsx:108-113 | A null or empty image URI yields null. A non-empty cached URL is yielded with no upload. Otherwise exactly that image is uploaded. The value yielded is recorded for `onSave`. |
| CreateProduct.ProductForm.EndUpload | src/screens/CreateProductScreen.tsx:114-123 | A successful upload caches and yields its URL. A failure is passed on with its status. `uploadingImage` is false afterwards on both paths. |
| CreateProduct.ProductForm.BeginSave | src/screens/CreateProductScreen.tsx:125-141 | The outcome is the result of the form's checks. A refused form shows a message and starts nothing. An accepted one sets `saving` with the checked fields pending. |
| CreateProduct.ProductForm.EndSave | src/screens/CreateProductScreen.tsx:143-168 | When the upload step did not throw, the pending fields are sent with the URL it yielded (or null). Success needs that and a created product. One message either way; `saving` ends false. |
| SubscriptionBlocked.NormalizeCode | src/screens/SubscriptionBlockedScreen.tsx:48 | The normalised code has no white space at either end. |
| SubscriptionBlocked.NormalizeShape | src/screens/SubscriptionBlockedScreen.tsx:48 | The code is as long as the trimmed text, has no lower-case ASCII letter, and keeps every other character. |
| SubscriptionBlocked.NormalizeBlank | src/screens/SubscriptionBlockedScreen.tsx:48-53 | The code is blank exactly when the typed text is all white space. |
| SubscriptionBlocked.NormalizeStable | src/services/billing.ts:24-27 | The second trim in `activateSubscription` is a no-op, and normalising is idempotent. |
| SubscriptionBlocked.ActivationBody | src/services/billing.ts:24-27 | The code `activateSubscription` posts. `NormalizeStable` states that it is the code it was given. |
| SubscriptionBlocked.ActivationForm.constructor | src/screens/SubscriptionBlockedScreen.tsx:32-33 | The form starts with an empty code and not activating. |
| SubscriptionBlocked.ActivationForm.BeginActivate | src/screens/SubscriptionBlockedScreen.tsx:47-58 | A blank code shows a message and sends nothing. Otherwise exactly the normalised code is sent and `activating` is set. |
| SubscriptionBlocked.ActivationForm.EndActivate | src/screens/SubscriptionBlockedScreen.tsx:58-80 | Success clears the expired flag and calls the restored listener exactly once. Failure calls nothing and keeps the flag. `activating` ends false on both paths. |
| MyQr.MenuUrl | src/screens/MyQrScreen.tsx:58-62 | With no restaurant or no id the URL is "". Otherwise it is the web address + `/m/` + the id. |
| MyQr.MenuUrlRoundTrip | src/screens/MyQrScreen.tsx:58-62 | A URL exists exactly when there is an id, and it reads back to that id. |
| MyQr.QrScreen.constructor | src/screens/MyQrScreen.tsx:28-36 | A mounted screen has no restaurant, is loading and is alive. |
| MyQr.QrScreen.Unmount | src/screens/MyQrScreen.tsx:52-54 | Cleanup marks the screen as no longer alive. |
| MyQr.QrScreen.EndLoad | src/screens/MyQrScreen.tsx:36-48 | After unmount, nothing changes. Otherwise the restaurant is set, or cleared with a message, and loading ends. |
| MyQr.QrScreen.CopyLink | src/screens/MyQrScreen.tsx:64-68 | Without a URL, or when the clipboard rejects the write, nothing is copied and nothing is shown. Otherwise exactly the URL is copied and confirmed. |
| MyQr.QrScreen.ShareLink | src/screens/MyQrScreen.tsx:70-79 | Without a URL nothing happens. Otherwise the share message carries the URL, and a failure shows a message. |

## Left out

- **Audio and vibration failures.** These are swallowed by `try/catch`. The model records a vibration or a sound as requested and does not model device errors. The orders screen's own alert (`playNewOrderAlert`, `src/screens/OrdersScreen.tsx:106-146`) is a ghost counter.
- **React plumbing.** This covers `useState` batching, `useMemo`, effects and re-renders. Handlers run on the current state. Effects are the explicit methods `OnFocus`, `OnBlur`, `OnAppActive`, `RestartPolling` and `StopPolling`.
- **Timer callbacks and delays.** Intervals are the `timerActive` slot plus a ghost count of live timers. The 5-second period and the callback queue are not modelled: a tick is a method call.
- **HTTP and external services.** This covers `axios`, the Cloudinary upload (`src/services/upload.ts`), `Clipboard`, `Share` and `getMyRestaurant`. Their outcomes are parameters, including whether the clipboard accepted the write. Error messages are counted, and their text is not modelled.
- **Floating point and money formatting.** `formatPrice`, `toFixed`, and `formatBRL`, whose module is not part of this model, are not modelled.
- **Date parsing.** `createdAt` is the integer timestamp `new Date(createdAt).getTime()` would give. An unparsable date, which gives `NaN` in the comparator, is not modelled.
- CreateProduct.PriceNumber: does not model `Number`'s loss of precision on digit strings longer than 15 digits, because it works on unbounded integers.
- **Case conversion.** `toUpperCase` is modelled for ASCII letters only. Other scripts and special casings, such as `ß` to `SS`, are not modelled.
- **JSON and storage.** Field types read from JSON are not checked at run time. So `soundChoice` is any integer, and a stored user is kept as its JSON text. `soundEnabled` and `vibrationEnabled` are booleans, so a stored `null` or non-boolean value is not modelled. An orders payload is an array or one order. A `null` body, which `listOrders` turns into `[null]` and which then makes `detectNewOrders` throw on `o.id` (`src/screens/OrdersScreen.tsx:163-176`, caught as a load failure), is not modelled. Storage read or write failures are not modelled.
- **The memory token.** The `./token` module (`getMemoryToken`, `setAuthToken`) is not part of this model. The memory token is an input, and the installed token is a field of the auth provider.
- **Axios header normalisation.** The interceptor is modelled over a plain string map. Case-insensitive lookups that an `AxiosHeaders` object may add are not modelled.
- **Thin wrappers.** `src/services/auth.ts`, `src/services/session.ts`, `src/services/products.ts` and `src/services/billing.ts` are HTTP and storage pass-throughs. `src/services/session.ts` installs its token untrimmed, and the auth provider's trimming is not generalised to it. Only billing's extra `trim` appears, in `SubscriptionBlocked.NormalizeStable`.
- **Edit screen.** `src/screens/EditProductScreen.tsx` converts the price with `Number` and no validation.
- **Presentation.** This covers `statusPillStyle`, `LoginScreen`, `App.tsx` routing, theme, JSX and styles. The 402 handling that routes to the blocked screen has no caller in these sources; only the screens' silent return on 402 is modelled.
- **`loadMe`.** The restaurant name on the home screen is display only.
- **Listener re-entrancy.** The subscription notifier's listeners are identities whose calls are logged. A listener that calls back into the notifier is not modelled.
- OrderList.SortOrdersCorrect: does not state that the sort is stable (orders that compare equal keep their relative order). `Array.prototype.sort` is stable, and the insertion used here is stable too, but the property is not proved.
- HomeScreen.HomeState.OnToggleActive: sets `!item.active`, taken from the tapped item, on every entry with that id. It is not a per-entry flip, and that is what the source does.
- HomeScreen.HomeState.PlayNewOrderSound: the sound is loaded only once (`soundRef`), so a sound choice made after the first alert does not change the sound that plays. This is modelled as written.
- **Overlapping async handlers on the same screen.** Examples are a second `onSave` or `onActivate` while the first is pending, or an `onDelete` reload racing another load. `Begin…`/`End…` pairs are modelled one at a time. Only the orders and products loads and the home poll have in-flight guards; the form screens guard only their buttons.
- CreateProduct.ProductForm.BeginSave: requires `!Disabled()`, which only the save button enforces. The price field's keyboard submit (`onSubmitEditing={onSave}`, `src/screens/CreateProductScreen.tsx:246`) runs `onSave` even while a save or upload is pending. The model does not capture the duplicate upload and the duplicate `createProduct` request that this allows.
- SubscriptionBlocked.ActivationForm.BeginActivate: requires `!activating`, which only the button enforces. The code field's keyboard submit (`onSubmitEditing={onActivate}`, `src/screens/SubscriptionBlockedScreen.tsx:151`) runs `onActivate` while an activation is pending. The model does not capture the second activation request that this allows.
- **WhatsApp link.** `openWhatsApp` (`src/screens/SubscriptionBlockedScreen.tsx:35-45`) fetches a link and opens it with `Linking`. It changes no state of the app, so it is not modelled.
- **Overlapping handlers.** Handlers modelled as one method (see above) run to completion in the model. The model does not cover another handler running between their await and their continuation.
- **Console logging.** The `console.log` calls are debugging output with no effect on the app's state, so they are dropped. They are in `src/services/api.ts:25-26`, `src/screens/CreateProductScreen.tsx:103,118,155-157`, `src/screens/MyQrScreen.tsx:41` and `src/screens/SubscriptionBlockedScreen.tsx:40-42,67-69`.
