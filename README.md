# ArtExplorer liked-items store and screen rules, in Dafny

ArtExplorer is a React Native marketplace for creative artwork over a
hosted backend. This project models its one stateful component, the
per-user **liked-items store** (`LikedProvider` in `context/Cartctx.js`).
It also models the small decision rules in the screens that use the store
or post listings.

- `LikedStore` (`liked_store.dfy`): the store. Its behaviour is written as
  pure functions over a `StoreState`. That state is the in-memory map
  `likedItemsByUser` (user id to ordered list of listings) plus the device
  storage it writes through to under `likedItems_<uid>`. `Mutate` gives the
  result of add, remove-by-id and clear. `LoadState` gives the result of a
  load, and `Replay` applies a series of mutations. The class
  `LikedProvider` holds the same state in fields, with the signed-in user
  as a field. Its methods (`AddToLiked`, `RemoveFromLiked`, `ClearLiked`,
  `LoadLikedItems`, `GetLikedItems`) are proved equal to those functions.
  The store's properties are lemmas about the functions.
- `ProductDetails` (`product_details.dfy`): the "Like" button's duplicate-id
  guard and its effect on the store.
- `Home` (`home.dfy`): the gallery filter (category and "not my own
  listing"), the thumbnail choice and the placeholder texts.
- `Sell` (`sell.dfy`): the posting form as a class. It covers the image
  picker, validation, the record written, and the reset after a successful
  post.
- `Signup` (`signup.dfy`) and `Login` (`login.dfy`): the sign-up decision,
  the sign-in guard, the password-reset dialog and the show-password toggle.
- `Seqs`, `Listing` and `Wrappers` hold the shared pieces:
  `Array.prototype.filter` with its lemmas, the listing records, and
  `Option`.

Calls to the backend and to device storage have outcomes the model cannot
see. Each one becomes a boolean input: `writeOk`, `readFails`, `sendOk`.
The signed-in user is a field (`currentUser`) or an `Option<string>`
parameter.

Two behaviours of the code that the model keeps:
- The load runs whenever the signed-in user changes (context/Cartctx.js:15-34).
  It then overwrites that user's in-memory entry with the stored list,
  even if an entry already exists; the store keeps no per-user loaded
  flag. So a user's list comes back intact after switching
  away and back only when it was in step with storage
  (`SwitchBackRestores`). A change whose write failed is lost at that
  reload (`FailedWriteLostOnSwitchBack`).
- The gallery compares `currentUser !== product.userId` strictly
  (screens/Home.js:41). So a signed-out viewer (`null`) is shown even a
  listing that has no `userId` (`undefined`).

## Model

| member | source | states |
|---|---|---|
| `LikedStore.StorageKeyInjective` | context/Cartctx.js:20 | two different user ids never share a `likedItems_<uid>` storage key, so load and save of one user never touch another's key |
| `LikedStore.RemoveIdSpec` | context/Cartctx.js:66 | removing an id keeps exactly the items with a different id, each as many times as before, in their original order (a subsequence); every match is removed |
| `LikedStore.RemoveIdIdempotent` | context/Cartctx.js:66 | removing the same id twice gives the same list as removing it once |
| `LikedStore.RemoveAbsentId` | context/Cartctx.js:66 | removing an id that no item has leaves the list unchanged |
| `LikedStore.MutateCurrentUser` | context/Cartctx.js:49-56 | after a mutation by a signed-in user, their list is the old list (absent counts as `[]`) transformed by that operation, and they now have an entry |
| `LikedStore.AddAppends` | context/Cartctx.js:50-51 | adding makes the list the old list with the item at the end, with no duplicate check; a user with no entry gets `[item]` |
| `LikedStore.MutateSignedOutIsNoop` | context/Cartctx.js:46-47 | with nobody signed in, add, remove and clear leave the map and storage unchanged |
| `LikedStore.MutateIsolatesOtherUsers` | context/Cartctx.js:49-85 | a mutation leaves every other user's in-memory entry and storage key exactly as they were |
| `LikedStore.MutatePersists` | context/Cartctx.js:37-43 | after a mutation whose write succeeded, storage under `likedItems_<uid>` holds exactly the new in-memory list |
| `LikedStore.ClearIdempotent` | context/Cartctx.js:76-86 | clearing leaves the signed-in user's list empty; clearing twice gives the same state as clearing once |
| `LikedStore.LoadEffect` | context/Cartctx.js:15-34 | a load with a signed-in user, a successful read and a stored list installs that list as the user's entry; in every other case nothing changes; other users and storage are never changed |
| `LikedStore.ReplayNetEffect` | context/Cartctx.js:45-86 | for any series of add, remove and clear by one user, their list is the net effect of the operations applied in order |
| `LikedStore.ReplayIsolatesOtherUsers` | context/Cartctx.js:45-86 | whatever one user (or nobody) does, every other user's entry in memory and in storage is unchanged |
| `LikedStore.MutateSyncs` | context/Cartctx.js:49-56 | a mutation whose write succeeds leaves the user's in-memory list and stored list equal |
| `LikedStore.LoadSyncs` | context/Cartctx.js:20-25 | a successful load of a stored list leaves the user's in-memory list and stored list equal |
| `LikedStore.RunIsolatesOtherUsers` | context/Cartctx.js:15-86 | any trace of loads and mutations by other identities (or nobody) leaves a user's in-memory entry and stored list exactly as they were |
| `LikedStore.SwitchBackRestores` | context/Cartctx.js:15-34 | if a user's list was in step with storage, then after any trace of loads and mutations by other identities (or nobody), their own sign-in loads included, the reload on signing back in gives the user exactly the list they had |
| `LikedStore.FailedWriteLostOnSwitchBack` | context/Cartctx.js:22-25 | an addition whose write failed is replaced by the stored list when the user switches away and back: `[x]` in memory becomes `[]` after the reload |
| `LikedStore.RestartRoundTrip` | context/Cartctx.js:15-58 | after at least one mutation with successful writes, a restart (empty map, same storage) and a load give the user back exactly the list they had |
| `LikedStore.ExampleScenario` | context/Cartctx.js:45-86 | the worked example: add p1, add p2, remove p1 and clear give `[p1]`, `[p1, p2]`, `[p2]` and `[]` |
| `LikedStore.LikedProvider.constructor` | context/Cartctx.js:10 | the provider starts with an empty map over the device's existing storage |
| `LikedStore.LikedProvider.SetCurrentUser` | context/Cartctx.js:11-12 | the identity the store reads is replaced (sign-in, sign-out, switch) |
| `LikedStore.LikedProvider.GetLikedItems` | context/Cartctx.js:89-92 | returns `[]` when nobody is signed in, the user's entry when there is one, and `[]` otherwise |
| `LikedStore.LikedProvider.SaveLikedItems` | context/Cartctx.js:37-43 | a successful write stores the list under `likedItems_<uid>`; a failed one changes nothing |
| `LikedStore.LikedProvider.LoadLikedItems` | context/Cartctx.js:15-34 | the new state is `LoadState` of the old one |
| `LikedStore.LikedProvider.AddToLiked` | context/Cartctx.js:46-58 | the new state (map and storage) is `Mutate` of the old one with `Add(item)` |
| `LikedStore.LikedProvider.RemoveFromLiked` | context/Cartctx.js:61-73 | the new state is `Mutate` of the old one with `Remove(id)` |
| `LikedStore.LikedProvider.ClearLiked` | context/Cartctx.js:76-86 | the new state is `Mutate` of the old one with `Clear` |
| `ProductDetails.ContainsId` | screens/ProductDetails.js:18 | true iff some liked item has the product's id; no other field is compared |
| `ProductDetails.LikeDecision` | screens/ProductDetails.js:18-23 | the press is refused as "already in Liked" iff some liked item has the same id; otherwise the product is added |
| `ProductDetails.GuardedAddKeepsIdsDistinct` | screens/ProductDetails.js:18-23 | if ids are distinct before a guarded press they stay distinct; the list grows by 0 for a known id and by 1 for a new one, and then contains the id |
| `ProductDetails.SignedOutPressIsNoop` | screens/ProductDetails.js:16-23 | signed out, the guard sees an empty list and lets the press through, and the store ignores it |
| `ProductDetails.HandleAddToLiked` | screens/ProductDetails.js:16-28 | a known id leaves the store unchanged; otherwise the store does exactly one add; the user's list becomes the guarded append; distinct ids stay distinct |
| `Home.FilteredProductsSpec` | screens/Home.js:39-44 | a listing is shown iff it is in the feed, its category matches the selection or the selection is 'All Categories', and the viewer did not post it; each shown listing appears as many times as in the feed, and the feed's order is kept |
| `Home.OwnProductsNeverShown` | screens/Home.js:41 | no shown listing has the signed-in viewer's uid as its `userId` |
| `Home.AllCategoriesIgnoresCategory` | screens/Home.js:40 | with 'All Categories', only the ownership test applies; a signed-out viewer sees the whole feed |
| `Home.FindImage` | screens/Home.js:48 | the thumbnail is the first entry that is a string ending in `.jpeg`, `.jpg`, `.gif` or `.png`; none is found iff no entry qualifies |
| `Home.ImageSuffixIsCaseSensitive` | screens/Home.js:48 | `art.png` is an image uri; `art.PNG` and `art.png?x=1` are not |
| `Home.CardFallbacks` | screens/Home.js:46-79 | card texts are never empty; a missing or empty artist, description or category shows 'No Artist Name', 'No Description' or 'No Category'; the "No Image Available" placeholder shows iff `imageUris` is missing or has no image uri |
| `Home.PostedListingHiddenFromAuthor` | screens/Home.js:39-44 | a listing posted by a user is never in that user's gallery, whatever the category |
| `Home.PostedListingRendersOwnFields` | screens/Home.js:66-77 | a listing posted through the form shows its own artist, description and category, and has a thumbnail when one of its uris is an image uri |
| `Sell.ImageUris` | screens/Sell.js:40 | the record's `imageUris` has one entry per picked image, in order, each that image's `uri` |
| `Sell.SubmitDecisionSpec` | screens/Sell.js:30-56 | "Please fill in all fields." iff description, images, category or artist name is empty; a record is written iff all are present, a user is signed in and the write succeeds; it carries the texts unchanged, the uris in order and the poster's id |
| `Sell.PostedRecordIsComplete` | screens/Sell.js:31-43 | a written record has non-empty texts and at least one image uri |
| `Sell.SellForm.constructor` | screens/Sell.js:11-14 | the form opens with `''`, '3D Art', `''` and no images |
| `Sell.SellForm.HandleImagePick` | screens/Sell.js:16-28 | a cancelled pick leaves the images; otherwise they are replaced (not appended) by the picked assets, or by `[]` when there are none |
| `Sell.SellForm.HandleSubmit` | screens/Sell.js:30-56 | the outcome is `SubmitDecision` of the form; after a successful write the form is back in its opening state; on any other outcome no field changes |
| `Signup.HandleSignupSpec` | screens/Signup.js:18-34 | an empty field gives "Please fill out all fields." and takes priority over a mismatch; with all fields filled, unequal passwords give "Your passwords do not match."; otherwise an account is requested with exactly the email and password |
| `Signup.FullNameNotPassed` | screens/Signup.js:19-23 | which non-empty full name was typed does not change the outcome: the name is not passed to account creation |
| `Login.HandleLoginSpec` | screens/Login.js:18-30 | sign-in is attempted, with exactly the typed email and password, iff both are non-empty; otherwise "Please fill out all fields." |
| `Login.ResetDecision` | screens/Login.js:36-49 | an empty reset address gives "Please enter your email address."; the reset counts as sent iff the address is non-empty and the send succeeds |
| `Login.LoginScreen.constructor` | screens/Login.js:12-16 | the screen opens with empty fields, the password hidden and the dialog closed |
| `Login.LoginScreen.ToggleShowPassword` | screens/Login.js:73-76 | the eye icon flips `showPassword` |
| `Login.LoginScreen.HandleForgotPassword` | screens/Login.js:32-34 | "Forgot Password?" only opens the dialog |
| `Login.LoginScreen.CancelDialog` | screens/Login.js:106 | Cancel hides the dialog and keeps the typed reset address |
| `Login.LoginScreen.HandleSendPasswordResetEmail` | screens/Login.js:36-49 | a successful send hides the dialog and clears the address; an empty address or a failed send changes neither |
| `Login.ToggleTwice` | screens/Login.js:75 | toggling `showPassword` twice restores its value |

## Left out

- JSON encoding in device storage (`JSON.stringify` / `JSON.parse`, context/Cartctx.js:24, 39). Storage holds the lists themselves, so a stored list always decodes to itself. A corrupt stored value that `JSON.parse` would reject is not modelled.
- Asynchrony. Reads and writes are modelled as finishing before the next event. So the model does not capture a load finishing after an add and overwriting it, saves issued from inside React state updaters, or two quick presses that both see the same liked-list snapshot and add twice.
- Backend calls (`addDoc`, `onSnapshot`, `createUserWithEmailAndPassword`, `signInWithEmailAndPassword`, `sendPasswordResetEmail`). Their success or failure is an input. What they do on the backend is outside the model.
- Alerts, navigation (`navigation.navigate`, `goBack`), the greeting text after sign-up, and logging. The alert messages that decide an outcome are kept as constants in the outcomes.
- The text-field setters (`onChangeText`), the category pickers' lists of values, the sign-up screen's own show-password toggles, image picking itself, modals, `FlatList` layout and all styles.
- screens/Ads.js, screens/Profile.js, screens/Welcome.js, screens/Liked.js and navigation/appNavigation.js. They subscribe to the backend, render, or navigate, and have no rules of their own beyond calling the store.
- LikedStore.ReplayIsolatesOtherUsers: does not promise that a user's list survives switching away and back. The code reloads on every user change, so an in-memory change whose write failed is replaced by the stored list (`LikedStore.FailedWriteLostOnSwitchBack`); survival is proved only for a list in step with storage (`LikedStore.SwitchBackRestores`).
- `Sell.SellForm.HandleSubmit`: with nobody signed in, reading `auth.currentUser.uid` throws outside the `try`. This is modelled as the outcome `NoUser`: nothing is written and the form is unchanged. The unhandled rejection itself is not modelled.
- Listings are records with the fields the app writes. A field holding a non-string value, which JavaScript's `||` would show as is, is not modelled; only `imageUris` entries may be non-strings.
