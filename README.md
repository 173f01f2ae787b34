# shop-system storefront, modelled in Dafny

This project models the client-side logic of a small kiosk storefront
written in React. The storefront has:

- a product grid with add-to-cart and per-product price and cost editors;
- a cart summary with a total, a badge and an empty state;
- category checkboxes and a free-text search, which both overwrite the list the grid shows;
- a quantity stepper;
- a product-creation form that builds a local image path;
- a client-side guard in front of an unsigned Cloudinary upload;
- an authentication session shared through a context, and a route guard that reads it.

Two rules carry through the model. State that a component updates step by step
becomes a Dafny `class` whose methods say how the new state relates to the old
one. Code that only computes becomes functions and lemmas.

- The cart lines are objects (`Cart.Line`) held in a sequence (`Cart.Cart.lines`).
  So the model shows that a repeat add mutates the existing line in place.
  Because the snapshot copy is shallow, the older snapshot sees that change too.
- Collaborators cannot be seen from this code. Their answers become parameters:
  - the product store and the identity provider give a success or failure outcome;
  - the upload host gives its response;
  - the clock gives a timestamp;
  - `parseFloat` is a function passed in.
- Prices and costs are integers, standing for cents.
- Each synchronous event handler is one atomic step.
- A handler that awaits reads the state captured when it was started:
  - a price or cost save is a function of the state at the click and the state when the answer arrives;
  - the product form's submission is two steps (`StartSubmit` and `FinishSubmit`),
    so that its loading flag and its captured form can be seen while it runs.

Modules, one per source file where the source has one:

- `Wrappers`: `Option`, `Result` and `Outcome`.
- `JsText`: the JavaScript string operations used: `toLowerCase`, `includes`, `\s`,
  and number-to-string.
- `Sequences`: `Array.prototype.filter` and the subsequence relation.
- `Catalog`, `Cart`, `Browser`: the entities (product, cart line, selected file).
- `ItemListContainer`, `Calculator`, `FiltersMenu`, `SearchBar`, `Home`, `Count`, `ProductForm`,
  `ImageUpload`, `CloudinaryUpload`, `AuthContext`, `ProtectedRoute`: the components and services.

## Model

| member | source | states |
|---|---|---|
| ItemListContainer.SelectedCount | src/components/ItemListContainer/ItemListContainer.jsx:21 | the count used is the stored count unless it is absent or 0, and then 1; it is never 0 |
| ItemListContainer.FindIndex | src/components/ItemListContainer/ItemListContainer.jsx:19 | the result is -1 exactly when no line has the id; otherwise it is the first position holding the id |
| ItemListContainer.Merge | src/components/ItemListContainer/ItemListContainer.jsx:24-25 | a repeat add raises the line price by `product.price * count` and the quantity by `count`, and changes no other field (the unit price stays) |
| ItemListContainer.AddToCart | src/components/ItemListContainer/ItemListContainer.jsx:19-33 | an add grows the cart by one line exactly when the id was absent; afterwards some line has the product id; every line with another id is unchanged |
| ItemListContainer.AddAbsentAppends | src/components/ItemListContainer/ItemListContainer.jsx:26-32 | adding a product whose id is absent appends exactly one line: the product's fields, `quantity = count`, `price = product.price * count`, `unitPrice = product.price` |
| ItemListContainer.AddPresentMerges | src/components/ItemListContainer/ItemListContainer.jsx:19-25 | adding a product already in the cart keeps the length, adds `product.price * count` to the first matching line's price and `count` to its quantity, keeps its unit price, and leaves every other line unchanged |
| ItemListContainer.AddGrowsByAtMostOne | src/components/ItemListContainer/ItemListContainer.jsx:19-33 | an add grows the cart by at most one line, and the ids become the old ids plus the product's id |
| ItemListContainer.AddKeepsIdsUnique | src/components/ItemListContainer/ItemListContainer.jsx:19-33 | if no id appears twice before an add, none does after it |
| ItemListContainer.AddRaisesTotal | src/components/ItemListContainer/ItemListContainer.jsx:24-30 | whichever branch is taken, the cart total rises by `product.price * count` |
| ItemListContainer.AddKeepsQuantitiesPositive | src/components/ItemListContainer/ItemListContainer.jsx:25-29 | with a positive count, every line quantity stays at least 1 |
| ItemListContainer.SelectedCountPositive | src/components/ItemListContainer/ItemListContainer.jsx:21 | when every stored count is at least 1, the count an add uses is at least 1 |
| ItemListContainer.MergeAtSamePriceStaysConsistent | src/components/ItemListContainer/ItemListContainer.jsx:24-25 | a repeat add keeps `price == unitPrice * quantity` when the catalog price equals the line's unit price |
| ItemListContainer.PriceDriftsWhenCatalogPriceChanges | src/components/ItemListContainer/ItemListContainer.jsx:24-31 | for any product, any two non-zero counts and any second catalog price that differs from the first, two adds give one line whose price is `p1 * c1 + p2 * c2` and whose unit price stays `p1`, so `price != unitPrice * quantity` |
| ItemListContainer.AddTwiceMerges | src/components/ItemListContainer/ItemListContainer.jsx:18-35 | adding 2 and then 3 units of one product to an empty cart gives one line of 5 units |
| ItemListContainer.BadgeCountsLinesNotUnits | src/components/Calculator/Calculator.jsx:30-31 | three units of one product still show a badge of 1 |
| ItemListContainer.FindLine | src/components/ItemListContainer/ItemListContainer.jsx:19 | searching the line objects gives the same index as `FindIndex` over their values |
| ItemListContainer.MergeLineAt | src/components/ItemListContainer/ItemListContainer.jsx:24-25 | the line object at the index is changed in place to its merged value, and no other line changes |
| ItemListContainer.PushNewLine | src/components/ItemListContainer/ItemListContainer.jsx:27-32 | one fresh line object is pushed after the unchanged old ones |
| ItemListContainer.HandleAddProducts | src/components/ItemListContainer/ItemListContainer.jsx:18-35 | the new cart value is `AddToCart` of the old value with the selected count; the old line objects are kept as a prefix; the old snapshot's objects show the new values (the shallow-copy aliasing) |
| ItemListContainer.HandleChangeCount | src/components/ItemListContainer/ItemListContainer.jsx:38-43 | only the product's entry of `productCounts` is overwritten; every other map and entry is unchanged |
| ItemListContainer.HandleChangePrice | src/components/ItemListContainer/ItemListContainer.jsx:46-51 | only the product's price draft is overwritten; everything else is unchanged |
| ItemListContainer.HandleChangeCostPrice | src/components/ItemListContainer/ItemListContainer.jsx:72-77 | only the product's cost draft is overwritten; everything else is unchanged |
| ItemListContainer.ToggleChangePrice | src/components/ItemListContainer/ItemListContainer.jsx:54-59 | the product's price editor flips, with an absent entry read as closed; every other entry and map is unchanged |
| ItemListContainer.ToggleChangeCostPrice | src/components/ItemListContainer/ItemListContainer.jsx:80-85 | the product's cost editor flips, with an absent entry read as closed; every other entry and map is unchanged |
| ItemListContainer.ToggleAffectsOnlyItsProduct | src/components/ItemListContainer/ItemListContainer.jsx:54-85 | a toggle for one product leaves another product's editors as they were |
| ItemListContainer.FirstToggleOpensSecondCloses | src/components/ItemListContainer/ItemListContainer.jsx:57 | from the initial state the first toggle opens the editor and the second closes it |
| ItemListContainer.ChangePrice | src/components/ItemListContainer/ItemListContainer.jsx:62-69 | the update carries the price draft as it was at the click; on success the price editor map becomes the click-time map with the product flipped, and every other part of the state is as it is when the answer arrives; on failure the current state is kept and the alert is "Error updating price." |
| ItemListContainer.ChangeCostPrice | src/components/ItemListContainer/ItemListContainer.jsx:88-95 | the same for the cost draft and the cost editor map, with the alert "Error updating cost price." |
| ItemListContainer.SaveClosesOnlyOnSuccess | src/components/ItemListContainer/ItemListContainer.jsx:62-95 | with nothing else happening meanwhile, a save from an open editor closes it exactly when the update succeeds, whatever the other editor's state; the other editor is untouched; an alert is raised exactly when the update fails; the drafts are kept |
| ItemListContainer.PendingSaveUndoesOtherToggle | src/components/ItemListContainer/ItemListContainer.jsx:54-65 | a toggle of another product's price editor made while an update is pending is undone when it succeeds, and the draft sent is the one at the click, not one typed meanwhile |
| ItemListContainer.PendingCostSaveUndoesOtherToggle | src/components/ItemListContainer/ItemListContainer.jsx:80-91 | the same for the cost editors |
| Cart.NewLine | src/components/ItemListContainer/ItemListContainer.jsx:27-32 | a new line copies the product's fields and has `price == unitPrice * quantity` |
| Calculator.TotalPrice | src/components/Calculator/Calculator.jsx:15-17 | the total of lines whose prices are all non-negative is non-negative, and it is 0 when every price is 0 |
| Calculator.TotalIsSumOfPrices | src/components/Calculator/Calculator.jsx:15-17 | the left fold of `reduce` equals the sum of every line's price, and is 0 for an empty cart |
| Calculator.TotalUpdate | src/components/Calculator/Calculator.jsx:15-17 | replacing one line changes the total by exactly the change in that line's price |
| Calculator.TotalReadsOnlyPrices | src/components/Calculator/Calculator.jsx:16 | two carts with the same line prices have the same total, whatever their quantities and unit prices |
| Calculator.Badge | src/components/Calculator/Calculator.jsx:30-31 | the badge is shown exactly when there is a line, and then shows the number of lines |
| Calculator.ViewsAreExclusive | src/components/Calculator/Calculator.jsx:30-101 | exactly one of the empty state and the footer is shown, and the badge appears exactly with the footer |
| FiltersMenu.FilterCategory | src/components/Filters/FiltersMenu.jsx:18-27 | the key is the lower-cased checkbox value and is set to the checked flag; every other key keeps its value |
| FiltersMenu.Passes | src/components/Filters/FiltersMenu.jsx:31-37 | with no keys every product passes; with keys, a product whose lower-cased category is absent fails, and otherwise it passes iff its entry is true |
| FiltersMenu.CategoryFiltered | src/components/Filters/FiltersMenu.jsx:29-41 | the stored list is no longer than the catalog, holds only catalog products that pass, and holds every catalog product that passes |
| FiltersMenu.EmptySelectionShowsAll | src/components/Filters/FiltersMenu.jsx:32-35 | with no keys in the selection, the filtered list is the whole catalog |
| FiltersMenu.NonEmptySelectionKeepsChecked | src/components/Filters/FiltersMenu.jsx:36 | with keys, a product is kept iff the entry for its lower-cased category is true, and every copy of it is kept |
| FiltersMenu.CategoryFilteredIsSubsequence | src/components/Filters/FiltersMenu.jsx:31-37 | the filtered list is always an order-preserving subsequence of the catalog |
| FiltersMenu.CheckedThenUncheckedHidesAll | src/components/Filters/FiltersMenu.jsx:23-36 | checking and then unchecking one box leaves one key, set to false, and the filtered list is empty |
| FiltersMenu.AllUncheckedHidesAll | src/components/Filters/FiltersMenu.jsx:32-36 | a non-empty selection whose values are all false hides every product |
| SearchBar.Matches | src/components/Filters/SearchBar.jsx:18-21 | a product matches when the text is included in its lower-cased name or in its lower-cased category (see `SearchKeepsExactlyMatches` for the positional reading) |
| SearchBar.SearchProduct | src/components/Filters/SearchBar.jsx:13-23 | the stored search text is the lower-cased typed text, and the result is no longer than the catalog |
| SearchBar.SearchKeepsExactlyMatches | src/components/Filters/SearchBar.jsx:18-21 | a product is in the result iff it is in the catalog and the lower-cased text occurs at some position of its lower-cased name or lower-cased category |
| SearchBar.SearchKeepsEveryCopy | src/components/Filters/SearchBar.jsx:18-21 | every copy of a matching product is kept, and no copy of any other |
| SearchBar.SearchIsSubsequence | src/components/Filters/SearchBar.jsx:18-21 | the result is an order-preserving subsequence of the catalog |
| SearchBar.EmptySearchMatchesAll | src/components/Filters/SearchBar.jsx:18-21 | empty text matches every product |
| SearchBar.SearchIgnoresCase | src/components/Filters/SearchBar.jsx:14 | typing the text already in lower case gives the same result |
| SearchBar.ClearSearch | src/components/Filters/SearchBar.jsx:25-28 | clearing sets the text to "" and the stored list to empty |
| JsText.IncludesIffOccurs | src/components/Filters/SearchBar.jsx:19-20 | `includes` holds iff the text occurs at some position |
| JsText.LowerIdempotent | src/components/Filters/SearchBar.jsx:14 | lower-casing twice is lower-casing once |
| Home.VisibleProducts | src/pages/Home.jsx:48-60 | the grid shows `filterProducts` when it is non-empty, otherwise the catalog; it is empty only when the catalog is |
| Home.Apply | src/components/Filters/FiltersMenu.jsx:29-41 | only a catalog reload changes the catalog; a clear empties the stored list; after any write the stored list is no longer than the catalog |
| Home.ZeroMatchSearchShowsCatalog | src/pages/Home.jsx:48-60 | a search with no match shows the whole catalog |
| Home.MatchingSearchShowsMatches | src/pages/Home.jsx:48-50 | a search with a match shows exactly the matches |
| Home.CheckedThenUncheckedShowsCatalog | src/pages/Home.jsx:48-60 | a box checked and then unchecked empties the filtered list, so the grid shows the catalog |
| Home.FormNeedsAuthentication | src/pages/Home.jsx:23-35 | the form is shown only with the toggle, neither is shown unauthenticated, and the toggle flips the form when authenticated |
| Home.ApplyKeepsConsistent | src/pages/Home.jsx:11-60 | every write to `filterProducts`, whether from the checkbox effect, a search keystroke, a clear or a catalog reload, keeps it a subsequence of the catalog |
| Home.VisibleIsDrawnFromCatalog | src/pages/Home.jsx:48-60 | in such a state the rendered list is drawn from the catalog in order, and is empty iff the catalog is |
| Count.RunStaysPositive | src/components/Count/Count.jsx:5-23 | from 1 or above the count stays at 1 or above under any presses |
| Count.Step | src/components/Count/Count.jsx:11-23 | plus raises the count by 1; minus lowers it by 1 above 1 and leaves it at 1 or below; from 1 or above the count stays at 1 or above |
| Count.Run | src/components/Count/Count.jsx:11-23 | after `n` presses the count is within `n` of where it started |
| Count.Stepper.constructor | src/components/Count/Count.jsx:5 | the state starts at the `count` prop |
| Count.RunMovesAtMostOnePerPress | src/components/Count/Count.jsx:11-23 | `n` presses move the count by at most `n` |
| Count.MinusFloorsAtOne | src/components/Count/Count.jsx:17-23 | `n` presses of minus from a positive count end at `max(count - n, 1)` |
| Count.Stepper.SyncFromProp | src/components/Count/Count.jsx:7-9 | a new `count` prop overwrites the state |
| Count.Stepper.AddCount | src/components/Count/Count.jsx:11-15 | the count rises by exactly 1 and the new value is reported |
| Count.Stepper.LessCount | src/components/Count/Count.jsx:17-23 | above 1 the count falls by 1 and is reported; at 1 or below nothing changes and nothing is reported |
| ProductForm.SetField | src/components/ProductForm/ProductForm.jsx:17-22 | only the named field takes the new value; the other three are unchanged |
| ProductForm.BuildRecord | src/components/ProductForm/ProductForm.jsx:42-49 | the record copies category and name, sets `subCategory` to the category, parses price and cost, and points `img` at the helper's path |
| ProductForm.Submit | src/components/ProductForm/ProductForm.jsx:33-69 | a record is sent iff a file is selected; on success the form resets, the file clears, the parent is notified if it gave a callback, and the alert holds the helper's message; on any failure form and file are unchanged, nobody is notified, and the alert is "Error al crear el producto." |
| ProductForm.RecordPointsAtImage | src/components/ProductForm/ProductForm.jsx:39-49 | the record sent points at "/images/products/" followed by the timestamped, whitespace-free file name |
| ProductForm.NoFileNothingSent | src/components/ProductForm/ProductForm.jsx:39 | without a selected file nothing is sent, the form is not cleared, nobody is notified and the alert is "Error al crear el producto." |
| ProductForm.ResubmitNeedsNewFile | src/components/ProductForm/ProductForm.jsx:39-59 | after a success the file is cleared, so a second submission without a new file sends nothing and fails |
| ProductForm.Form.constructor | src/components/ProductForm/ProductForm.jsx:7-14 | the form starts with four empty fields, no file and loading off |
| ProductForm.Form.HandleChange | src/components/ProductForm/ProductForm.jsx:17-22 | the form becomes `SetField` of the old form |
| ProductForm.Form.HandleImageChange | src/components/ProductForm/ProductForm.jsx:25-30 | a selected file replaces the old one; an empty selection keeps it |
| ProductForm.Form.StartSubmit | src/components/ProductForm/ProductForm.jsx:33-39 | loading goes up, the submit button is disabled, and the handler holds the form and the file as they are at the click |
| ProductForm.Form.FinishSubmit | src/components/ProductForm/ProductForm.jsx:37-68 | the record, alert and notification are `Submit` of the values captured at the click; a success resets the form and clears the file; a failure keeps whatever the form holds now, including edits made meanwhile; loading comes down on every path |
| ImageUpload.UploadImage | src/utils/imageUpload.js:3-19 | no file gives "No file provided"; otherwise the file name is `FileName(timestamp, name)`, the path is "/images/products/" plus it, and the message is the instruction plus it |
| ImageUpload.CleanFileName | src/utils/imageUpload.js:8 | the cleaned name is no longer than the name, and empty exactly when the name is |
| ImageUpload.FileName | src/utils/imageUpload.js:9 | the file name is the timestamp's digits, then "_", then the cleaned name |
| ImageUpload.CleanRemovesWhitespace | src/utils/imageUpload.js:8 | the cleaned name contains no whitespace |
| ImageUpload.CleanKeepsNamesWithoutWhitespace | src/utils/imageUpload.js:8 | a name without whitespace is unchanged |
| ImageUpload.CleanAppend | src/utils/imageUpload.js:8 | cleaning distributes over a cut that follows a non-whitespace character |
| ImageUpload.CleanCollapsesRun | src/utils/imageUpload.js:8 | a whole whitespace run followed by a non-space becomes a single "_" |
| ImageUpload.DropWhitespaceDropsLeadingRun | src/utils/imageUpload.js:8 | skipping a run removes a prefix made only of whitespace and keeps the rest |
| ImageUpload.FileNameHasNoWhitespace | src/utils/imageUpload.js:7-9 | the timestamped file name contains no whitespace |
| ImageUpload.UploadedNameIsEmbedded | src/utils/imageUpload.js:9-19 | the returned file name is the tail of the path and of the message, starts with the timestamp and "_", and holds no whitespace |
| CloudinaryUpload.Validate | src/services/cloudinaryUpload.js:4-31 | validation passes iff a file is given, cloud name and preset are non-empty, the size is at most 2 MiB and the type starts with "image/"; the request goes to `base/cloudName/image/upload` in folder "products" |
| CloudinaryUpload.BaseUrl | src/services/cloudinaryUpload.js:8 | an unset or empty base address falls back to the public API address |
| CloudinaryUpload.ToImage | src/services/cloudinaryUpload.js:54-60 | `secure_url` becomes `url`, `public_id` becomes `publicId`, and width, height and format are copied |
| CloudinaryUpload.UploadProductImage | src/services/cloudinaryUpload.js:4-60 | a request is sent iff validation passes; a refusal carries the guard's message; a non-ok answer becomes "Cloudinary upload failed: " followed by its text; an ok answer is mapped by `ToImage` |
| CloudinaryUpload.MissingFileFirst | src/services/cloudinaryUpload.js:4 | a missing file is refused first, whatever the settings |
| CloudinaryUpload.MissingSettingsBeforeFileChecks | src/services/cloudinaryUpload.js:20-22 | missing settings are refused whatever the file's size and type |
| CloudinaryUpload.SizeCheckedBeforeType | src/services/cloudinaryUpload.js:26-31 | an oversized file is refused as too large even when its type is also wrong |
| CloudinaryUpload.SizeLimitIsInclusive | src/services/cloudinaryUpload.js:25-28 | exactly 2097152 bytes passes and 2097153 bytes is refused |
| CloudinaryUpload.NonImageRefused | src/services/cloudinaryUpload.js:29-31 | an acceptable size with a non-image type is refused, and nothing is sent |
| CloudinaryUpload.GuardFailureIgnoresHost | src/services/cloudinaryUpload.js:4-40 | when a guard fails nothing is sent, and the outcome does not depend on the host |
| CloudinaryUpload.DefaultAddress | src/services/cloudinaryUpload.js:8-40 | with an empty base setting the request goes to "https://api.cloudinary.com/v1_1/" + cloud name + "/image/upload" |
| AuthContext.Step | src/contexts/AuthContext.jsx:11-39 | an auth change sets the user and ends loading; a successful sign-in stores the user; a successful sign-out clears it; sign-in and sign-out never touch loading; failures change nothing |
| AuthContext.Replay | src/contexts/AuthContext.jsx:11-39 | when the last event is an auth change, the session is that event's user with loading over, whatever came before |
| AuthContext.LoadingStaysOver | src/contexts/AuthContext.jsx:12-15 | once loading is over it never starts again |
| AuthContext.LoadingUntilFirstAuthChange | src/contexts/AuthContext.jsx:8-51 | from the initial state, loading (and so hiding the children) lasts exactly until the first auth-change event |
| AuthContext.SignInThenOutLeavesNoUser | src/contexts/AuthContext.jsx:21-46 | a successful sign-in authenticates the session with that user, and a successful sign-out afterwards ends it |
| AuthContext.AuthProvider.constructor | src/contexts/AuthContext.jsx:7-8 | the session starts with no user and loading |
| AuthContext.AuthProvider.OnAuthChange | src/contexts/AuthContext.jsx:12-15 | the user becomes the event's user and loading ends |
| AuthContext.AuthProvider.Login | src/contexts/AuthContext.jsx:21-29 | on success the user is stored and returned; a failure is passed on and the user is unchanged |
| AuthContext.AuthProvider.Logout | src/contexts/AuthContext.jsx:32-39 | on success the user is cleared; a failure is passed on and the user is unchanged |
| ProtectedRoute.Decide | src/components/ProtectedRoute/ProtectedRoute.jsx:11-29 | the loading view appears iff loading; the redirect appears iff not loading and not authenticated, going to "/login" with `replace` and the current location as `from`; the children appear iff not loading and authenticated |
| ProtectedRoute.Guard | src/components/ProtectedRoute/ProtectedRoute.jsx:11-29 | for a session, the loading view appears iff loading, the page iff not loading with a user, and otherwise the redirect to "/login" with `replace` and the current location |
| ProtectedRoute.LoadingIgnoresUser | src/components/ProtectedRoute/ProtectedRoute.jsx:11-22 | while loading the loading view is shown, with or without a user |
| ProtectedRoute.LoadingViewUnreachableInsideProvider | src/contexts/AuthContext.jsx:51 | a guard rendered by the provider never shows its loading view, and renders its page iff there is a user |
| ProtectedRoute.PageShownAfterEvents | src/components/ProtectedRoute/ProtectedRoute.jsx:11-29 | from the initial session, a guarded page is rendered iff an auth-change event has arrived and the session holds a user |

The edit toggles in the grid need no sign-in. `ItemListContainer`'s functions
take no authentication argument, because the component never reads the
`isAuthenticated` prop that `Home` passes it (src/pages/Home.jsx:52).

A guard placed inside the provider can never show its own loading view
(`ProtectedRoute.LoadingViewUnreachableInsideProvider`). This is because the
provider renders nothing until loading is over.

## Left out

- Floating point. Prices, costs and their sums are integers, standing for cents. `parseFloat` is a function parameter that yields a number or NaN. The price and cost editors send the raw draft, and the model does not parse it.
- Asynchrony. A save in the grid is one function of the state at the click and the state when the answer arrives, and the product form's submission has two steps. Two overlapping saves whose answers interleave, and the order in which React applies queued updates, are not modelled.
- ProductForm.Form.StartSubmit: the handler itself does not test the flag. The submit button is disabled while loading, and the model does not stop a second submission.
- The Firebase calls behind the product store and the identity provider are foreign code. src/services/products.js uses `doc` and `updateDoc` without importing them. It defines no `createProduct`. src/services/auth.js defines `login` only, and no `logout` or `onAuthChange`. All of these become outcome parameters.
- The `fetch` and `FormData` plumbing of the Cloudinary upload, the parsing of the answer's JSON and the `console.log` calls are network and debugging code. The answer is a parameter.
- `ProductsContext` is not part of this model. That leaves out how `cartProducts`, `products` and `filterProducts` are stored and shared, and also `removeProductCart` and `refreshProducts`.
- The modal's open/close flag in the cart summary (`handleShow`/`handleClose`) is not modelled. It only chooses whether the trigger button or the modal is drawn.
- The login page (src/components/Login/Login.jsx) is not part of this model.
- JSX rendering, styles, icons and component wiring beyond the view choices above.
- JsText.Lower: `toLowerCase` is modelled on ASCII and Latin-1 capitals only. Other scripts and the special cases of Unicode case mapping are left as they are.
- Property lookup on plain objects: a key such as `constructor` would find an inherited property in JavaScript. The maps here hold only their own keys.
- ItemListContainer.SelectedCount: only the number 0 is treated as falsy. Stored counts are integers, so NaN does not arise.
- Pagination does not appear in any of the modelled files.
