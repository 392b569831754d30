# Business directory store, in Dafny

This project models the in-memory store behind the business directory page.
The page's top-level component (`App.tsx`) keeps four pieces of state:

- the ordered list of businesses;
- the active category filter (`'all'` or one category);
- the business waiting for its deletion to be confirmed;
- whether the "add business" dialog is open.

Its handlers change that state:

- adding prepends a new record with a new id;
- a confirmed delete filters out every record with the pending record's id;
- cancelling clears the pending record;
- choosing a filter changes the category view.

The add dialog's submit handler checks that name, location and description are not blank after trimming. It turns blank phone and website fields into absent values. The data types come from `types.ts`.

The modules follow that structure:

- `Wrappers`: `Option` and `Result`.
- `Types` (`types.ts`): the closed `Category` enum and its string values, the filter value `'all' | Category`, and the `Business` record. `NewBusiness` is the record without its id, i.e. `Omit<Business, 'id'>`.
- `Lists`: `Keep`, the order-preserving `Array.prototype.filter`, and the subsequence relation it is specified by.
- `Directory`: the pure list transforms of `App.tsx`. These are the prepend `[newBusiness, ...prev]`, the filter by id, and the category view `filteredBusinesses`. It also holds the clock-stamped add as the source writes it.
- `AddForm`: `String.prototype.trim` over ECMAScript's white-space and line-terminator characters, and the add dialog's `handleSubmit` gate as a function from the six field values to either the payload or the error message.
- `App`: the seed list `initialBusinesses`, and the component state as the class `Store`, whose methods are the handlers.

Ids come from a counter field `Store.nextId` that is kept above every id in use. The source uses `Date.now()` instead (see "## Findings"). The store's invariant `Valid()` is that ids are unique and below `nextId`. Every handler that needs it preserves it.

Validation happens only in the add dialog, and the filter is typed, so no other filter value can arise. `Store.Add` accepts any payload, and only `Store.SubmitAddForm` validates.

## Model

| member | source | states |
|---|---|---|
| Types.AllCategories | types.ts:1-5 | the category enum has exactly three values, pairwise distinct |
| Types.AllCategoriesComplete | types.ts:1-5 | every category is one of Restaurant, Retail, Service (the enum is closed) |
| Types.CategoryValueInjective | types.ts:2-4 | two categories have the same string value exactly when they are the same category, so comparing values compares categories |
| Types.FilterValueInjective | CategoryFilter.tsx:9-15 | the filter values `'all'`, `'Restaurant'`, `'Retail'`, `'Service'` are pairwise distinct, so the active-filter equality test picks exactly one filter |
| Types.WithId | App.tsx:225-228 | the new record has exactly the submitted fields plus the given id |
| Types.WithIdPayload | types.ts:7-15 | every record is its id combined with its other fields |
| Lists.Keep | App.tsx:215 | the filter result is no longer than its input, keeps only elements satisfying the test, and keeps every element of the input that satisfies it |
| Lists.KeepIsSubsequence | App.tsx:236 | the filter keeps the relative order of the input |
| Lists.KeepCount | App.tsx:236 | every element satisfying the test keeps all its occurrences, and every other element has none |
| Lists.KeepAll | App.tsx:215 | the filter returns its input unchanged exactly when every element satisfies the test |
| Lists.KeepIdempotent | App.tsx:215 | filtering twice by the same test equals filtering once |
| Lists.KeepCommute | App.tsx:215 | filtering by two tests in either order gives the same list |
| Lists.KeepUnique | App.tsx:236 | a subsequence of the input that holds only passing elements, with every occurrence of each passing element, is the filter result |
| Directory.MaxId | App.tsx:226 | part of the id counter that replaces the clock reading (the source has no counterpart): the largest id in use bounds every id, and is an id in use unless the list is empty (then 0), so every larger id is free |
| Directory.Prepend | App.tsx:229 | the new record comes first and the old list follows unchanged, so the length grows by one; ids in use gain the new id; ids stay unique exactly when the new id was not in use |
| Directory.RemoveById | App.tsx:215 | a record is kept exactly when it was present and has another id, with every copy of it kept; the ids in use lose the id; the kept records keep their relative order; unique ids stay unique |
| Directory.RemoveAbsent | App.tsx:215 | deleting an id that is not in use leaves the list unchanged |
| Directory.RemoveIdempotent | App.tsx:215 | deleting the same id twice gives the same list as deleting it once |
| Directory.RemovePresentDropsOne | App.tsx:213-218 | with unique ids, deleting an id in use removes exactly one record |
| Directory.AddThenRemove | App.tsx:215-229 | deleting a just-added record whose id was fresh restores the previous list |
| Directory.Visible | App.tsx:232-237 | the view holds exactly the stored records that match the filter, in their stored order; for `'all'` it is the whole list |
| Directory.VisibleIsKeep | App.tsx:232-237 | both branches of the view are one filter by the match test |
| Directory.VisibleCharacterised | App.tsx:236 | a list is the view exactly when it is an order-preserving subsequence of the records, holds only matching records, and has every occurrence of each matching record (an empty view is allowed) |
| Directory.VisibleAfterAdd | App.tsx:229-237 | after an add, every view the new record matches shows it first, followed by the old view; every other view is unchanged |
| Directory.VisibleAfterRemove | App.tsx:215-237 | deleting by id and then viewing equals viewing and then deleting |
| Directory.AddStamped | App.tsx:224-230 | the add as written, with the clock reading as id: the new record comes first, and ids stay unique exactly when the reading was not in use |
| Directory.SameTickAddsCollide | App.tsx:226 | two adds with the same clock reading produce duplicate ids, and deleting that id removes both new records |
| AddForm.TrimStart | App.tsx:84 | the result is a suffix of the input, everything cut off is white space, and the result does not start with white space |
| AddForm.TrimEnd | App.tsx:84 | the result is a prefix of the input, everything cut off is white space, and the result does not end with white space |
| AddForm.Trim | App.tsx:84 | the result is a contiguous slice of the input between two runs of white space, starts and ends with non-white-space, and is the input itself when the input is already trimmed |
| AddForm.TrimEmptyIffBlank | App.tsx:84 | a value trims to the empty string exactly when it is all white space |
| AddForm.TrimIdempotent | App.tsx:84 | trimming twice equals trimming once |
| AddForm.OptionalField | App.tsx:93-94 | an optional field is absent exactly when it is blank; otherwise it is the trimmed value, non-empty and trimmed |
| AddForm.Validate | App.tsx:83-95 | rejected exactly when name, location or description is blank, with the required-fields message; otherwise the category is passed through, name, location and description are passed untrimmed, phone and website are trimmed or absent, and the payload is well formed |
| AddForm.ValidateFormFor | App.tsx:83-95 | every well-formed payload is accepted unchanged when its own fields are submitted |
| App.Number | App.tsx:149-200 | the seed's records are the payloads in order, numbered consecutively |
| App.NumberIds | App.tsx:149-200 | consecutively numbered records have distinct ids in a known range |
| App.NumberWellFormed | App.tsx:149-200 | numbering well-formed payloads gives records that could have come from the form |
| App.InitialBusinesses | App.tsx:149-200 | the sample businesses have distinct ids |
| App.InitialBusinessesShape | App.tsx:149-200 | the sample list has six records: the six sample payloads in order, with ids 1 to 6 |
| App.RemoveKeepsWellFormed | App.tsx:215 | deleting keeps every remaining record one that could have come from the form |
| App.Store.constructor | App.tsx:204-207 | the initial state: the given list, filter `'all'`, nothing pending, the dialog closed, and the invariant established |
| App.Store.VisibleBusinesses | App.tsx:232-237 | the rendered list holds exactly the stored records matching the active filter, in stored order; for `'all'` it is the whole list; reading it changes nothing |
| App.Store.RequestDelete | App.tsx:209-211 | the business becomes the pending one and nothing else changes |
| App.Store.ConfirmDelete | App.tsx:213-218 | with a pending business, its id is removed from the list and the pending business is cleared; with unique ids and the id in use, exactly one record goes; with nothing pending, nothing changes; the invariant holds and the other fields are unchanged |
| App.Store.CancelDelete | App.tsx:220-222 | the pending business is cleared and nothing else changes |
| App.Store.Add | App.tsx:224-230 | the payload with a fresh id is prepended to the list; the invariant holds and the filter, pending business and dialog are unchanged |
| App.Store.SetFilter | App.tsx:254-257 | the active filter becomes the chosen one and nothing else changes |
| App.Store.OpenAddModal | App.tsx:246 | the dialog opens and nothing else changes |
| App.Store.CloseAddModal | App.tsx:285 | the dialog closes and nothing else changes |
| App.Store.SubmitAddForm | App.tsx:83-97 | fails with the required-fields message exactly when a required field is blank, and then the list, the dialog and the id counter are unchanged; on success the normalised payload is prepended with the counter's id, which is fresh, the counter advances by one and the dialog is closed; filter and pending business never change |

## Left out

- Rendering, styling, the modal markup, `Header.tsx`, the icons and `components/BusinessCard.tsx` are presentation. The card builds a map link with the browser's `encodeURIComponent`, which is a foreign call.
- `CategoryFilter.tsx` only forwards the clicked value. Its highlight test is covered by `Types.FilterValueInjective`.
- React's state scheduling and batching, and the `useMemo` caching of the view, are not modelled. Each setter is an immediate update of a `Store` field, and the view is a function of the current state.
- The dialog's per-field input state, its reset in `handleCancel` (App.tsx:72-81), and its error-message state are not modelled as state. `Store.SubmitAddForm` takes the six field values at once and returns the message instead of storing it.
- `Date.now()` (App.tsx:226) is a clock reading. `Store.Add` takes ids from the counter `nextId`, while `Directory.AddStamped` takes the reading as a parameter.
- JavaScript numbers are modelled as unbounded integers.
- App.InitialBusinesses: that the six sample records are well formed by the form's rules is not proved. Checking the form's rules against the literal text of the records makes the proof too large for the solver. `App.NumberWellFormed` gives well-formedness for any well-formed payloads, and `App.InitialBusinessesShape` states the count and the ids 1 to 6.
- App.Store.constructor: requires unique ids of the list it is given. The component is always given the seed list, whose ids `App.InitialBusinesses` states are distinct.

## Findings

| source | as written | input that shows it | evidently intended | confidence | as-written member | corrected member |
|---|---|---|---|---|---|---|
| App.tsx:226 | the new id is `Date.now()`, with no check against the ids in use | two adds within the same millisecond, or after the clock is set back to a time already used as an id: two records get the same id, and confirming the deletion of one removes both | every record gets an id not already in use, so a delete removes exactly the chosen business | low: a double submit within one millisecond is unlikely in use; not executed | Directory.SameTickAddsCollide | App.Store.Add |
