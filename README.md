# Retrend sell form and location picker

A Dafny model of the two parts of the Retrend marketplace front end that hold
statable logic.

**The "sell an item" form (`src/SellForm.js`).**
- The route's category/item pair is checked against the category catalog. The
  form is shown when some entry's title equals the category up to case, or when
  the item appears in the items of any entry. The item need not belong to that
  category, so an unknown category with any catalogued item shows the form.
- "Add Image" adds upload widgets, at most 12.
- Each chosen file is appended to the list of uploaded files.
- Submitting runs seven validation rules in a fixed order and collects the
  message of every broken rule. Nothing is uploaded unless the list is empty.
- Every image is then either reused (a string starting with `http`) or
  uploaded to the asset host. The profile picture is treated the same way.
- The product payload is composed and posted. `loading` goes `""` → `"post"`
  → `"redirect"`, or back to `""` on any failure.

**The navigation bar's location picker (`src/Navbar.js`).**
- A search query that is blank after trimming clears the suggestion list.
- Otherwise the geocoder is asked for at most 5 results in India. Each result's
  display name is the `", "`-join of its non-empty address segments.
- Choosing a suggestion shows and persists it and closes the popover.
- "Use current location" reverse-geocodes the device position. The name is
  suburb, else city, else state, else `"India"`. A geolocation error restores
  `"India"`.
- A mousedown outside the picker closes the popover.

Files:
- `js_values.dfy` (module `JsValues`): the JavaScript value rules both
  components rely on. These are truthiness of optional strings and numbers,
  `||`, `toLowerCase`, `startsWith`, `trim` and `join`.
- `sell_form.dfy` (module `SellForm`): the catalog check, the validator, the
  upload-or-reuse rule, the payload, and the class `FormState`. `FormState`
  holds the component's state fields: `formInputs`, `uploadedFiles`, the draft
  fields and `loading`.
- `navbar.dfy` (module `Navbar`): display names, the suggestion list, and the
  class `LocationPicker` with the picker's state fields and handlers.

Remote services are parameters of the operations that call them:
- `upload` is the asset host. It returns a URL, or `None` when the upload fails.
- `accept` is the backend's answer to the `add_product` post.
- `search` is the forward geocoder. It returns a result list, or `None` when
  the request fails or the response cannot be mapped.
- `reverse` is the reverse geocoder. It returns an address record, or `None`
  when the request fails or the answer has no `address` object. Both cases
  end in the same `catch` in the code.
- The browser's geolocation answer is the `Geo` argument.

JavaScript truthiness is explicit:
- A string-or-undefined field is `Option<string>`, and it is "present" when it
  is defined and non-empty.
- A price is `Value`, where `0` is also falsy.
- An image field is `Asset`: nothing, a string, or a browser File.

The code behaves as follows where a reader might expect otherwise:
- A suggestion's display name can be `""`. This happens when the address record
  has none of suburb, neighbourhood, city, town and state
  (`SuggestionNameEmptyIff`).
- The reverse-geocoded name tries only suburb, city and state before `"India"`.
  Neighbourhood, town and other fields are not tried.
- A geolocation error only sets the shown location to `"India"`. It persists
  nothing.
- When the browser has no geolocation at all, nothing but the popover changes.
- Only the number of upload widgets is bounded by 12. The list of uploaded
  files has no bound.
- The blank-query test trims the query, but the request carries the untrimmed
  query.

## Model

| member | source | states |
|---|---|---|
| JsValues.Or | src/Navbar.js:63 | `a \|\| b` is present iff either operand is; it is `a` when `a` is present, else `b` |
| JsValues.LowerCharEqIff | src/SellForm.js:33 | two characters lower to the same character exactly when they are equal or the two cases of one ASCII letter |
| JsValues.Lower | src/SellForm.js:33 | `toLowerCase` keeps the length and lowers each character in place |
| JsValues.LowerEqIff | src/SellForm.js:33 | two strings are equal once lowered exactly when they have the same length and agree character by character up to case |
| JsValues.LowerIdempotent | src/SellForm.js:33 | lowering twice equals lowering once, which is why lowering the category first does not change the check |
| JsValues.TrimStart | src/Navbar.js:77 | the result is a suffix of the input; the dropped prefix is all white space; the result does not start with white space |
| JsValues.TrimEnd | src/Navbar.js:77 | the result is a prefix of the input; the dropped suffix is all white space; the result does not end with white space |
| JsValues.TrimEmptyIff | src/Navbar.js:77 | `!query.trim()` holds exactly when every character of the query is white space |
| JsValues.JoinEmptyIff | src/Navbar.js:90 | joining non-empty parts gives `""` exactly when there are no parts |
| JsValues.JoinEnds | src/Navbar.js:90 | a join of a non-empty list starts with its first part and ends with its last part |
| SellForm.IsValidCategory | src/SellForm.js:32-35 | the pair is valid iff some catalog entry's lowered title equals the lowered category or the entry's items contain the item |
| SellForm.CategoryCaseInsensitive | src/SellForm.js:32-35 | the check gives the same answer for a category and its lower-case form |
| SellForm.ViolationsMeaning | src/SellForm.js:114-139 | a rule's message is in the list iff the draft breaks that rule; messages are in the fixed rule order, none twice |
| SellForm.SubmitAllowedIff | src/SellForm.js:114-150 | the list is empty iff title, description, name and price are present, the selected address field is filled, a file exists and, for vehicle categories, the vehicle data is complete |
| SellForm.OtherModeNoAddressError | src/SellForm.js:122-124 | a mode other than "address" and "location" never yields the address message |
| SellForm.VehicleErrorOnlyForVehicles | src/SellForm.js:136-139 | the vehicle message appears iff the lowered category is "olx autos (cars)" or "bikes" and brand, model or vehicle type is missing |
| SellForm.CompleteDraftPasses | src/SellForm.js:114-139 | a non-vehicle draft with every required field filled has no message |
| SellForm.CollectErrors | src/SellForm.js:114-139 | the successive pushes build exactly the violation list, with no short-circuit |
| SellForm.PicUrls | src/SellForm.js:156-178 | succeeds iff every image resolves; the URL list has the files' length and order, entry by entry |
| SellForm.PendingUploads | src/SellForm.js:157-176 | never more uploads than there are images |
| SellForm.PendingUploadsMembers | src/SellForm.js:157-176 | an image is sent to the asset host exactly when it is not an http string |
| SellForm.PendingUploadsAppend | src/SellForm.js:157-176 | the uploads follow the images in order and multiplicity: the uploads of two runs of images joined are the uploads of each run, joined |
| SellForm.PendingUploadsOne | src/SellForm.js:159-176 | a single image gives one upload when it is not an http string and none when it is |
| SellForm.UploadCallsSkipUrls | src/SellForm.js:156-200 | no upload of a submission is ever an http string |
| SellForm.ResubmitReusesUrls | src/SellForm.js:156-178 | a list of http URLs, such as the one a successful submission produced, starts no image upload and resolves to the same URLs in the same order, whatever the asset host answers |
| SellForm.ResubmitReusesProfileUrl | src/SellForm.js:181-200 | a profile picture that is an http URL resolves to that URL and is never among the uploads of a submission, whatever the images are |
| SellForm.AllUrlsUploadNothing | src/SellForm.js:156-200 | when every image is an http string, nothing is uploaded and the URLs are the strings themselves |
| SellForm.SubmissionPayload | src/SellForm.js:154-238 | fails iff some image or the profile picture fails to upload; otherwise posted iff the backend accepts; address chosen by the mode; catagory/subcatagory from the route; other fields copied; URLs in file order |
| SellForm.FormState.constructor | src/SellForm.js:41-68 | no widgets, no files, an empty draft and `loading` "" |
| SellForm.FormState.Render | src/SellForm.js:243-245 | not found iff no catalog entry matches the pair; the spinner only while posting, so never between handler calls; vehicle details exactly when the lowered category is "olx autos (cars)" or "bikes" |
| SellForm.FormState.HandleAddForm | src/SellForm.js:43-54 | below 12 widgets exactly one widget keyed by its index is appended; at 12 nothing changes |
| SellForm.FormState.HandleFileChange | src/SellForm.js:72-75 | the file is appended at the end; earlier entries are unchanged |
| SellForm.FormState.HandlePriceChange | src/SellForm.js:76-79 | only the price changes |
| SellForm.FormState.HandleAddressChange | src/SellForm.js:81-85 | only location, address and mode change |
| SellForm.FormState.HandleDetailsChange | src/SellForm.js:87-91 | only title and description change |
| SellForm.FormState.HandleVehicleDataChange | src/SellForm.js:93-96 | only the vehicle data changes |
| SellForm.FormState.HandleCategoryDataChange | src/SellForm.js:98-101 | only the category data changes |
| SellForm.FormState.HandleNameSelect | src/SellForm.js:103-105 | only the name changes |
| SellForm.FormState.HandleImageSelect | src/SellForm.js:106-108 | only the profile picture changes |
| SellForm.FormState.SetLoading | src/SellForm.js:152 | sets `loading` and records the step in the history of its values |
| SellForm.FormState.HandleSubmit | src/SellForm.js:110-239 | with messages nothing is uploaded or posted and `loading` stays; otherwise `loading` goes to "post" and then to "redirect" on success or "" on any failure, and the uploads and the posted payload are those of the submission |
| Navbar.ReverseName | src/Navbar.js:62-63 | never empty; suburb, else city, else state, else "India", each taken only when present |
| Navbar.Compact | src/Navbar.js:90 | `filter(Boolean)` keeps only non-empty strings, never more than it was given; it is empty iff no value is present |
| Navbar.CompactMembers | src/Navbar.js:90 | a string is kept exactly when it is one of the present values |
| Navbar.CompactAppend | src/Navbar.js:90 | filtering distributes over concatenation, so it keeps order and multiplicity |
| Navbar.CompactOne | src/Navbar.js:90 | a single value is kept exactly when it is present |
| Navbar.SuggestionNameEmptyIff | src/Navbar.js:86-90 | the name is "" iff suburb, neighbourhood, city, town and state are all missing |
| Navbar.SuggestionNameStartsWithArea | src/Navbar.js:86-90 | the name joins only non-empty segments and starts with the suburb, else the neighbourhood, when one is present |
| Navbar.SuggestionNameEndsWithState | src/Navbar.js:86-90 | when a state is present the name ends with it |
| Navbar.SuggestionNameAllParts | src/Navbar.js:86-90 | with suburb, city and state present, the name is those three in order, separated by ", " |
| Navbar.Suggestions | src/Navbar.js:85-95 | one suggestion per result, in the same order, with that result's name and coordinates |
| Navbar.LocationPicker.constructor | src/Navbar.js:26-30 | starts at "India" with no coordinates, an empty query, no suggestions and the popover closed |
| Navbar.LocationPicker.OpenPopover | src/Navbar.js:145-146 | the location button opens the popover |
| Navbar.LocationPicker.FetchLocationSuggestions | src/Navbar.js:76-100 | a blank query makes no request and empties the list; otherwise the request has the query, limit 5 and country "in", and the list becomes the mapped results, or stays as it was on failure |
| Navbar.LocationPicker.HandleSearchInput | src/Navbar.js:102-106 | the query becomes the input, the popover is open, and the search behaves as above |
| Navbar.LocationPicker.HandleSuggestionSelect | src/Navbar.js:108-118 | shown location and query become the display name, the popover closes, the list empties, and `{name, coordinates}` of that suggestion is persisted |
| Navbar.LocationPicker.HandleClickOutside | src/Navbar.js:121-125 | a mousedown outside the mounted picker closes the popover; any other mousedown leaves it unchanged |
| Navbar.LocationPicker.FetchLocationName | src/Navbar.js:57-74 | on an answer the fallback name is shown and persisted with the address and the position; on failure nothing changes |
| Navbar.LocationPicker.UseCurrentLocation | src/Navbar.js:188-202 | the popover always closes; a position is recorded and reverse-geocoded; an error restores "India"; no geolocation support changes nothing else |

The class invariants are these:
- `FormState.Valid`: at most 12 widgets, keyed by their index. Every change of
  `loading` enters or leaves "post". Between handler calls `loading` is never
  "post".
- `LocationPicker.Valid`: the shown location is "India" or the name of the
  record the picker persisted last.

## Left out

- HTTP is out of scope. The asset host, the `add_product` post, the wishlist
  request and the two geocoder requests are oracle parameters or omitted.
- Request details are out of scope. The request headers, the auth token and
  the upload preset are not modelled.
- Concurrency is out of scope. Every asynchronous handler runs to its end
  inside one method call, so interleavings such as a late, stale search answer
  are not modelled.
- `Promise.all` is modelled as an order-preserving map that fails as a whole
  when any upload fails. Every pending upload is counted as started.
- SellForm.FormState.HandleSubmit: the transient "post" value shows only in
  the ghost history `loadingLog`. The spinner that `Render` shows during a
  submission is never observed between calls.
- SellForm.Draft: location and address are modelled as strings. The source
  starts both at `[]` (src/SellForm.js:59-60) and the model starts them at
  `""`. Only their length and the value copied into the payload matter.
  So a payload posted with the chosen field never set carries `""` where the
  source posts `[]` (src/SellForm.js:206).
- Floating point is out of scope. Coordinates are opaque `real` pairs, and
  `parseFloat` and NaN are not modelled.
- A price is an integer or a string, not a JavaScript number.
- JsValues.Lower: lowers only the ASCII letters `A`–`Z`, not the full Unicode
  case mapping of `toLowerCase`.
- Rendering, the toasts, `navigate`, `dangerouslySetInnerHTML` and
  `errors.join("<br>")` are out of scope. The messages are kept as rule values
  and their texts (`Message`).
- The `showComponent` toggle and the child widgets' markup are not modelled.
- The model does not restrict which handler can be called in which view.
- `localStorage` is modelled only as the last persisted location record.
  `JSON.stringify`, the "locationChanged" event and the logout's clearing are
  not modelled.
- `handleLogout`, the wishlist fetch, and registering and removing the
  mousedown listener are out of scope.
- `src/utils/config.js` is not part of this model. It holds only a URL
  constant.
- `src/resources/Catagories.js` is not part of this model. The category
  catalog is a parameter of `FormState`.
- Navbar.LocationPicker.FetchLocationSuggestions: the query is not
  URL-encoded in the request in the code either. The model sends the raw
  string and does not bound what the geocoder returns. The 5-result bound holds
  only when the service honours `limit`, because the suggestion list has one
  entry per result.
- The source re-uploads raw files already uploaded in an earlier failed
  attempt when the form is resubmitted. The model does the same, because only
  http strings are reused.
