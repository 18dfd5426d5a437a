# Admin dashboard: product and user state, modelled in Dafny

This project models the state machine inside the `Admin` React component
(`src/Components/Admin.js`). It covers the product form and the cached
product and user lists. The component's state hooks become the fields of the
class `Admin.AdminDashboard`, and its event handlers become methods.

- **Validation.** Submit checks the product draft: name, price and category
  are required, and the price may not be negative. A failing draft sets
  `productError` and sends no request.
- **Reconciliation.** When the backend answers a write, the cached list is
  updated: an update replaces every entry with the edited id, a create
  appends the returned record, and a delete filters out the id.
- **New ids.** A create computes its own id: the largest numeric id in use,
  or 0, plus one, written back as a decimal string.
- **Draft edits.** Images and sizes can be appended, removed with
  `splice(index, 1)` semantics or overwritten at an index.

Pure parts are functions with lemmas:
- `Ids`: decimal parsing and printing, and the next id.
- `Reconcile`: replace by id and remove by id.
- `Draft`: validation, splice and image numbering.

The network and the browser are inputs to the methods:
- A product write's reply is a `response: Option<Product>`, where `None` is the failed request (the `catch`).
- A delete's outcome is `succeeded: bool`.
- The answer to `window.confirm` is `confirmed: bool`.
- What a submit would send is returned as a `Request`; `NoRequest` means nothing was sent.

Each method's postcondition gives the whole new state as `State()`, the
record of all fields. `Scenarios` proves a few concrete cases, and checks a
whole create, edit and delete session against these contracts.

Three behaviours of the code are worth stating plainly:
- **Delete is not optimistic.** The entry is removed only in the success callback (`Admin.js:115-116`); a failed delete leaves the list as it was.
- **Editing does not copy.** The draft is the edited product object itself (`Admin.js:134`). This matters only for the image aliasing listed below.
- **A non-negative price is not guaranteed.** The code only rejects negative numbers and the empty string, so other invalid prices can get through (see "Left out").

## Model

| member | source | states |
|---|---|---|
| `Ids.ParseDecimal` | src/Components/Admin.js:81 | `parseInt` on a non-empty string of decimal digits: its value, below 10 to the power of the string's length (the empty string gives 0 only as the recursion's base) |
| `Ids.ShowDecimal` | src/Components/Admin.js:82 | `toString` of the new id: a non-empty string of digits, with no leading zero |
| `Ids.ParseShow` | src/Components/Admin.js:81-82 | parsing the printed id gives the number back |
| `Ids.ShowParse` | src/Components/Admin.js:81-82 | printing the value of a numeral without leading zeros gives the numeral back |
| `Ids.MaxParsedId` | src/Components/Admin.js:81 | `Math.max(...ids, 0)`: at least every parsed id, and either 0 or one of them |
| `Ids.NextId` | src/Components/Admin.js:81-82 | the new id is a numeral with no leading zero whose value is exactly `MaxParsedId + 1`: strictly greater than every existing id's, and either 1 or one more than some existing id |
| `Ids.NextIdFresh` | src/Components/Admin.js:81-83 | the new id differs, as a string, from every id in the list |
| `Ids.NextIdOfEmpty` | src/Components/Admin.js:81-82 | an empty list gives the id "1" |
| `Reconcile.ReplaceById` | src/Components/Admin.js:74 | the updated list has the same length as the old one |
| `Reconcile.ReplaceByIdAt` | src/Components/Admin.js:74 | position by position: an entry with the edited id becomes the reply, all other entries stay put |
| `Reconcile.ReplaceByIdAbsent` | src/Components/Admin.js:74 | a reply for an id no entry carries leaves the list unchanged |
| `Reconcile.ReplaceByIdIdempotent` | src/Components/Admin.js:74 | applying the same reply twice equals applying it once |
| `Reconcile.RemoveById` | src/Components/Admin.js:116 | the list after a delete holds exactly the old entries whose id differs, and is no longer |
| `Reconcile.RemoveByIdConcat` | src/Components/Admin.js:116 | filtering distributes over concatenation, so kept entries keep their order |
| `Reconcile.RemoveByIdCounts` | src/Components/Admin.js:126 | each entry occurs as often as before if its id differs, and not at all otherwise |
| `Reconcile.RemoveByIdAbsent` | src/Components/Admin.js:116 | deleting an id that is not in the list changes nothing |
| `Reconcile.RemoveByIdIdempotent` | src/Components/Admin.js:116 | a second delete of the same id changes nothing |
| `Draft.ValidateDraft` | src/Components/Admin.js:58-69 | the required-fields message exactly when name, price or category is empty; otherwise the negative-price message exactly when the price is below 0; no error exactly when the draft is ready to send |
| `Draft.SpliceStart` | src/Components/Admin.js:147 | where `splice(start, 1)` starts: a start inside the list is kept, a negative one counts from the end, and both ends are clamped to the list |
| `Draft.Splice` | src/Components/Admin.js:147 | `splice(start, 1)`: at a clamped start inside the list, one element is dropped, the elements before it are kept and the ones after it shift down; otherwise nothing changes |
| `Draft.SpliceRemovesOne` | src/Components/Admin.js:157 | for an in-range index the result is `s[..i] + s[i+1..]`, and its multiset plus the removed element is the original multiset |
| `Draft.NewImage` | src/Components/Admin.js:141 | the added image has an empty name and display index `images.length + 1` |
| `Draft.AddImageKeepsNumbering` | src/Components/Admin.js:141 | adding to images numbered 1..n gives images numbered 1..n+1 |
| `Draft.RemoveThenAddRepeatsIndex` | src/Components/Admin.js:141-147 | removal does not renumber: removing any image but the last from images numbered 1..n and then adding one gives n images whose last two both have index n |
| `Admin.AdminDashboard.constructor` | src/Components/Admin.js:7-32 | the initial state: empty lists, draft defaults, create mode, no error, forms closed |
| `Admin.AdminDashboard.SubmitProduct` | src/Components/Admin.js:58-93 | a rejected draft sends nothing and changes only the error. Otherwise the error is cleared. An edit sends a PUT, and a reply replaces by id, leaves create mode, closes the form and resets the draft. A create sends a POST under `NextId`, and a reply is appended, closes the form and resets the draft. A failed request changes nothing further. |
| `Admin.AdminDashboard.ResetNewProduct` | src/Components/Admin.js:95-104 | the draft becomes `{name:'', price:0, status:true, images:[], sizes:[], cid:''}`; nothing else changes |
| `Admin.AdminDashboard.BeginCreateProduct` | src/Components/Admin.js:194-198 | create mode, default draft, form open; nothing else changes |
| `Admin.AdminDashboard.EditProduct` | src/Components/Admin.js:132-136 | edit mode on the product, its fields as the draft, form open |
| `Admin.AdminDashboard.EditUser` | src/Components/Admin.js:106-110 | edit mode on the user, its fields as the user draft, user form open |
| `Admin.AdminDashboard.DeleteProduct` | src/Components/Admin.js:112-120 | a request is sent exactly when confirmed; only a confirmed, successful delete changes state, removing that id |
| `Admin.AdminDashboard.DeleteUser` | src/Components/Admin.js:122-130 | the same for the user list |
| `Admin.AdminDashboard.AddImage` | src/Components/Admin.js:138-143 | the draft's images gain `NewImage` at the end; all other state unchanged |
| `Admin.AdminDashboard.RemoveImage` | src/Components/Admin.js:145-149 | the draft's images become their `Splice` at the index; all other state unchanged |
| `Admin.AdminDashboard.AddSize` | src/Components/Admin.js:151-153 | the draft's sizes gain `''` at the end; all other state unchanged |
| `Admin.AdminDashboard.RemoveSize` | src/Components/Admin.js:155-159 | the draft's sizes become their `Splice` at the index; all other state unchanged |
| `Admin.AdminDashboard.ChangeImageUrl` | src/Components/Admin.js:161-165 | only the image at the index changes, and only its name |
| `Admin.AdminDashboard.ChangeSize` | src/Components/Admin.js:167-171 | only the size at the index changes |
| `Admin.AdminDashboard.SetProductName` | src/Components/Admin.js:290 | only the draft's name changes |
| `Admin.AdminDashboard.SetProductPrice` | src/Components/Admin.js:299 | only the draft's price changes, to the number read from the box |
| `Admin.AdminDashboard.SetProductCategory` | src/Components/Admin.js:307 | only the draft's category changes |
| `Admin.AdminDashboard.SetProductStatus` | src/Components/Admin.js:320 | only the draft's active flag changes |
| `Admin.AdminDashboard.HideProductModal` | src/Components/Admin.js:277 | only the form closes; the draft and the mode are kept |
| `Scenarios.NextIdAfterNine` | src/Components/Admin.js:81-82 | ids "2", "7", "9" give the new id "10" |
| `Scenarios.DeleteFiveTwice` | src/Components/Admin.js:116 | deleting "5" from "1", "3", "5" leaves "1", "3", and deleting it again does too |

## Left out

- The three fetches on mount (`Admin.js:34-56`) are network I/O and are not modelled. The category list matters only for rendering the select box.
- Asynchrony is not modelled. A reply is applied as soon as its request is made. In the source, the `.then` callbacks use the `products` captured at render time, so of two overlapping writes the last reply wins. Two sessions computing the same next id is the same kind of race.
- Logging the `catch` branches to the console is not modelled. A failed request just leaves the state unchanged.
- Rendering is not modelled. That covers the page switch (`activePage`), the tables and both forms' markup.
- The user form's field setters (`Admin.js:379-423`) and its close handler (`Admin.js:366`) are not modelled. They only replace one field of the user draft.
- The user form's submit button (`Admin.js:430-437`) is an empty placeholder, and `userError` is never set. Neither is modelled.
- Ids.NextId: defined only when every product id is a decimal digit string. `parseInt` on other ids (signs, spaces, trailing text, or none at all, which gives `NaN` and the id "NaN") is not modelled. Neither is the precision loss of JavaScript numbers above 2^53.
- Admin.AdminDashboard.SubmitProduct: requires numeric ids in create mode, for the same reason as `NextId`.
- Admin.AdminDashboard.SubmitProduct: the PUT body is rebuilt as the edited product's id plus the draft's fields. In the source the draft is the edited product object itself. The two agree because the draft and `editingProduct` are always set and cleared together.
- Admin.AdminDashboard.SetProductPrice: takes an exact real. `parseFloat` can give `NaN` (an empty box, for one), and `NaN` passes both validation checks. Floating-point rounding is not modelled either.
- Admin.AdminDashboard.ChangeImageUrl: works on values. The source copies the array shallowly, then writes the name into the shared image object. In edit mode that object is also in the cached `products` entry, which this model does not reflect.
- Admin.AdminDashboard.ChangeImageUrl: requires an index inside the list. That is the only index the form passes; any other would throw in the source.
- Admin.AdminDashboard.ChangeSize: requires an index inside the list, the only index the form passes. Writing past the end of a JavaScript array would leave holes, and that is not modelled.
- Draft.ValidateDraft: name, price and category are always defined in the model. The source's `!name` test would also catch an undefined name.
