# Warehouse client: floor plan, product form, sign-in and settings

A Dafny model of four screens of an inventory-management web client:

- the warehouse floor plan (`deposito`), which holds:
  - the list of racks, seeded from the server and extended by a create request;
  - the list of palets, numbered by a local counter;
  - a list of doors that are hidden, never removed;
  - per-element lock toggles, whose deferred callback switches dragging on or off;
  - the drawer, hover and product-detail state;
  - the drag, resize and rotate listeners that move each element;
- the product-creation modal, with its form state, the input handlers, the submit check that opens the QR step, and the reset on close;
- the sign-in page, with input validation, the conversion of the submitted form into an object, and the body sent to the login endpoint;
- the settings page, a list of setting objects whose `value` the handlers overwrite in place.

The page state is modelled in classes whose fields are the component's state variables:

- `Deposito.FloorPlan`;
- `ProductForm.CreateProductModal`;
- `Login.SignInPage`;
- `Settings.SettingsPage` and `Settings.Setting`;
- `Geometry.Element`, the attributes of one rendered element.

Each handler is a method. The list updates are the value functions in `Layout`, with lemmas about them:

- `ToggleLocked` is the `map` that flips `locked`;
- `RemoveId` is the `filter` on the id;
- `HideAt` is the `map` that hides the door at an index;
- `FindById` is `find`;
- `Slice` is `slice`.

`Text` models the JavaScript built-ins the handlers rely on:

- `parseFloat`, for decimal input;
- `trim`, with the ECMAScript white-space set;
- `length`, which counts UTF-16 code units;
- the decimal rendering of a non-negative integer in a template literal.

## Model

| member | source | states |
|---|---|---|
| Deposito.FloorPlan.constructor | src/app/deposito/page.tsx:66-84 | the page starts with no racks, palets or doors, palet counter 1, no open drawer, no print target, no hover, no detail and no drag settings |
| Deposito.FloorPlan.SeedRacks | src/app/deposito/page.tsx:86-90 | once the racks query has data, the local rack list becomes exactly that data; without data it is unchanged |
| Deposito.FloorPlan.BeginAddRack | src/app/deposito/page.tsx:136-144 | the record sent has id `length + 1`, label `Rack-<length + 1>`, the origin, unlocked and no products, and the handler keeps the list as it was when it ran |
| Deposito.FloorPlan.CompleteAddRack | src/app/deposito/page.tsx:146-153 | a successful reply is appended to the list captured when the handler started, not to the current list; a failure leaves the list unchanged |
| Deposito.RackCandidateCanRepeatId | src/app/deposito/page.tsx:137-138 | after a delete, the length-based id of the next rack can equal the id of a rack still in the list |
| Deposito.FloorPlan.AddPalet | src/app/deposito/page.tsx:156-169 | the new palet has the counter as its id, label `Palet-<id>` and catalog products 3 to 5, and the counter goes up by one; with no catalog yet nothing changes; palet ids stay increasing and below the counter |
| Deposito.AddPaletConsistent | src/app/deposito/page.tsx:156-169 | appending the counter-numbered palet and incrementing the counter keeps the ids increasing and below the counter |
| Deposito.PaletLabelsDistinct | src/app/deposito/page.tsx:164 | palets with different ids get different QR labels |
| Deposito.FloorPlan.AddDoor | src/app/deposito/page.tsx:176-178 | exactly one visible door at the origin is appended |
| Deposito.FloorPlan.HideDoor | src/app/deposito/page.tsx:170-174 | the door list becomes the hide-at-index update of the old list, keeping its length |
| Layout.HideAtAt | src/app/deposito/page.tsx:171-173 | only the door at the index is changed, and only its `visible` flag, which becomes false |
| Layout.HideAtIdempotent | src/app/deposito/page.tsx:170-174 | hiding the same door twice has the effect of hiding it once |
| Layout.HideAtCount | src/app/deposito/page.tsx:170-174 | the number of visible doors drops by one exactly when the index is in range and that door was visible; otherwise it is unchanged |
| Layout.HideAt | src/app/deposito/page.tsx:171-173 | the `map` keeps the length and every door's position |
| Deposito.FloorPlan.ToggleLock | src/app/deposito/page.tsx:238-254 | the rack list becomes the lock-flipped list, and the callback scheduled for `#rack-<id>` captures that new list |
| Deposito.FloorPlan.TogglePaletLock | src/app/deposito/page.tsx:256-271 | the same for palets and `#palet-<id>`; palet ids are unchanged, so the palet invariant is kept |
| Deposito.FloorPlan.RunRebind | src/app/deposito/page.tsx:245-250 | the deferred callback sets dragging on its target to `!locked` of the first entry with the id in the list it captured; if that list has no such entry, it changes nothing |
| Deposito.RebindAfterToggle | src/app/deposito/page.tsx:239-250 | after a toggle, the callback enables dragging exactly when the entry was locked before the toggle, and does nothing for an unknown id |
| Layout.ToggleLockedAt | src/app/deposito/page.tsx:240-242 | each entry with the id has `locked` negated, and every other entry is unchanged |
| Layout.ToggleLockedTwice | src/app/deposito/page.tsx:240-242 | toggling the same id twice restores the list |
| Layout.ToggleLockedKeepsIds | src/app/deposito/page.tsx:258-260 | a toggle keeps every entry's id, so increasing ids stay increasing |
| Layout.FindAfterToggle | src/app/deposito/page.tsx:246 | the entry `find` returns after a toggle is the one it returned before, flipped |
| Layout.FindByIdFirst | src/app/deposito/page.tsx:246 | `find` returns nothing exactly when no entry has the id, and otherwise the first entry that has it |
| Layout.ToggleLocked | src/app/deposito/page.tsx:240-242 | the `map` keeps the length, and every entry keeps its id, position, QR label and products |
| Layout.FindById | src/app/deposito/page.tsx:246 | what `find` returns is an entry of the list with the id asked for |
| Deposito.FloorPlan.DeleteRack | src/app/deposito/page.tsx:273-275 | the rack list becomes the old list with every rack of this id removed |
| Deposito.FloorPlan.DeletePalet | src/app/deposito/page.tsx:277-279 | the palet list becomes the old list without that id, and the palet invariant is kept |
| Layout.RemoveIdMembers | src/app/deposito/page.tsx:274 | a record survives the filter exactly when it was in the list and has a different id |
| Layout.RemoveIdAppend | src/app/deposito/page.tsx:274 | the filter distributes over concatenation, so it keeps the order of the survivors |
| Layout.RemoveIdAbsent | src/app/deposito/page.tsx:278 | deleting an id no entry has leaves the list unchanged |
| Layout.RemoveIdIdempotent | src/app/deposito/page.tsx:278 | deleting the same id twice has the effect of deleting it once |
| Layout.RemoveIdKeepsIncreasing | src/app/deposito/page.tsx:278 | deleting from a list with increasing ids leaves increasing ids |
| Layout.RemoveId | src/app/deposito/page.tsx:274 | the `filter` never lengthens the list, and no entry with the id survives |
| Layout.IncreasingIdsDistinct | src/app/deposito/page.tsx:156-169 | in a list with increasing ids, no two entries share an id |
| Layout.Slice | src/app/deposito/page.tsx:162 | `slice(from, to)` returns, in order, the elements from `from` up to `to` clipped to the length: exactly `min(to, length) - from` of them when `from` is below both, none otherwise; so `slice(3, 6)` gives three catalog products when there are at least six |
| Deposito.FloorPlan.ToggleDrawer | src/app/deposito/page.tsx:180-203 | the one drawer map shared by racks and palets records the new state for the id; opening makes the id the print target and closing clears the target; that id's drawer shows the new state and every other id's drawer is as it was |
| Deposito.DrawerFrame | src/app/deposito/page.tsx:182-185 | setting one id's drawer shows exactly that state for the id and leaves every other id's drawer as it was |
| Deposito.FloorPlan.OpenDetails | src/app/deposito/page.tsx:124-126 | the clicked product becomes the detail shown |
| Deposito.FloorPlan.CloseDetails | src/app/deposito/page.tsx:129-134 | the detail panel is emptied |
| Deposito.FloorPlan.OnDetailDrawerClose | src/app/deposito/page.tsx:990-998 | the detail panel closes on a backdrop click or the escape key, and for any other reason it stays as it was |
| Deposito.FloorPlan.HoverRack | src/app/deposito/page.tsx:619-620 | after entering a rack with id `a`, exactly the racks with id `a` show their action buttons (rack ids can repeat); after leaving, no rack's buttons are shown; buttons are never shown for two ids |
| Deposito.FloorPlan.HoverPalet | src/app/deposito/page.tsx:466-467 | after entering palet `a`, palet `a` is the only palet whose action buttons are shown; after leaving, no palet's buttons are shown; buttons are never shown for two ids |
| Deposito.HoverShowsAtMostOne | src/app/deposito/page.tsx:654 | whatever the hover state, the buttons shown belong to at most one rack id, and likewise (line 501) to at most one palet id, which for palets is one palet since their ids are distinct |
| Deposito.FloorPlan.SetLabelModal | src/app/deposito/page.tsx:119-121 | the label modal is open exactly as the last open or close call set it |
| Geometry.Element.constructor | src/app/deposito/page.tsx:495-496 | a rendered element starts at the position attributes it was rendered with (a palet's record coordinates; a rack always 0 and 0, lines 648-649) and with no rotation attribute, which reads as angle 0 |
| Geometry.Element.OnDragMove | src/app/deposito/page.tsx:293-304 | the position moves by the pointer delta and the angle is kept |
| Geometry.DragMove | src/app/deposito/page.tsx:295-303 | a drag move shifts the position by the pointer delta and keeps the angle |
| Geometry.DragsAccumulate | src/app/deposito/page.tsx:293-304 | a sequence of drag moves shifts the element by the sum of the deltas and never rotates it |
| Geometry.Element.OnResizeMove | src/app/deposito/page.tsx:310-327 | the size becomes the rectangle the modifier hands on: a side with a dragged edge ends within 50 to 500, a side with no dragged edge keeps its proposed size (a 40-pixel door stays 40); the position moves by the top-left shift; the angle is kept |
| Geometry.ResizeMove | src/app/deposito/page.tsx:316-326 | a resize move shifts the position by the top-left shift and keeps the angle |
| Geometry.RestrictSize | src/app/deposito/page.tsx:329-334 | the modifier's dimension is within 50 to 500: unchanged inside that range, and the nearest bound outside it |
| Geometry.RestrictEvent | src/app/deposito/page.tsx:329-334 | the modifier clamps into 50 to 500 only a side one of whose edges is dragged and leaves the other side's size and shift alone; when the left (top) edge is dragged its shift absorbs the clamp so the opposite edge stays where the proposal put it, and when the right (bottom) edge is dragged the shift is unchanged |
| Geometry.ClampedLeftEdgeStays | src/app/deposito/page.tsx:329-334 | shrinking an element at the minimum width from the left does not move it |
| Geometry.DoorBottomResize | src/app/deposito/page.tsx:442-443 | a 40-by-40 door stretched from its bottom edge keeps width 40 and its position, and only its height is clamped up to 50 |
| Geometry.Element.OnGestureMove | src/app/deposito/page.tsx:338-350 | the angle grows by the gesture's rotation delta and the position is kept |
| Geometry.GestureMove | src/app/deposito/page.tsx:340-349 | a gesture move adds the rotation delta to the angle and keeps the position |
| Geometry.GesturesAccumulate | src/app/deposito/page.tsx:338-350 | a rotation gesture keeps the position, and the stored angle is the start angle plus the sum of the deltas, with no reduction modulo 360 |
| Text.NatToStringRoundTrip | src/app/deposito/page.tsx:142 | the decimal text of an id reads back as that id |
| Text.NatToStringInjective | src/app/deposito/page.tsx:164 | distinct ids render as distinct decimal text |
| Text.NatToString | src/app/deposito/page.tsx:142 | the decimal text of a number is non-empty, made of digits, and has no leading zero |
| ProductForm.CreateProductModal.constructor | src/app/productos/CrearProductoModal.tsx:28-44 | the modal starts with an empty form under a fresh id, no kept record and the QR step closed |
| ProductForm.CreateProductModal.MountEffect | src/app/productos/CrearProductoModal.tsx:47-52 | on mount an id that is already present is kept, and an empty id gets a fresh one |
| ProductForm.KeepOrFreshId | src/app/productos/CrearProductoModal.tsx:50 | a non-empty id leaves the form untouched, and an empty one is replaced by the fresh id |
| ProductForm.CreateProductModal.HandleChange | src/app/productos/CrearProductoModal.tsx:54-63 | the form becomes the single-field update of the old form |
| ProductForm.ChangeField | src/app/productos/CrearProductoModal.tsx:54-63 | only the named field changes; name and supplier store the text typed, and price and stock store its parse, or 0 when it does not parse |
| ProductForm.NumberOrZero | src/app/productos/CrearProductoModal.tsx:60 | `parseFloat(value) \|\| 0` is 0 when the text does not parse, it is the parsed number whenever that number is not 0, and any non-zero result is the parsed number |
| Text.ParseFloat | src/app/productos/CrearProductoModal.tsx:60 | a number is read only from text that contains a digit |
| ProductForm.TypedNumberStored | src/app/productos/CrearProductoModal.tsx:59-60 | a price or stock typed as a whole number is stored as that number; a price typed as `n.ddd` is stored as `n` plus the fraction `ddd / 10^k`, so at least `n` and below `n + 1`; a price typed as `-n` is stored as `-n` |
| Text.ParseFloatOfDecimal | src/app/productos/CrearProductoModal.tsx:60 | `parseFloat` of digits, a point and digits is the whole part plus the fraction digits over the matching power of ten |
| Text.FractionBelowOne | src/app/productos/CrearProductoModal.tsx:60 | the digits after the point add a value of at least 0 and below 1 |
| Text.ParseFloatOfNat | src/app/productos/CrearProductoModal.tsx:60 | `parseFloat` reads back the decimal text of every non-negative integer |
| Text.ParseFloatOfNegatedNat | src/app/productos/CrearProductoModal.tsx:60 | with a leading minus sign it reads back the negated integer |
| ProductForm.UnparsablePriceBlocksSubmit | src/app/productos/CrearProductoModal.tsx:58-86 | a price with no digit is stored as 0, so handleSubmit's check rejects the form |
| ProductForm.SubmittedPriceParsed | src/app/productos/CrearProductoModal.tsx:58-86 | a form that passes the submit check got its price from text that parses to a positive number |
| ProductForm.CreateProductModal.SelectCategoria | src/app/productos/CrearProductoModal.tsx:196-201 | the category select changes only the category |
| ProductForm.CreateProductModal.EditDescripcion | src/app/productos/CrearProductoModal.tsx:224-225 | the description box changes only the description |
| ProductForm.CreateProductModal.SelectRack | src/app/productos/CrearProductoModal.tsx:256-261 | the rack select changes only the rack id |
| ProductForm.CreateProductModal.HandleSubmit | src/app/productos/CrearProductoModal.tsx:79-93 | the handler raises an alert exactly when the name is empty or the price or stock is not positive, and then changes nothing; otherwise it keeps the current form for the QR step, which opens and is on screen |
| ProductForm.CreateProductModal.HandleClose | src/app/productos/CrearProductoModal.tsx:95-109 | every field goes back to its default under a fresh id and the kept record is dropped, so the QR step is off the screen although its open flag is left as it was (the guard at line 300) |
| ProductForm.ResetFormRejected | src/app/productos/CrearProductoModal.tsx:82-106 | a freshly reset form never passes the submit check |
| ProductForm.CreateProductModal.CloseQrModal | src/app/productos/CrearProductoModal.tsx:304-307 | closing the QR step closes it, takes it off the screen and resets the form as handleClose does |
| ProductForm.CreateProductModal.HandleQRGenerated | src/app/productos/CrearProductoModal.tsx:65-66 | the record it would hand to onCreate is the current form with only the QR URL replaced; as written nothing calls it (see Findings) |
| ProductForm.QrUrlNeverHandedOn | src/app/productos/CrearProductoModal.tsx:300-309 | the QR modal receives `onQRGenerated` but its props have no such callback and its effect drops the URL it builds (QrProductoModal.tsx, lines 38-42), so for a kept record nothing is handed on, unlike the intended effect |
| ProductForm.CreateProductModal.CompleteQrStep | src/app/productos/CrearProductoModal.tsx:65-66 | with the corrected effect, a kept record leads to onCreate receiving the current form with the generated URL, and no record leads to no call |
| Login.SignInPage.constructor | src/app/login/page.tsx:69-72 | no error flag or message is set before the first submit |
| Login.SignInPage.ValidateInputs | src/app/login/page.tsx:137-164 | the inputs are valid exactly when both checks pass; each check always runs and sets only its own field's flag, and that field's message is set exactly when its flag is |
| Login.SignInPage.CheckUsername | src/app/login/page.tsx:143-150 | the user name block sets the name flag exactly when the name is invalid, and the name message exactly with the flag |
| Login.SignInPage.CheckPassword | src/app/login/page.tsx:152-161 | the password block sets the password flag exactly when the password is invalid, and the password message exactly with the flag |
| Login.UsernameInvalid | src/app/login/page.tsx:143 | a user name is rejected exactly when it consists only of white space, the empty name included |
| Text.TrimEmptyIff | src/app/login/page.tsx:143 | `trim` returns the empty string exactly when the input is all white space |
| Text.TrimStartShape | src/app/login/page.tsx:143 | trimming the start leaves nothing exactly for all-white-space text, and otherwise starts at a non-white-space character |
| Text.TrimEnd | src/app/login/page.tsx:143 | trimming the end leaves a prefix of the text that is empty or ends with a non-white-space character, and everything dropped after it is white space |
| Text.TrimStart | src/app/login/page.tsx:143 | trimming the start leaves a suffix of the text |
| Text.TrimStartDropsWhitespace | src/app/login/page.tsx:143 | everything trimming the start drops before the suffix is white space |
| Text.Trim | src/app/login/page.tsx:143 | `trim` returns a contiguous piece of the text with only white space before and after it, and that piece is empty or starts and ends with a non-white-space character: the text with its outer white space removed |
| Text.TrimSurrounded | src/app/login/page.tsx:143 | trimming the start and then the end drops white space only, and what is left sits in the text at the position where the leading white space ends |
| Login.PasswordInvalid | src/app/login/page.tsx:152 | the check counts UTF-16 code units: a password of six or more characters always passes and one of at most two never does |
| Login.PasswordCheckOnBmp | src/app/login/page.tsx:152 | without astral characters the check is exactly "shorter than six characters" |
| Text.Utf16LengthBmp | src/app/login/page.tsx:152 | for text without astral characters, `length` equals the number of characters |
| Text.Utf16Length | src/app/login/page.tsx:152 | `length` counts each character as one or two UTF-16 code units, so it lies between the number of characters and twice that |
| Login.CollectFormData | src/app/login/page.tsx:99-102 | the `forEach` loop builds the object that assigns the entries in order |
| Login.FormObject | src/app/login/page.tsx:99-102 | the built object's keys are exactly the names of the form's entries |
| Login.FormObjectLastWins | src/app/login/page.tsx:99-102 | a key is in the object exactly when some entry has it, and it holds the value of its last entry |
| Login.PasswordNeverSent | src/app/login/page.tsx:99-105 | the page's form has no `contrasena` entry, so the body as written always leaves the password undefined |
| Login.IntendedCredentialsComplete | src/app/login/page.tsx:99-109 | reading the key the password input is submitted under sends both inputs exactly as typed |
| Login.SignInPage.HandleSubmit | src/app/login/page.tsx:88-109 | the login endpoint is called exactly when validation passes, and the error flags and messages are those of the validation; the body sent is the corrected one (see Findings), with the user name and the password as typed |
| Settings.SettingsPage.constructor | src/app/configuracion/page.tsx:22-45 | the page starts with five distinct entry objects with the keys username, email, notifications, darkMode and language and their initial values |
| Settings.InitialEntries | src/app/configuracion/page.tsx:24-45 | the initial list holds five different new objects, keyed username, email, notifications, darkMode and language in that order, with their initial values |
| Settings.InitialKeysDistinct | src/app/configuracion/page.tsx:22-45 | the initial keys are pairwise distinct |
| Settings.SettingsPage.HandleToggleChange | src/app/configuracion/page.tsx:47-52 | the entry object at the index is updated in place, so the values become the old values with that one negated; the list keeps the same objects |
| Settings.ToggleAt | src/app/configuracion/page.tsx:47-52 | a toggle keeps the length, stores at the index the boolean negation of that value's truthiness, and leaves every other value alone |
| Settings.ToggleAtTwice | src/app/configuracion/page.tsx:47-52 | toggling the same boolean entry twice restores the values |
| Settings.ToggleOnText | src/app/configuracion/page.tsx:49-50 | toggling a text entry stores whether the text was empty, not the text |
| Settings.SettingsPage.OnToggleRow | src/app/configuracion/page.tsx:93-99 | the darkMode row flips only the store's dark-mode flag and leaves its own entry; any other row toggles its entry and leaves the flag |
| Settings.SettingsPage.EditText | src/app/configuracion/page.tsx:132-136 | typing into a text row stores the typed string in that entry object, in place, and nothing else changes |
| Settings.EditAt | src/app/configuracion/page.tsx:132-135 | typing stores the typed string at the index, keeps the length and leaves every other value alone |

## Left out

- The interact library is not modelled. Its event delivery, inertia and the pointer itself are left out. The listeners are modelled on the values they receive.
- The parent restriction of the drag modifier (`restriction: "parent"`, `endOnly`) is left out because it depends on the page layout. The model's drag moves are unconstrained.
- Geometry.Element.OnResizeMove: which edges a resize drags is its `Edges` argument and the proposed rectangle is its `raw` argument, since the pointer and the library's rectangle arithmetic are not modelled; in particular nothing ties the proposed size of an undragged side to the element's current size.
- Geometry.DragsAccumulate, Geometry.GesturesAccumulate: positions, sizes and angles are exact `real` numbers, not JavaScript doubles, so the rounding of each frame's sum (0.1 + 0.2) is not captured and the sums are exact.
- ProductForm.TypedNumberStored: the price and stock fields hold exact `real` values; the nearest-double rounding of a typed decimal such as `0.1` is not captured.
- The CSS `transform` strings the listeners write are not modelled. Only the attribute values they store are. The number-to-text-to-number round trip of `toString` and `parseFloat` on those attributes is treated as exact.
- When applyInteract's effect runs again after a state change, it re-enables every element's dragging. That timing is React scheduling and is not modelled, so `draggable` holds only what the lock callbacks last set.
- The lock toggle only switches dragging. Resizing and rotating a locked element are not disabled by the code, and the model follows the code.
- The angle is never reduced modulo 360, and the model follows the code.
- Rack creation is not optimistic and there is no rollback. Nothing is appended until the server replies, and a failure is only logged, as the model states.
- Deposito.FloorPlan.CompleteAddRack: the refetch that the create mutation's cache-tag invalidation triggers is not modelled; it reaches the page through `SeedRacks`.
- guardarRackEnBaseDeDatos, at src/app/deposito/page.tsx:92-117, is never called by the page and is not modelled.
- The `nextId` counter is declared but never read or updated, so it is not part of the model.
- Printing, the QR-code rendering, the progress bar, the animations, the styles, and the label modal's contents are not modelled.
- The drawers of the floor plan close only through their own handlers. No dismissal is chained between them.
- src/state/api.ts, the dashboard, src/app/productos/page.tsx and the i18n set-up are not part of this model. Only the login endpoint's body shape (src/state/api.ts:134-140) is used.
- The category and rack selects call `parseInt` on an option value. The model takes the parsed integer as the handler's argument, so `parseInt`'s NaN is not modelled.
- Text.ParseFloat: covers signs, digits and one decimal point, with `None` standing for NaN. Exponents and `Infinity` are not modelled.
- The random UUID generator is a parameter (`freshId`). Its uniqueness is not modelled.
- ProductForm.CreateProductModal.HandleClose: the parent's onClose callback that it calls is not modelled.
- ProductForm.CreateProductModal.HandleQRGenerated: the awaited onCreate call is outside this model, and so are its success and error alerts.
- ProductForm.CreateProductModal.HandleSubmit: models the handler only. The form has no `noValidate`, so the browser's constraint validation runs first and blocks the submit event for an empty required field (name, price, stock, supplier), a negative price or stock, a price that is not a multiple of 0.01 or a stock that is not whole (src/app/productos/CrearProductoModal.tsx:147, 165-167, 184-185, 244); the model accepts such forms whenever the handler's own check passes.
- Login.SignInPage.HandleSubmit: stops at the body sent. The endpoint's reply, the navigation to the dashboard, and the error dialogs are left out.
- Login.SignInPage.HandleSubmit: sends the body read from the key `password`, the corrected behaviour; as written the password is left undefined (see Findings, and Login.PasswordNeverSent).
- ProductForm.QrEffectAsWritten: the QR URL is a parameter; its construction from the JSON of the frozen record and the QR image service are not modelled.
- The login page's dialog state, the "forgot password" dialog and the dark-mode dispatch are not modelled.
- The settings page's language row is a select wired to the i18n library, not to its entry, and it is not modelled. The translation of the labels is not modelled either (`labelKey` is the key).

## Findings

| source | as written | input that shows it | evidently intended | confidence | as-written member | corrected member |
|---|---|---|---|---|---|---|
| src/app/login/page.tsx:105 | handleSubmit destructures `contrasena` from the object built from the form. The password input is submitted under the name `password` (line 259), so `contrasena` is undefined, and the login body (src/state/api.ts:134-140) never carries the password | any submit that passes validation, e.g. user name `admin` and password `secret1` | the password typed is sent as `contrasena` | high (not executed) | Login.SubmittedCredentials, exhibited by Login.PasswordNeverSent | Login.IntendedCredentials, proved complete by Login.IntendedCredentialsComplete and used by Login.SignInPage.HandleSubmit |
| src/app/(components)/QR/QrProductoModal.tsx:38-42 | the QR modal's effect computes `qrUrl` and discards it. QRModalProps (lines 5-17) has no `onQRGenerated`, so the prop passed at src/app/productos/CrearProductoModal.tsx:308 is never called, and handleQRGenerated never calls onCreate | any submit that passes the check, e.g. name `Caja`, price `10`, stock `5`: the QR step opens and no product is created | the generated URL is handed to onQRGenerated, which calls onCreate with the form and that URL | high (not executed) | ProductForm.QrEffectAsWritten, exhibited by ProductForm.QrUrlNeverHandedOn | ProductForm.QrEffectIntended, used by ProductForm.CreateProductModal.CompleteQrStep |
