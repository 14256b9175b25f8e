# Kanban view plugin: a Dafny model

The plugin shows the records of a custom table as a kanban board. It has two
parts. This project models both of them and proves properties of the model.

- **The builder.** `Plugin::getBoardItems` reads the view's column mapping.
  The mapping names a category column (a select field), and optionally title,
  detail, avatar and tag columns. From it the builder makes one board per
  option of the category column, in option order. It places on each board a
  card for every record whose category value matches the board's key. Each
  card carries:
  - a title, taken from the title column or the record's default label;
  - a detail text;
  - an avatar, chosen by a first-match fallback chain;
  - the record's current tag keys, normalised from five stored shapes;
  - the tag options and the update endpoint.
- **The renderer.** `public/jkanban-custom.js` draws extra content into each
  card from that board data, which it keeps as a JSON mirror in the page. It
  draws:
  - an avatar image, or a coloured initial;
  - a priority bar;
  - a row of tag chips with an edit popup.

  It also sends the update calls when a card is dropped on another board or
  a tag selection is applied. After a successful tag save it patches the
  mirror.

## Modules

- `Values`, `Php`, `Js` and `Decimal` are the value model both parts share.
  - A JSON-like `Value` whose objects are ordered field lists: PHP arrays and
    JavaScript objects both keep insertion order.
  - PHP's `isset`, `empty`, `is_scalar`, `is_numeric`, `(string)` and `??`.
  - JavaScript's truthiness, `String()`, `===` and `==`.
  - Integer/decimal-text conversion.
- `Kanban` holds the board data the builder hands to the page: `Board`,
  `Item`, `AvatarInfo`, `SelectOption`, and the board and card id schemes.
- `Builder` is `getBoardItems`. The host helpers it calls are fields of a
  `Host` value of uninterpreted functions:
  - column lookup;
  - `isMatchString`;
  - user lookup;
  - `url()`;
  - the update endpoint;
  - the table name.

  The loop over records is a left fold (`PlaceAll`). It is proved equal to a
  per-board reference filter (`Cards`).
- `BuilderProps` holds lemmas about built boards, and concrete situations
  that show the builder's behaviour.
- `Tags` covers the renderer's tag handling:
  - reading a card's tags;
  - drawing chips;
  - the selection popup;
  - the update URL lookup;
  - the save call;
  - the mirror patch after a save.
- `Card` covers one card's render:
  - the item lookup by element id;
  - the avatar colour and initial;
  - the priority colour and bars;
  - the tag row.

  A render is a function from the card element's state to its new state. A
  `threw` flag says the render stopped on a JavaScript TypeError. The parts
  written before the error stay written.
- `Drop` is the drop handler's board lookup and update payload.
- `System` applies the renderer's rules to the boards the builder produces.
  It covers:
  - drops on built boards;
  - finding a record's card;
  - the absence of priority bars;
  - saving tags, then redrawing from the patched mirror.

## Model

| member | source | states |
|---|---|---|
| Builder.ContextOf | Plugin.php:73-82 | there is no resolved mapping exactly when the category option is unset (falsy) or names no column. A resolved mapping holds the category column, and the title, detail, avatar and tag columns each resolved from its own option (none when that option is unset) |
| Builder.ResolveColumn | Plugin.php:85-92 | an unset column option maps to no column; a set one maps to whatever the host's column lookup returns |
| Builder.GetBoardItems | Plugin.php:72-406 | an unset or unresolved category gives the empty list. Otherwise there is one board per category option, in option order, with id `board-id-<key>`, the category column's name, the key and the option text as title. Every board's `drapTo` lists all board ids. A board's cards are exactly those of the records matching its key, in record order |
| Builder.PlaceAllIsFilter | Plugin.php:142-147 | running the record loop over any boards appends to each board exactly its reference contents: the cards of the matching records, in order |
| Builder.Cards | Plugin.php:142-147 | a board's reference contents are sound (every card is the card of a matching record) and complete (every matching record's card is there), and no longer than the record list |
| Builder.Place | Plugin.php:142-147 | one pass of the record loop appends the record's card to exactly the boards whose key its category value matches and leaves the others as they were |
| Builder.PlaceAll | Plugin.php:142-147 | the record loop keeps the number of boards and every board's fields, and only ever appends cards |
| Builder.LabelOrText | Plugin.php:152-158 | an array contributes its `label` when set, a string itself, a number its decimal text, `true` "1" and `false` ""; null and label-less arrays contribute nothing |
| Builder.ResolveTitle | Plugin.php:148-161 | the title is the default label when no title column is mapped, when the value is empty, or when the value contributes nothing (a list, a label-less array). Otherwise it is what the value contributes: the `label` of an array, a string itself, the text of a number or of `true` |
| Builder.ResolveDetail | Plugin.php:164-174 | the detail is what the detail value contributes, else the empty string, never the default label |
| Builder.KeyIdOrValue | Plugin.php:189-195 | a stored option names its `key` if set; else its `id` if set; else its `value` if set; else nothing |
| Builder.KeysOfEach | Plugin.php:188-196 | every name comes from an element, and every element that names a key contributes it; when all do, exactly those names in list order |
| Builder.KeysOfEachAppend | Plugin.php:188-196 | the names keep element order and multiplicity: those of a concatenation are the concatenation of the names |
| Builder.NonEmptyScalars | Plugin.php:208-212 | a plain list contributes exactly its non-empty scalars, and the whole list when all elements are non-empty scalars |
| Builder.NonEmptyScalarsAppend | Plugin.php:208-212 | the filter keeps order and multiplicity: it distributes over concatenation |
| Builder.NormaliseTags | Plugin.php:184-218 | one result per stored shape: an array whose first element is an array gives the names of its elements; another array that names a key itself (`key`, `id`, `value`) gives that one key; any other array gives its non-empty scalars; a scalar gives itself when non-empty; null gives nothing. Every tag is non-null and taken from the stored value |
| Builder.CurrentTags | Plugin.php:177-222 | the card starts with the normalised form of the tag column's stored value; an unmapped or unset tag column gives no tags |
| Builder.Absolutise | Plugin.php:295-297 | a URL starting with `/` goes through `url()`; one starting with `http`, or not with `/`, is kept as it is |
| Builder.ChosenAvatar | Plugin.php:281-292 | a non-empty `avatar_url` wins; else a non-empty `avatar` becomes `url('admin/files/<avatar>')`; else the default image |
| Builder.FromUserLike | Plugin.php:278-333 | an embedded user or `created_user` shows its `name` (or ''), its `email` (or ''), and its chosen image made absolute |
| Builder.FromUser | Plugin.php:249-269 | a user found by id shows their `user_name` (or ''), their `email` (or ''), and their avatar file if set, else the default image |
| Builder.FromAvatarField | Plugin.php:233-342 | first match wins: a numeric value is a user id (no avatar if the user is missing); an array with `email` is a user; an array with `created_user` wraps a user; an array with neither yields nothing; a non-empty scalar is a name with the default image; null or an empty scalar yields nothing |
| Builder.ResolveAvatar | Plugin.php:233-383 | the avatar column's avatar wins, then the record creator's, then `{User, '', default image}` |
| Builder.BuildItem | Plugin.php:388-402 | a card has id `item-id-<id>` and `dataid` the record id. It carries the resolved title, detail, avatar and tags, the raw tag value, and the shared table name, update URL, tag column and options. It keeps the record's whole data as `original_item_data`, allows several tags and has no priority |
| BuilderProps.BoardMembership | Plugin.php:142-147 | board `i` has key option `i`; every card on it is the card of a record matching that key, and every matching record has its card there |
| BuilderProps.UnmatchedRecordIsDropped | Plugin.php:142-147 | a record that matches no board key has no card anywhere |
| BuilderProps.SharedItemFields | Plugin.php:388-402 | every card on every board has the same table name, update URL, tag column and tag options, and allows several tags |
| BuilderProps.ItemIdDeterminesRecord | Plugin.php:389-392 | two cards with the same `id` stand for the same record id |
| BuilderProps.AvatarAlwaysHasImage | Plugin.php:376-383 | if `url()` never returns the empty string, every card's avatar has a non-empty image URL |
| BuilderProps.ChosenAvatarNonEmpty | Plugin.php:281-297 | under the same assumption the chosen, absolutised image URL is never empty |
| BuilderProps.DetailIgnoresLabel | Plugin.php:164-174 | changing a record's default label never changes its detail text |
| BuilderProps.TitleAgreesWithDetail | Plugin.php:148-174 | with one column for both, a non-empty value that contributes text gives the same title and detail. An empty value gives the default label as title, yet "0" stays "0" as detail |
| BuilderProps.MultiSelectKeys | Plugin.php:187-196 | a list of option objects that all have a `key` gives those keys, one per element, in order |
| BuilderProps.BareScalarTag | Plugin.php:216-218 | the bare scalar tag value "urgent" is read as the one key "urgent" |
| BuilderProps.NumericUserWithoutAvatar | Plugin.php:240-269 | avatar value 42, whose user has no avatar, shows the user's name on the default image, whoever created the record |
| BuilderProps.TodoScenario | Plugin.php:142-147 | with options {1: Todo, 2: Done} and text comparison, a record with category 1 is the only card on "Todo", and "Done" is empty |
| Kanban.LabelOf | public/jkanban-custom.js:384-388 | an option key has a label exactly when some option has that key, and the label is the first such option's text |
| Kanban.OptionText | public/jkanban-custom.js:384-388 | `tagOptions[key]` gives an option's own label when the key has one; otherwise the text of what every object inherits under that name ("toString", "constructor", "__proto__", ...), or nothing |
| Js.InheritedText | public/jkanban-custom.js:384-388 | what a plain object inherits prints as, in V8's (Chromium's) layout: `function Object() { [native code] }` for "constructor", `[object Object]` for "__proto__", `function <name>() { [native code] }` for the other Object.prototype methods; nothing for any other name |
| Kanban.BoardIdInjective | Plugin.php:134 | different option keys give different board ids |
| Decimal.IntToString | Plugin.php:389 | an id's decimal text is a well-formed integer numeral; it has digits only exactly when the id is not negative |
| Decimal.NatToString | Plugin.php:389 | a natural number prints as a non-empty run of digits without a leading zero |
| Decimal.IntRoundTrip | Plugin.php:389 | reading back an id's decimal text gives the id |
| Decimal.NatRoundTrip | Plugin.php:389 | reading back a natural number's digits gives the number |
| Decimal.IntToStringInjective | Plugin.php:389 | different ids have different decimal texts |
| Tags.KeyIdOrValue | public/jkanban-custom.js:339-343 | the first truthy of `key`, `id`, `value`, in that order; falsy exactly when all three are |
| Tags.TruthyOnly | public/jkanban-custom.js:347 | exactly the truthy elements are kept, and all of them when all are truthy |
| Tags.TruthyOnlyAppend | public/jkanban-custom.js:347 | the filter keeps order and multiplicity: it distributes over concatenation |
| Tags.KeysOrSelves | public/jkanban-custom.js:339-344 | a null element raises; otherwise the result is each element's key (or the element itself) in list order, with the falsy ones dropped |
| Tags.FromRaw | public/jkanban-custom.js:334-358 | one result per raw shape: an empty list gives nothing; a list whose first element is an object, a list or null maps each element to its key and raises on a null element; any other list keeps its truthy elements; an object gives its key when truthy; a truthy scalar gives itself. Every recovered tag is truthy |
| Tags.ClientTags | public/jkanban-custom.js:327-361 | a non-empty `current_tags` is used as it is; otherwise a truthy raw value is read as `FromRaw` reads it, and a falsy one gives no tags |
| Tags.ChipsFor | public/jkanban-custom.js:381-390 | every chip is a tag whose `tagOptions` text is non-empty, with that text (an own label, or an inherited name's text). Every such tag has its chip. When every tag shows, there is one chip per tag |
| Tags.ChipsForAppend | public/jkanban-custom.js:383-390 | chips follow tag order, one per shown tag: the chips of a concatenation are the concatenation of the chips |
| Tags.InheritedNameGetsChip | public/jkanban-custom.js:384-388 | a tag "toString" that no option has still gets a chip, showing the inherited function's text |
| Tags.RenderRow | public/jkanban-custom.js:381-398 | the "タグなし" note shows exactly when there are no tags; the chips are exactly those of the tags, in tag order |
| Tags.OpenPopup | public/jkanban-custom.js:437-446 | the popup has one chip per option, pre-selected exactly when its key is among the card's chips |
| Tags.Toggle | public/jkanban-custom.js:474-476 | a click flips that chip and no other |
| Tags.ToggleTwice | public/jkanban-custom.js:474-476 | two clicks on a chip restore the selection |
| Tags.ToggleFlipsMembership | public/jkanban-custom.js:474-476 | with distinct keys, a click moves exactly that option's key into or out of what Apply hands on |
| Tags.SelectedKeys | public/jkanban-custom.js:486-491 | Apply hands on exactly the keys of the selected options: all keys in option order when all are selected, none when none are |
| Tags.SelectedKeysAppend | public/jkanban-custom.js:486-491 | the keys come in option order: those of two runs of options are the first run's followed by the second's |
| Tags.ClosePopup | public/jkanban-custom.js:478-496 | Cancel or close leaves the row and saves nothing; Apply redraws the row from the selected keys and saves exactly them |
| Tags.UpdateTagSelectionUI | public/jkanban-custom.js:505-537 | the redrawn row shows the note exactly when nothing is selected; its chips are those of the selected keys, in selection order; every chip is a selected key that shows, and every selected key that shows has a chip |
| Tags.ChipKeyFromTag | public/jkanban-custom.js:519-527 | every chip is drawn for one of the tags |
| Tags.ReopenShowsApplied | public/jkanban-custom.js:443-445 | with distinct keys and non-empty labels, reopening the popup after Apply pre-selects exactly what was applied |
| Tags.UrlIn | public/jkanban-custom.js:617-622 | one board yields a URL exactly when some card's `dataid` loosely equals the id, and it is such a card's URL |
| Tags.UrlInIsFirst | public/jkanban-custom.js:617-622 | the URL found on a board is that of its first card whose `dataid` loosely equals the id |
| Tags.GetUpdateUrlFromItemId | public/jkanban-custom.js:615-625 | with no loosely equal `dataid` the result is ''. Any other result is the URL of a matching card. It is never '' when a card matches and no card has an empty URL |
| Tags.UpdateUrlIsFirst | public/jkanban-custom.js:615-625 | the URL found is that of the first matching card of the first board that holds one |
| Tags.SaveTagSelection | public/jkanban-custom.js:547-583 | no call is made exactly when the URL lookup gives ''; otherwise the call posts the keys under the column name, with the id and table name |
| Tags.SaveWithSharedUrl | public/jkanban-custom.js:554-557 | when all cards share one non-empty URL and one card matches, the call goes to that URL |
| Tags.PatchItems | public/jkanban-custom.js:591-597 | in one board, only the first card whose `dataid` is identical to the id is retagged; every other card is unchanged |
| Tags.PatchTags | public/jkanban-custom.js:588-601 | every board keeps its fields and gets the one-board patch |
| Tags.Retagged | public/jkanban-custom.js:594-596 | a retagged card holds the saved tags in both its current and its raw tag value |
| Tags.RetaggedKeepsTheRest | public/jkanban-custom.js:594-596 | retagging changes nothing about a card but its two tag values |
| Tags.PatchItemsIdempotent | public/jkanban-custom.js:591-597 | patching a board twice equals patching it once |
| Tags.PatchTagsIdempotent | public/jkanban-custom.js:588-601 | saving the same selection twice leaves the mirror as saving it once |
| Tags.RetaggedReadsBack | public/jkanban-custom.js:594-596 | a retagged card reads back exactly the saved keys and draws the row the popup drew |
| Card.CodeUnits | public/jkanban-custom.js:245 | a character is one UTF-16 unit below U+10000, else a high and a low surrogate |
| Card.CodeUnitsRoundTrip | public/jkanban-custom.js:245 | decoding the units gives the character back |
| Card.CodeSum | public/jkanban-custom.js:245 | a name's code-unit sum is at most 0x20000 per character. A one-character BMP name sums to its code; a one-character name outside the BMP sums its two UTF-16 surrogates |
| Card.CodeSumAppend | public/jkanban-custom.js:245 | the code-unit sum of a concatenation is the sum of the parts' sums |
| Card.ColourOf | public/jkanban-custom.js:242-247 | the colour is always one of the 18 palette entries; '#bdc3c7' for the empty name; else the entry the sum selects modulo 18 |
| Card.ColourIgnoresOrder | public/jkanban-custom.js:242-247 | swapping two parts of a name never changes its colour |
| Card.UpperUnit | public/jkanban-custom.js:227 | ASCII lower-case letters are raised; every other unit is kept |
| Card.Initial | public/jkanban-custom.js:227 | no unit for the empty name; else the first UTF-16 unit, upper-cased. Beyond the BMP that is the character's own high surrogate, 0xD800 plus its offset above 0x10000 divided by 0x400 |
| Card.Avatar | public/jkanban-custom.js:186-238 | the render raises exactly when there is an image URL or a truthy name, and the name is not a string. It keeps the container exactly when there is neither. An image URL gives the image with the name's colour and initial as fallback; otherwise the name's initial on the name's own colour, titled with the name |
| Card.LowerAscii | public/jkanban-custom.js:257 | ASCII capitals are lowered and every other character kept |
| Card.LowerAsciiIdempotent | public/jkanban-custom.js:257 | lowering twice equals lowering once |
| Card.Override | public/jkanban-custom.js:252-254 | a truthy option is used as text; otherwise the built-in colour |
| Card.PriorityColour | public/jkanban-custom.js:250-257 | the lower-cased text picks high/medium/low (each overridable); "constructor" and "__proto__" reach inherited values; anything else is '#bfbfbf' |
| Card.PriorityIgnoresCase | public/jkanban-custom.js:257 | the colour ignores the case of the priority's text |
| Card.HighPriorityDefault | public/jkanban-custom.js:250-257 | without options, "High" gives '#ff4d4f' |
| Card.FindIn | public/jkanban-custom.js:160 | one board yields a card exactly when one matches the element id, and it is a matching card of that board |
| Card.FindInIsFirst | public/jkanban-custom.js:160 | the card found is the first one the element id names |
| Card.FindItem | public/jkanban-custom.js:157-165 | a card is found exactly when one on some board matches the element id; it matches and is on a board |
| Card.FindItemIsFirst | public/jkanban-custom.js:157-165 | the card found is the first match on the first board that holds one |
| Card.Bars | public/jkanban-custom.js:249-266 | the placeholder gets this render's bar, or none; at most one bar is prepended, and only to a card without bars |
| Card.RenderRest | public/jkanban-custom.js:249-312 | after the avatar: the bars, then the tag row; it raises exactly when the tag row's extraction raises |
| Card.RenderCard | public/jkanban-custom.js:150-312 | a falsy or unknown element id changes nothing. Otherwise: the render raises exactly when the avatar or the tag extraction raises; the detail text is written when truthy; the avatar view and the tag row are drawn as their steps say. An avatar raise leaves the bars and the tag row as they were; otherwise the bars are what the priority-bar step makes of them |
| Card.RenderIdempotent | public/jkanban-custom.js:150-312 | rendering a card again changes nothing; in particular it adds no second bar |
| Card.AtMostOneBar | public/jkanban-custom.js:263-265 | a card never carries more than one prepended bar, or more than one placeholder bar |
| Card.NoPriorityNoBar | public/jkanban-custom.js:249-250 | cards without a priority never get a bar |
| Card.FirstRenderDrawsTwoBars | public/jkanban-custom.js:258-265 | the first render of a card with a priority leaves two bars of one colour: one prepended, one in the placeholder |
| Drop.TargetBoard | public/jkanban-custom.js:80-87 | the first board whose id is identical to the drop target's id; none exactly when no board's is |
| Drop.DropPayload | public/jkanban-custom.js:76-100 | nothing is sent exactly when no board matches or the first matching board's column name is empty. Otherwise the card's update URL gets `{column: key}` of that first matching board, with the card's id and table name |
| System.BuiltBoardsAreShaped | Plugin.php:389-392 | every built card has a numeric `dataid` and the `id` derived from it |
| System.ShapedMatch | public/jkanban-custom.js:160 | on such a card, the element id of record `x` matches exactly when the card's `dataid` is `x` |
| System.DropOnBuiltBoard | public/jkanban-custom.js:80-94 | with distinct option keys and a named category column, dropping on option `i`'s board sends that column's name and option `i`'s key |
| System.DropOnUnknownBoard | public/jkanban-custom.js:89-92 | a drop target that is no built board sends nothing |
| System.FindBuiltCard | public/jkanban-custom.js:157-165 | with distinct record ids, the element of a placed record finds exactly that record's card |
| System.BuiltCardsHaveNoPriority | Plugin.php:388-402 | no built card has a priority |
| System.NoPriorityBarOnBuiltCards | public/jkanban-custom.js:249-266 | drawing a built card never prepends a bar, whatever the options say |
| System.BuiltUpdateUrl | public/jkanban-custom.js:615-625 | on built boards the URL lookup gives '' or the plugin's update URL |
| System.SaveOnBuiltBoard | public/jkanban-custom.js:554-580 | saving for a placed record posts its keys to the plugin's update URL when that URL is not empty |
| System.FindInPatched | public/jkanban-custom.js:591-597 | patching a board for record `x` keeps the card the element id of `x` finds, retagged |
| System.FindItemPatched | public/jkanban-custom.js:588-601 | patching the mirror for record `x` keeps the card the element id of `x` finds, retagged |
| System.SavedTagsSurviveRedraw | public/jkanban-custom.js:588-601 | after a save, redrawing the record's card from the patched mirror shows exactly the row the popup drew on Apply |
| System.ClientReadsOptionLists | public/jkanban-custom.js:334-344 | for a stored list of option objects with non-empty text keys, the renderer's fallback reading gives exactly the builder's tags |
| System.ClientReadsKeyLists | public/jkanban-custom.js:346-347 | for a stored list of text keys, none empty or "0", the renderer's fallback reading gives exactly the builder's tags |
| System.ZeroKeyOnlyTheClientKeeps | Plugin.php:208-212 | the key "0" is dropped by the builder as empty but kept by the renderer's fallback reading |

## Left out

- Logging, the AJAX calls, toasts, the board library (jKanban), page
  initialisation, JSON parsing of the hidden inputs and popup placement are
  I/O. The model keeps the values they compute or send. The mirror is taken
  to be what the builder produced. The places where JSON encoding changes a
  value are listed below under Builder.ChosenAvatar and Kanban.OptionText.
- Host helpers are uninterpreted `Host` fields:
  - `CustomColumn::getEloquent` and `createSelectOptions` are the column lookup;
  - `isMatchString` is the key comparison;
  - `LoginUser::find` is the user lookup;
  - `url()` is the URL helper;
  - `getFullUrl('update')` is the update endpoint;
  - `getLabel()` and `toArray()` are record fields.

  The exception `LoginUser::find` may throw is a missing user.
- Numbers are integers. Floats, exponents and numeric strings with spaces
  are left out, so `is_numeric` is an optional sign followed by digits.
- Integers are unbounded. PHP integers are 64-bit: `(int)` on a numeric
  string beyond PHP_INT_MAX (Plugin.php:242) saturates, while the model
  looks up the exact id. JavaScript numbers are doubles, exact only up to
  2^53. A larger `dataid` prints rounded in the `item-id-` element id, so
  the card lookup misses, and from 1e21 up it prints in exponent form
  (`1e+21`). Decimal.IntToString always prints every digit. Ids are taken
  to stay below 2^53.
- Builder.ChosenAvatar: a non-string `avatar_url` is turned into text
  with PHP's `(string)`. PHP itself keeps the raw value, so a number reaches
  the page as a JSON number, which prints the same, and `true` as a JSON
  boolean, which the page prints as "true" where the model has "1".
  Avatar URLs are modelled as text.
- Builder.ChosenAvatar: an `avatar_url` that is an array makes PHP raise a
  TypeError in `strpos`. The model instead turns it into the text "Array".
- PHP turns integer-like option keys into integers, so `key` may reach the
  page as a number. The model keeps keys as text. Both serialise to the same
  request value and the same board id.
- `drapTo` keeps the option keys as PHP array keys, so it is a JSON object
  unless the keys are 0..n-1. The model keeps its values in order. The board
  library does not read this misspelt property.
- jQuery's `.data()` turns numeric attribute text back into numbers. The
  model takes chip keys as strings. It takes the id read from the tag row to
  be the card's `dataid`, which is what the conversion gives for integer ids.
- Tags.OpenPopup: with jQuery's conversion, a numeric option key read back
  from a chip is a number and `includes` never finds it among the option
  keys. The model states the pre-check for string keys only.
- Case mapping beyond ASCII in `toUpperCase` and `toLowerCase` is left out.
- Kanban.OptionText: the tag options are taken to reach the page as a JSON
  object. When their keys are exactly 0..n-1, PHP encodes them as a JSON
  array. `tagOptions[key]` then reads what an array inherits. For example,
  "length" gives the option count and "__proto__" prints as "". The model
  reads what a plain object inherits. Own labels are read the same way in
  both cases.
- Integer-like object keys that JavaScript enumerates first are left out.
  Options keep their listed order.
- A non-object plugin-options value (e.g. JSON `null`) would make the render
  raise on its first property read. It is left out.
- The assignee, due-date (wall clock), attachment and custom-field parts of
  a card are left out. The builder never sets the properties they read, so
  on built cards they add nothing.
- The image `onerror` swap is an event. The model keeps the colour and
  initial it would show.
- The view-detail action (`getBoardUrl`, `appendKanbanItemEvent`) is left
  out. It only opens a host URL.
- `Plugin::update`, `grid`, the view option form, the record query, and the
  standalone demo board (kanban.js) are outside the modelled core.
- Behaviour of the code worth knowing, modelled as written:
  - After a successful drop the handler only redraws the card. It does not
    write the new key into the mirror.
  - The builder does not filter `current_tags` against the tag options. Only
    the drawn chips are filtered.
  - The chip row looks tag keys up on a plain object. A key that no option
    has but that names an inherited property ("toString", "constructor",
    "__proto__", ...) still gets a chip, showing that property's text.
  - The builder drops the tag key "0" as empty. The card then reaches the
    page with no current tags, and the renderer's fallback on the raw value
    reads "0" back as a tag after all.
