# discord-buttons: component model and send-options resolver

This project models the message-component layer of discord-buttons. It covers
the classes that an application builds by hand, and the resolver that turns
shorthand send options into the list of action rows sent over the wire.

- **`Js`** is the slice of JavaScript the classes rely on. It covers
  values tagged with their class, truthiness, and strict-mode property
  access: reads throw on `undefined` and `null`, and writes and `in` also
  throw on primitives. It also covers the `in` operator, `flat(Infinity)`,
  and the `TypeError` and `ReferenceError` exceptions. The helpers whose
  code is not part of this model are the fields of a `Helpers` value that
  every operation takes as a parameter: `resolveType`, `resolveButton`,
  `resolveString`, the menu resolvers, the button and menu-option classes,
  `MessageComponentTypes` and `parseInt`.
- **`Components`** is `BaseMessageComponent`: the constructor's type
  initialisation and the `create` factory.
  - `create` builds rows and menus whose own `setup` calls `create` again.
    So the factory, the row's `setup` (`RowSetup`) and the menu's `setup`
    (`MenuSetup`) form one mutually recursive cluster of functions.
  - A `Completion` records what a `setup` that throws midway has already
    assigned.
  - The wire codes are ACTION_ROW = 1, BUTTON = 2 and SELECT_MENU = 3, from
    `typings/index.d.ts`.
- **`ActionRow`** is the class `MessageActionRow`. Its field `components`
  is reassigned and appended to by the methods, and each method is proved
  against the factory's functions.
- **`Menu`** is the class `MessageMenu`. Its fields are `placeholder`,
  `options`, `max_values`, `min_values`, `custom_id` and `label`. The
  methods are proved against `MenuSetup` and `MenuJSON`.
- **`ApiMessage`** is `resolveData` of `APIMessage` and of
  `sendAPICallback`. The two bodies are identical except for the flags
  prefix of `sendAPICallback`, so they are modelled once with a `callback`
  flag.
  - `Resolved` states declaratively the list the five shorthand fields
    produce: `type`, `component`, `components`, `buttons` and `button`.
  - The class method `ResolveData` runs the branches one after another,
    growing a local list. It is proved equal to `Resolved`.

The defects of the code are modelled as written, not fixed:

- the dead string-to-code conversion in `create`;
- the undeclared `component` in the row's `setup`, and the undeclared
  `deleteCount` in `removeComponents`;
- the placeholder read from `data.style`;
- `create` applied to the string `'SELECT_MENU_OPTION'` in the menu's
  option methods, which pushes `undefined`;
- `setPlaceholder` writing `label`;
- `removeOptions` splicing a `components` field that a menu does not have.

The name `'ACTION_ROW'` as `options.type` does not suppress the expansion of
a `components` array. The code compares `options.type` with the numeric
ACTION_ROW code, so the name takes the branch that wraps the whole options
bag: see `ApiMessage.ActionRowNameWrapsBag`.

A menu survives a round trip through its JSON only when its placeholder
already is `resolveString(undefined)` and its custom id is truthy or
`undefined`. `create` of a menu's `toJSON()` gives a menu whose placeholder
is `resolveString` of the absent `style`, and whose custom id is
`undefined` when it was falsy: see `Components.MenuJSONRoundTrip`.

## Model

| member | source | states |
|---|---|---|
| Components.InitialType | src/v12/Classes/interfaces/BaseMessageComponent.js:6-8 | `this.type` is `resolveType(data.type)` when `data` has a `type` key and `null` otherwise; `in` on a primitive throws |
| Components.OwnType | src/v12/Classes/MessageActionRow.js:7 | a row (and a menu) gets `resolveType` of its own class name as its type |
| Components.ConversionGuard | src/v12/Classes/interfaces/BaseMessageComponent.js:13-15 | the string-to-code guard is false for every value, so the conversion never runs |
| Components.KindOf | src/v12/Classes/interfaces/BaseMessageComponent.js:17-38 | each `switch` case is taken exactly when `data.type` strictly equals its label |
| Components.Create | src/v12/Classes/interfaces/BaseMessageComponent.js:10-40 | `undefined`/`null` data throws; a primitive or an unknown discriminator gives `undefined`; a result object's class is the one its `type` selects; only row and menu construction can throw otherwise |
| Components.CreatePrefix | src/v12/Classes/MessageActionRow.js:18 | mapping `create` over the first n entries gives n results, entry i being `create` of entry i, and succeeds exactly when every `create` succeeds |
| Components.CreateEach | src/v12/Classes/MessageActionRow.js:25 | `map(c => create(c))` keeps length and order, and succeeds exactly when every entry's `create` does |
| Components.CreateKnownCodes | src/v12/Classes/interfaces/BaseMessageComponent.js:17-37 | the BUTTON, SELECT_MENU_OPTION, ACTION_ROW and SELECT_MENU discriminators build a button, a menu option, a row from `RowSetup`, and a menu from `MenuSetup` |
| Components.CreateByNameIsUndefined | src/v12/Classes/interfaces/BaseMessageComponent.js:13-39 | a discriminator given by name (`'BUTTON'` and so on) is not converted: `create` returns `undefined` without throwing |
| Components.CreateOfString | src/v12/Classes/MessageMenu.js:33 | `create` of a string (here `'SELECT_MENU_OPTION'`) is `undefined` |
| Components.CreateClassDependsOnlyOnType | src/v12/Classes/interfaces/BaseMessageComponent.js:17-38 | two data objects with the same `type` give instances of the same class |
| Components.RowSetupWithoutComponents | src/v12/Classes/MessageActionRow.js:11-22 | without `component` and `components` keys the row's children become `[]` |
| Components.RowSetupComponentKeyThrows | src/v12/Classes/MessageActionRow.js:12-14 | a `component` key throws a ReferenceError before anything is changed |
| Components.RowSetupMapsCreate | src/v12/Classes/MessageActionRow.js:16-19 | a `components` array becomes the children, `create` entry by entry with length and order kept; when one entry throws, the row is left empty |
| Components.MarkOptions | src/v12/Classes/MessageMenu.js:32-34 | the loop over `data.options` completes exactly when every entry is an object (and `create` succeeds), pushing one `create` result per entry; when it throws on a primitive entry, a TypeError, it has pushed one result per entry before the first primitive one |
| Components.MenuOptions | src/v12/Classes/MessageMenu.js:27-34 | a completed options list has one entry for `data.option` when present plus one per entry of `data.options`; an exception other than a TypeError comes from `create(data.option)` and leaves `[]`; the full outcome is `Components.MenuOptionsOutcome` |
| Components.MenuOptionsOutcome | src/v12/Classes/MessageMenu.js:27-34 | the options list on both completions: `create(data.option)` first, then one `undefined` per entry of `data.options`; a throwing `create(data.option)` leaves `[]`; a TypeError from a `data.options` without `map` leaves the `option` entry alone, and one from a primitive entry leaves one `undefined` per entry before it |
| Components.CustomIdOf | src/v12/Classes/MessageMenu.js:36-38 | the custom id is `data.id` if truthy, else `data.custom_id` if truthy, else `undefined` |
| Components.MenuPrelude | src/v12/Classes/MessageMenu.js:19-25 | the four assignments add `placeholder`, `options`, `max_values` and `min_values`, keep every other field, and take the placeholder from `data.style`; each resolver sees the menu with the assignments before it |
| Components.MenuSetupBounds | src/v12/Classes/MessageMenu.js:19-25 | `max_values` is `resolveMaxValues` of the menu with the new placeholder and the resolved options, and `min_values` is `resolveMinValues` of that menu with the new maximum |
| Components.MenuFinish | src/v12/Classes/MessageMenu.js:27-38 | the options list is stored even when the loop threw; `custom_id` is assigned only when it did not |
| Components.MenuSetup | src/v12/Classes/MessageMenu.js:17-41 | non-object data throws before any assignment; otherwise the four fields are set, `options` is an array, and a completed setup sets `custom_id` |
| Components.MenuSetupPlaceholder | src/v12/Classes/MessageMenu.js:19 | the placeholder is `resolveString(data.style)` when `data` has a `placeholder` key, and `null` otherwise |
| Components.MenuSetupCustomId | src/v12/Classes/MessageMenu.js:36-38 | `custom_id` is `data.id` if truthy, else `data.custom_id` if truthy, else `undefined` |
| Components.MenuSetupOptions | src/v12/Classes/MessageMenu.js:21-34 | after a complete setup there are (1 if `option`) + \|`data.options`\| options: `create(data.option)` first, then `undefined` per entry |
| Components.MenuSetupOptionsIgnoreSelf | src/v12/Classes/MessageMenu.js:21-27 | the options after setup do not depend on what the menu or `resolveMenuOptions` held before |
| Components.MenuSetupKeys | src/v12/Classes/MessageMenu.js:17-41 | setup adds exactly the four fields it always assigns, plus `custom_id` when it completes |
| Components.MenuSetupKeeps | src/v12/Classes/MessageMenu.js:17-41 | setup keeps every field it does not assign (the type among them), and keeps the custom id when it throws |
| Components.MenuJSON | src/v12/Classes/MessageMenu.js:68-74 | a plain object with exactly `type` = SELECT_MENU, `placeholder` and `custom_id` |
| Components.MenuSetupWithoutOptions | src/v12/Classes/MessageMenu.js:27-38 | without `option` and `options` keys, `setup` completes |
| Components.MenuSetupOfJSON | src/v12/Classes/MessageMenu.js:17-41 | `setup` given a menu's JSON completes, with placeholder `resolveString(undefined)` and the custom id only if truthy |
| Components.MenuJSONRoundTrip | src/v12/Classes/MessageMenu.js:19 | `create` of a menu's JSON is a menu whose JSON has placeholder `resolveString(undefined)` and the custom id only if truthy; it equals the original JSON exactly when the placeholder was that value and the custom id was truthy or `undefined` |
| Components.ChildJSON | src/v12/Classes/MessageActionRow.js:44 | `c.toJSON()` succeeds only on an instance of a component class |
| Components.ChildJSONPrefix | src/v12/Classes/MessageActionRow.js:44 | mapping `toJSON` over the first n children gives n results in order, and succeeds exactly when each child's does |
| Components.RowJSONType | src/v12/Classes/MessageActionRow.js:45 | with the codes of the typings, a row's JSON `type` is the code 1 when `resolveType('ACTION_ROW')` is the name, and the name when it is the code |
| Components.RowJSON | src/v12/Classes/MessageActionRow.js:42-47 | exactly the keys `components` and `type`; `type` is `MessageComponentTypes[this.type]`; entry i is child i's JSON; it throws exactly when a child's `toJSON` does |
| ActionRow.MessageActionRow.Allocate | src/v12/Classes/MessageActionRow.js:6-7 | before `setup`, the row has its own type and no children |
| ActionRow.MessageActionRow.New | src/v12/Classes/MessageActionRow.js:6-9 | construction succeeds exactly when `RowSetup` on `data` (default `{}`) completes, with its children; on an ACTION_ROW discriminator it is exactly what `create` builds |
| ActionRow.MessageActionRow.Setup | src/v12/Classes/MessageActionRow.js:11-22 | the children become `RowSetup`'s, also when it throws; the type is untouched; it returns the row or the exception |
| ActionRow.MessageActionRow.AddComponents | src/v12/Classes/MessageActionRow.js:24-27 | the flattened arguments' `create` results are appended in order with earlier children unchanged, and the row is returned; if one throws, nothing is appended |
| ActionRow.AddComponentsJoin | src/v12/Classes/MessageActionRow.js:24-27 | two `addComponents` calls that succeed append what one call on all their arguments appends |
| ActionRow.AddComponentsFlattened | src/v12/Classes/MessageActionRow.js:25 | flattening the arguments beforehand does not change what `addComponents` appends |
| ActionRow.MessageActionRow.CreateAll | src/v12/Classes/MessageActionRow.js:25 | the entry-by-entry map of `create` equals `CreateEach`, including the first exception |
| ActionRow.CreatePrefixStops | src/v12/Classes/MessageActionRow.js:25 | once `create` throws on an entry, every longer prefix throws the same exception |
| ActionRow.MessageActionRow.AddComponent | src/v12/Classes/MessageActionRow.js:29-31 | the same effect and result as `addComponents` with the one argument |
| ActionRow.MessageActionRow.RemoveComponents | src/v12/Classes/MessageActionRow.js:33-40 | always throws a ReferenceError (`deleteCount` is undeclared) and changes nothing |
| ActionRow.MessageActionRow.ToJSON | src/v12/Classes/MessageActionRow.js:42-47 | one entry per child, each the child's JSON in order, with the looked-up type; it throws exactly when some child's `toJSON` does; reads the row only |
| Menu.MessageMenu.New | src/v12/Classes/MessageMenu.js:12-15 | construction succeeds exactly when `MenuSetup` on `data` (default `{}`) completes, and holds its fields; on a SELECT_MENU discriminator it is exactly what `create` builds |
| Menu.MessageMenu.Setup | src/v12/Classes/MessageMenu.js:17-41 | the fields become `MenuSetup`'s, also when it throws midway; the type and `label` are untouched; it returns the menu or the exception |
| Menu.SetupKeepsShape | src/v12/Classes/MessageMenu.js:17-41 | setup on a menu leaves a menu with the same fields and type |
| Menu.SetupKeepsLabel | src/v12/Classes/MessageMenu.js:17-41 | setup does not touch the `label` that `setPlaceholder` writes |
| Menu.MessageMenu.AddOption | src/v12/Classes/MessageMenu.js:43-46 | an object option gets `type` = `'SELECT_MENU_OPTION'`, and one `undefined` is appended at the end; a primitive option throws a TypeError and nothing changes |
| Menu.MessageMenu.AddOptions | src/v12/Classes/MessageMenu.js:48-51 | one `undefined` per flattened argument is appended exactly when all are objects; otherwise a TypeError and the options are unchanged |
| Menu.MessageMenu.RemoveOptions | src/v12/Classes/MessageMenu.js:53-60 | always throws a TypeError (`this.components` is undefined) and changes nothing |
| Menu.MessageMenu.SetPlaceholder | src/v12/Classes/MessageMenu.js:62-66 | only `label` changes, to the resolved text; the placeholder and `toJSON`'s result stay as they were |
| Menu.MessageMenu.ToJSON | src/v12/Classes/MessageMenu.js:68-74 | exactly `type` = SELECT_MENU, the placeholder and the custom id, with no options or bounds; reads the menu only |
| ApiMessage.RowOf | src/v12/Classes/APIMessage.js:141-144 | a wire row has exactly the ACTION_ROW code and its children |
| ApiMessage.MapCreate | src/v12/Classes/APIMessage.js:143 | `x.map(b => create(resolveButton(b)))` throws on a non-array, and otherwise keeps length and order and succeeds exactly when every entry does |
| ApiMessage.Spread | src/v12/Classes/APIMessage.js:196 | a non-array value is the single normalised child; an array gives one child per entry, child i being `create(resolveButton(entry i))`, and succeeds exactly when every entry's `create` does |
| ApiMessage.EntryRow | src/v12/Classes/APIMessage.js:173-182 | an entry of a `components` array becomes a wire row only when it is an object whose `components` is an array; then it succeeds exactly when `create` succeeds on every child, and child i of the row is `create` of child i |
| ApiMessage.EntryResults | src/v12/Classes/APIMessage.js:173 | one row completion per entry, in order |
| ApiMessage.Collect | src/v12/Classes/APIMessage.js:173 | `map` yields every value in order exactly when no callback throws |
| ApiMessage.TypeRows | src/v12/Classes/APIMessage.js:138-152 | a known `type` contributes one wire row and any other `type` none; with the ACTION_ROW code the row holds `components` mapped through `create`, with any other known type the normalised options bag; the branch throws exactly when that does |
| ApiMessage.ComponentRows | src/v12/Classes/APIMessage.js:154-167 | a truthy `component` contributes one wire row and a falsy one none; a `MessageActionRow` gives a row of its own children mapped through `create`, anything else a row of the one normalised component; the branch throws exactly when that does |
| ApiMessage.ComponentsRows | src/v12/Classes/APIMessage.js:169-190 | the `components` branch contributes only wire rows: none when `components` is falsy, or an array while `type` is the ACTION_ROW code; for an array otherwise, one row per entry, row i being `EntryRow` of entry i, and it throws exactly when some entry's row throws; for any other truthy value, one row of `create` over its `components` |
| ApiMessage.SpreadRows | src/v12/Classes/APIMessage.js:192-206 | a truthy `buttons`/`button` contributes one wire row, whose children are that field's `Spread`, and throws exactly when `Spread` does; a falsy one contributes none |
| ApiMessage.SpreadFieldAlone | src/v12/Classes/APIMessage.js:192-217 | a truthy `buttons` or `button` field alone (no known type for `undefined`) assigns exactly one row, the field's `Spread`, or throws its exception |
| ApiMessage.TwoButtonsOneRow | src/v12/Classes/APIMessage.js:192-197 | `{buttons: [b1, b2]}` assigns one row holding `b1` and `b2` normalised, in that order |
| ApiMessage.Resolved | src/v12/Classes/APIMessage.js:135-219 | on completion, `data.components` is assigned exactly when `hasComponent` holds |
| ApiMessage.Flagged | src/v12/Classes/APIMessage.js:22-28 | in `sendAPICallback` a truthy `flags` is parsed and `ephemeral === true` then sets 64; nothing else changes, and `APIMessage` keeps the host's data |
| ApiMessage.ResolvedData | src/v12/Classes/APIMessage.js:8-117 | the host's data with those flags, plus `components` exactly when the resolver assigns a list |
| ApiMessage.APIMessage.ResolveData | src/v12/Classes/APIMessage.js:121-222 | with data present, nothing changes and the message is returned; otherwise the data becomes `ResolvedData`, and the result is the message or the first branch's exception |
| ApiMessage.APIMessage.ResolveFlags | src/v12/Classes/APIMessage.js:22-28 | the two flag assignments give `Flagged` |
| ApiMessage.APIMessage.ResolveComponents | src/v12/Classes/APIMessage.js:135-219 | growing the local list branch by branch, setting `hasComponent` from the flag each branch returns and on a `null` field, gives `Resolved` |
| ApiMessage.APIMessage.TypeRow | src/v12/Classes/APIMessage.js:138-152 | the `type` branch gives `TypeRows`, sets `hasActionRow` exactly for the ACTION_ROW code, and sets `hasComponent` exactly for a known type |
| ApiMessage.APIMessage.ComponentRow | src/v12/Classes/APIMessage.js:154-167 | the `component` branch gives `ComponentRows` and sets `hasComponent` exactly when `component` is truthy |
| ApiMessage.APIMessage.ComponentsRowsFor | src/v12/Classes/APIMessage.js:169-190 | the `components` branch gives `ComponentsRows` and sets `hasComponent` exactly when `components` is truthy |
| ApiMessage.APIMessage.SpreadRow | src/v12/Classes/APIMessage.js:192-206 | the `buttons` and `button` branches give `SpreadRows` and set `hasComponent` exactly when the field is truthy |
| ApiMessage.NoShorthandLeavesComponents | src/v12/Classes/APIMessage.js:135-219 | without a known type and with no list field truthy or `null`, `data.components` is not assigned |
| ApiMessage.NullClears | src/v12/Classes/APIMessage.js:208-218 | a `null` list field makes the list `[]` whatever else is set, unless an earlier branch threw |
| ApiMessage.ActionRowTypeMakesOneRow | src/v12/Classes/APIMessage.js:138-183 | with the ACTION_ROW code, a `components` array, no truthy `component`, `buttons` or `button` and no `null` list field, the list is exactly one row of `create` over `components` (or its exception): the per-entry expansion is skipped |
| ApiMessage.ActionRowTypeNeedsArray | src/v12/Classes/APIMessage.js:140-145 | with the ACTION_ROW code, a non-array `components` throws a TypeError |
| ApiMessage.KnownTypeWrapsBag | src/v12/Classes/APIMessage.js:146-151 | with any other known type, no truthy `component`, `components`, `buttons` or `button` and no `null` list field, the list is one row whose only child is the whole options bag, normalised (or its exception) |
| ApiMessage.ActionRowNameWrapsBag | src/v12/Classes/APIMessage.js:138-151 | the name `'ACTION_ROW'` is a known type but not the code, so it wraps the bag |
| ApiMessage.ComponentsArrayResolves | src/v12/Classes/APIMessage.js:169-183 | without other shorthand, the list is the rows of the `components` entries, or the first exception |
| ApiMessage.ComponentsArrayRows | src/v12/Classes/APIMessage.js:169-218 | unless `type` is the ACTION_ROW code, a `components` array of n entries puts the n rows of `ComponentsRows` right after the `type` and `component` rows, and the list is complete only if every entry's row is; with no other shorthand field the list is exactly those n rows, complete exactly when every entry's row is, and an empty array still assigns `[]` |
| ApiMessage.ResolvedRowCount | src/v12/Classes/APIMessage.js:138-206 | the number of rows is the sum of what each field contributes |
| ApiMessage.ResolvedRowsAreActionRows | src/v12/Classes/APIMessage.js:138-218 | every row in the assigned list is a wire row with the ACTION_ROW code |
| ApiMessage.RowsFollowFieldOrder | src/v12/Classes/APIMessage.js:154-206 | the `component` row comes before the `buttons` row, which comes before the `button` row |
| ApiMessage.EphemeralFlags | src/v12/Classes/APIMessage.js:22-28 | in `sendAPICallback`, `ephemeral: true` leaves the flags at 64 whatever `flags` says; `APIMessage` never touches the flags |

## Left out

- The helpers whose code is not part of this model are parameters: the
  fields of `Js.Helpers`. Being Dafny functions, they are assumed total,
  never throwing, and without effect on their arguments.
  - They are `Util.resolveButton`, `resolveType`, `resolveMenuOptions`,
    `resolveMaxValues` and `resolveMinValues`, discord.js `resolveString`,
    `MessageButton` and `MessageMenuOption` (their fields and `toJSON`),
    `parseInt` and the `MessageComponentTypes` table.
  - `resolveMenuOptions`, `resolveMaxValues` and `resolveMinValues` receive
    a snapshot of the menu, so a change they make to the live menu is not
    modelled.
  - The Constants module is not part of this model. The lemmas that need
    the table's entries assume `Components.CodesAsTyped`: a numeric enum
    with the codes of `typings/index.d.ts`.
- Components.Create: its clause "only row and menu construction can
  throw" holds only under the assumption on the helpers, because the
  button and menu-option constructors and `resolveType` cannot throw here.
- Components.ChildJSON: it succeeds on every button and menu option only
  under the assumption on their `toJSON`.
- ApiMessage.APIMessage.ResolveData: its "first branch's exception"
  counts only exceptions of the modelled code, never one from
  `resolveButton` or `create`'s helpers.
- The host's `super.resolveData()` becomes the `base` data parameter.
- The embed handling in `resolveData` (`APIMessage.js` lines 16-20 and
  129-133) depends on the host's `MessageEmbed` class and is not modelled.
- `typeof components.length == 'number'` always holds for the local array,
  so the test is dropped. `components.length === 0 ? [] : components`
  assigns the same entries either way.
- The resolver's `map` calls are functions (`MapCreate`, `Collect`), not
  loops: the code has no explicit loop there.
- Aliasing is not modelled: the options bag, the arrays it holds and
  `this.data` are values.
- Menu.MessageMenu.AddOption: the assignment `option.type = …` is
  returned as `typed` rather than made visible through the caller's
  reference.
- Menu.MessageMenu.AddOptions and Components.MenuSetup: they do not
  model the same assignment on each entry of the argument list or of
  `data.options`. The entries are only checked to be objects.
- Arrays carry no named properties in this model. Assigning `type` on an
  array entry succeeds and changes nothing visible.
- Numbers are integers: NaN, infinities and fractions are not modelled.
- The round trip from JSON back to a component is stated for menus only
  (`Components.MenuJSONRoundTrip`). For rows and buttons it depends on
  `resolveType`, the type table and the button helpers, which are not part
  of this model.
- ApiMessage.RowsFollowFieldOrder: states the order for one combination
  of fields (a wrapped `component`, a `buttons` array and a single
  `button`). The general order is part of the definition of
  `ApiMessage.Resolved`, which `ResolveComponents` is proved to follow.
- `src/index.js` (registering the classes with the host, and the gateway
  event) is not part of this model. Neither is the example bot script: both
  are host I/O.
- The interaction envelope, reply state, webhook and collector classes of
  `typings/index.d.ts` are network and timer based, and are not part of
  this model.
- The typings declare `setID`, `setMaxValues` and `setMinValues` on
  `MessageMenu`, but the class does not implement them, so they are not
  modelled.
