/** The component factory of `BaseMessageComponent` and the value-level
    meaning of the constructors it dispatches to. `create` builds action rows
    and menus whose own `setup` calls `create` again, so the factory, the
    row's `setup` and the menu's `setup` are one cluster of mutually
    recursive functions here; the classes in the ActionRow and Menu modules
    are proved against `RowSetup` and `MenuSetup`. */
module Components {
  import opened Js

  /** The wire codes of `MessageComponentTypes`. */
  const ACTION_ROW := 1
  const BUTTON := 2
  const SELECT_MENU := 3

  /** `MessageComponentTypes[k]` behaves as a numeric enum with those codes:
      each code maps to its name and each name to its code. The table itself
      is a parameter; properties that need its entries assume this. */
  predicate CodesAsTyped(h: Helpers)
  {
    && h.typeTable(Num(ACTION_ROW)) == Str("ACTION_ROW") && h.typeTable(Str("ACTION_ROW")) == Num(ACTION_ROW)
    && h.typeTable(Num(BUTTON)) == Str("BUTTON") && h.typeTable(Str("BUTTON")) == Num(BUTTON)
    && h.typeTable(Num(SELECT_MENU)) == Str("SELECT_MENU") && h.typeTable(Str("SELECT_MENU")) == Num(SELECT_MENU)
  }

  /** The pseudo-kind of menu options, which is not a wire code. */
  const SELECT_MENU_OPTION := "SELECT_MENU_OPTION"

  /** The classes `create` can instantiate, and `NoKind` for "returns undefined". */
  datatype Kind = RowKind | ButtonKind | MenuKind | OptionKind | NoKind

  /** The class a kind is instantiated as. */
  function ProtoOf(k: Kind): Option<Proto>
  {
    match k
    case RowKind => Some(ActionRowProto)
    case ButtonKind => Some(ButtonProto)
    case MenuKind => Some(MenuProto)
    case OptionKind => Some(MenuOptionProto)
    case NoKind => None
  }

  /** The class of a value `create` returned, `None` for `undefined`. */
  function ClassOf(v: Value): Option<Proto>
  {
    if v.Obj? then Some(v.proto) else None
  }

  /** `this.type` as the base constructor sets it: the resolved `data.type`
      when `data` has a `type` key, `null` otherwise; `in` on a primitive
      throws. */
  function InitialType(h: Helpers, data: Value): (r: Result<Value>)
    ensures r.Ok? <==> IsObject(data)
    ensures data.Obj? && "type" in data.props ==> r == Ok(h.resolveType(data.props["type"]))
    ensures data.Obj? && "type" !in data.props ==> r == Ok(Null)
  {
    var has :- Has(data, "type");
    if has then Ok(h.resolveType(Get(data, "type").value)) else Ok(Null)
  }

  /** The `type` a row or a menu gives itself by calling the base
      constructor with `{ type: name }`. */
  function OwnType(h: Helpers, name: string): (t: Value)
    ensures t == h.resolveType(Str(name))
  {
    InitialType(h, Obj(PlainObject, map["type" := Str(name)])).value
  }

  /** The guard of the string-to-code conversion in `create`:
      `typeof t === 'string' && !t === 'SELECT_MENU_OPTION'`. The negation
      binds tighter than `===`, so a boolean is compared with a string and
      the conversion is dead code. */
  function ConversionGuard(t: Value): (r: bool)
    ensures !r
  {
    t.Str? && Bool(!Truthy(t)) == Str(SELECT_MENU_OPTION)
  }

  /** The `switch` of `create`: strict equality with each case label. */
  function KindOf(t: Value): (k: Kind)
    ensures k == RowKind <==> t == Num(ACTION_ROW)
    ensures k == ButtonKind <==> t == Num(BUTTON)
    ensures k == MenuKind <==> t == Num(SELECT_MENU)
    ensures k == OptionKind <==> t == Str(SELECT_MENU_OPTION)
  {
    if t == Num(ACTION_ROW) then RowKind
    else if t == Num(BUTTON) then ButtonKind
    else if t == Num(SELECT_MENU) then MenuKind
    else if t == Str(SELECT_MENU_OPTION) then OptionKind
    else NoKind
  }

  /** Objects rank above primitives; this orders the call `create` makes on
      a string inside a menu's `setup` below the `create` that built the
      menu. */
  function Tier(v: Value): nat
  {
    if IsObject(v) then 1 else 0
  }

  /** The value of a row instance with the given children. */
  function RowValue(h: Helpers, components: seq<Value>): Value
  {
    Obj(ActionRowProto, map["type" := OwnType(h, "ACTION_ROW"), "components" := Arr(components)])
  }

  /** What a menu instance holds when its constructor calls `setup`. */
  function MenuBase(h: Helpers): map<string, Value>
  {
    map["type" := OwnType(h, "SELECT_MENU")]
  }

  /** `BaseMessageComponent.create(data)`: reads `data.type` and builds the
      matching class; any other discriminator returns `undefined`. */
  function Create(h: Helpers, data: Value): (r: Result<Value>)
    decreases Tier(data), data, 2
    ensures data.Undefined? || data.Null? ==> r == Throw(TypeError)
    ensures !data.Obj? && !data.Undefined? && !data.Null? ==> r == Ok(Undefined)
    ensures data.Obj? && KindOf(Prop(data.props, "type")) == NoKind ==> r == Ok(Undefined)
    ensures data.Obj? && r.Ok? ==> ClassOf(r.value) == ProtoOf(KindOf(Prop(data.props, "type")))
    ensures r.Throw? ==> data.Undefined? || data.Null?
                         || (data.Obj? && Prop(data.props, "type") in {Num(ACTION_ROW), Num(SELECT_MENU)})
  {
    var t :- Get(data, "type");
    if ConversionGuard(t) then
      // `type = MessageComponentTypes[type]` reads an undeclared name
      Throw(ReferenceError)
    else
      match KindOf(t)
      case RowKind =>
        var c := RowSetup(h, data, []);
        if c.Abrupt? then Throw(c.error) else Ok(RowValue(h, c.state))
      case ButtonKind => Ok(Obj(ButtonProto, h.buttonFields(data)))
      case MenuKind =>
        var c := MenuSetup(h, MenuBase(h), data);
        if c.Abrupt? then Throw(c.error) else Ok(Obj(MenuProto, c.state))
      case OptionKind => Ok(Obj(MenuOptionProto, h.optionFields(data)))
      case NoKind => Ok(Undefined)
  }

  /** `create` over the first `n` entries of an array, in order, stopping at
      the first one that throws (the callback of `Array.prototype.map`). */
  function CreatePrefix(h: Helpers, arr: Value, n: nat): (r: Result<seq<Value>>)
    requires arr.Arr? && n <= |arr.elems|
    decreases Tier(arr), arr, 0, n
    ensures r.Ok? ==> |r.value| == n
    ensures r.Ok? ==> forall i :: 0 <= i < n ==> Create(h, arr.elems[i]) == Ok(r.value[i])
    ensures r.Ok? <==> forall i :: 0 <= i < n ==> Create(h, arr.elems[i]).Ok?
  {
    if n == 0 then Ok([])
    else
      var init :- CreatePrefix(h, arr, n - 1);
      var last :- Create(h, arr.elems[n - 1]);
      Ok(init + [last])
  }

  /** `xs.map(c => BaseMessageComponent.create(c))`. */
  function CreateEach(h: Helpers, xs: seq<Value>): (r: Result<seq<Value>>)
    ensures r.Ok? ==> |r.value| == |xs|
    ensures r.Ok? ==> forall i :: 0 <= i < |xs| ==> Create(h, xs[i]) == Ok(r.value[i])
    ensures r.Ok? <==> forall i :: 0 <= i < |xs| ==> Create(h, xs[i]).Ok?
  {
    CreatePrefix(h, Arr(xs), |xs|)
  }

  /** The row's `setup(data)` applied to a row whose children are `prior`:
      the new children, or the children when it threw. A `component` key
      makes it read an undeclared variable; `this.components` is reset to
      `[]` before the `components` key is looked at, and stays `[]` if
      mapping `create` over `data.components` throws. */
  function RowSetup(h: Helpers, data: Value, prior: seq<Value>): (c: Completion<seq<Value>>)
    decreases Tier(data), data, 1
  {
    match Has(data, "component")
    case Throw(e) => Abrupt(prior, e)
    case Ok(hasComponent) =>
      if hasComponent then Abrupt(prior, ReferenceError)
      // `data` is an object from here on: `in` is a key test
      else if !(data.Obj? && "components" in data.props) then Normal([])
      else
        var list := data.props["components"];
        if !list.Arr? then Abrupt([], TypeError)
        else
          match CreatePrefix(h, list, |list.elems|)
          case Throw(e) => Abrupt([], e)
          case Ok(children) => Normal(children)
  }

  /** The keys `setup` gives every menu. */
  const MenuKeys: set<string> := {"type", "placeholder", "options", "max_values", "min_values", "custom_id"}

  /** A snapshot of a menu after at least one complete `setup`. */
  predicate MenuShaped(m: map<string, Value>)
  {
    MenuKeys <= m.Keys && m["options"].Arr?
  }

  /** The options the loop over `data.options` pushes: each entry first has
      its `type` assigned (a primitive entry throws), then
      `create('SELECT_MENU_OPTION')`, whose completion is `made`, is pushed.
      The state is the list of entries pushed before any exception. */
  function MarkOptions(entries: seq<Value>, made: Result<Value>): (c: Completion<seq<Value>>)
    ensures c.Normal? <==> (made.Ok? || entries == []) && forall i :: 0 <= i < |entries| ==> IsObject(entries[i])
    ensures c.Normal? && made.Ok? ==> c.state == seq(|entries|, _ => made.value)
    ensures c.Abrupt? && !made.Ok? ==> c.state == []
    ensures c.Abrupt? && made.Ok? ==>
              c.error == TypeError && |c.state| < |entries| && !IsObject(entries[|c.state|])
              && (forall j :: 0 <= j < |c.state| ==> IsObject(entries[j]))
              && c.state == seq(|c.state|, _ => made.value)
  {
    if entries == [] then Normal([])
    else if !IsObject(entries[0]) then Abrupt([], TypeError)
    else if made.Throw? then Abrupt([], made.error)
    else
      match MarkOptions(entries[1..], made)
      case Normal(rest) => Normal([made.value] + rest)
      case Abrupt(rest, e) => Abrupt([made.value] + rest, e)
  }

  /** `('id' in data && data.id) || ('custom_id' in data && data.custom_id)`
      chooses between `data.id || data.custom_id` and `undefined`. */
  function CustomIdOf(props: map<string, Value>): (id: Value)
    ensures Truthy(Prop(props, "id")) ==> id == props["id"]
    ensures !Truthy(Prop(props, "id")) && Truthy(Prop(props, "custom_id")) ==> id == props["custom_id"]
    ensures !Truthy(Prop(props, "id")) && !Truthy(Prop(props, "custom_id")) ==> id == Undefined
  {
    if ("id" in props && Truthy(props["id"])) || ("custom_id" in props && Truthy(props["custom_id"])) then
      (if Truthy(Prop(props, "id")) then Prop(props, "id") else Prop(props, "custom_id"))
    else Undefined
  }

  /** Lines 19 to 25 of the menu's `setup`: the placeholder, then the
      options, maximum and minimum the helpers resolve from the menu so far;
      `data` is an object and `hasPlaceholder` is `'placeholder' in data`. */
  function MenuPrelude(h: Helpers, self: map<string, Value>, data: Value, hasPlaceholder: bool): (s: map<string, Value>)
    ensures s.Keys == self.Keys + {"placeholder", "options", "max_values", "min_values"}
    ensures forall k :: k in self && k !in MenuKeys ==> s[k] == self[k]
    ensures "type" in self ==> s["type"] == self["type"]
    ensures "custom_id" in self ==> s["custom_id"] == self["custom_id"]
    ensures s["placeholder"] == if hasPlaceholder then h.resolveString(Prop(OwnProps(data), "style")) else Null
    ensures var snap := self["placeholder" := s["placeholder"]];
            var withOptions := snap["options" := h.resolveMenuOptions(Obj(MenuProto, snap))];
            s["options"] == withOptions["options"]
            && s["max_values"] == h.resolveMaxValues(Obj(MenuProto, withOptions))
            && s["min_values"] == h.resolveMinValues(Obj(MenuProto, withOptions["max_values" := s["max_values"]]))
  {
    var s1 := self["placeholder" := if hasPlaceholder then h.resolveString(Prop(OwnProps(data), "style")) else Null];
    var s2 := s1["options" := h.resolveMenuOptions(Obj(MenuProto, s1))];
    var s3 := s2["max_values" := h.resolveMaxValues(Obj(MenuProto, s2))];
    s3["min_values" := h.resolveMinValues(Obj(MenuProto, s3))]
  }

  /** Lines 27 to 34 of the menu's `setup`: `this.options` is reset to `[]`,
      receives `create(data.option)` when there is an `option` key, then one
      entry per element of `data.options`. The state is the list when the
      loop finished or threw. */
  function MenuOptions(h: Helpers, data: Value): (c: Completion<seq<Value>>)
    requires IsObject(data)
    ensures var n1 := if data.Obj? && "option" in data.props then 1 else 0;
            c.Normal? ==> |c.state| == n1 + (if data.Obj? && "options" in data.props && data.props["options"].Arr?
                                              then |data.props["options"].elems| else 0)
    ensures c.Abrupt? && c.error != TypeError ==> data.Obj? && "option" in data.props && c.state == []
    decreases Tier(data), data, 0
  {
    var first: Result<seq<Value>> :=
      if data.Obj? && "option" in data.props then
        (match Create(h, data.props["option"])
         case Ok(o) => Ok([o])
         case Throw(e) => Throw(e))
      else Ok([]);
    match first
    case Throw(e) => Abrupt([], e)
    case Ok(opts) =>
      if !(data.Obj? && "options" in data.props) then Normal(opts)
      else
        var list := data.props["options"];
        if !list.Arr? then Abrupt(opts, TypeError)
        else
          // `create(c.type = 'SELECT_MENU_OPTION')` is given the string
          match MarkOptions(list.elems, Create(h, Str(SELECT_MENU_OPTION)))
          case Abrupt(pushed, e) => Abrupt(opts + pushed, e)
          case Normal(pushed) => Normal(opts + pushed)
  }

  /** The end of the menu's `setup`: the options list lands in `options`
      whether or not the loop threw, and the custom id is assigned only when
      it did not. */
  function MenuFinish(s: map<string, Value>, opts: Completion<seq<Value>>, customId: Value): (c: Completion<map<string, Value>>)
    ensures c.Normal? == opts.Normal? && (c.Abrupt? ==> c.error == opts.error)
    ensures c.state.Keys == s.Keys + {"options"} + (if c.Normal? then {"custom_id"} else {})
    ensures c.state["options"] == Arr(opts.state)
    ensures forall k :: k in s && k != "options" && k != "custom_id" ==> c.state[k] == s[k]
    ensures c.Abrupt? && "custom_id" in s ==> c.state["custom_id"] == s["custom_id"]
    ensures c.Normal? ==> c.state["custom_id"] == customId
  {
    match opts
    case Abrupt(list, e) => Abrupt(s["options" := Arr(list)], e)
    case Normal(list) => Normal(s["options" := Arr(list)]["custom_id" := customId])
  }

  /** The menu's `setup(data)` applied to a menu whose fields are `self`:
      the fields afterwards, or when it threw. Only a `data` that is not an
      object stops it before its first assignment. */
  function MenuSetup(h: Helpers, self: map<string, Value>, data: Value): (c: Completion<map<string, Value>>)
    decreases Tier(data), data, 1
    ensures !IsObject(data) ==> c == Abrupt(self, TypeError)
    ensures IsObject(data) ==> {"placeholder", "options", "max_values", "min_values"} <= c.state.Keys
    ensures IsObject(data) ==> c.state["options"].Arr?
    ensures c.Normal? ==> "custom_id" in c.state
  {
    match Has(data, "placeholder")
    case Throw(e) => Abrupt(self, e)
    case Ok(hasPlaceholder) =>
      MenuFinish(MenuPrelude(h, self, data, hasPlaceholder), MenuOptions(h, data), CustomIdOf(OwnProps(data)))
  }

  /** The menu's `toJSON()`: the wire code, the placeholder and the custom id,
      and nothing else. */
  function MenuJSON(props: map<string, Value>): (r: Value)
    ensures r.Obj? && r.proto == PlainObject
    ensures r.props.Keys == {"type", "placeholder", "custom_id"}
    ensures r.props["type"] == Num(SELECT_MENU)
    ensures r.props["placeholder"] == Prop(props, "placeholder")
    ensures r.props["custom_id"] == Prop(props, "custom_id")
  {
    Obj(PlainObject, map["type" := Num(SELECT_MENU),
                         "placeholder" := Prop(props, "placeholder"),
                         "custom_id" := Prop(props, "custom_id")])
  }

  /** `c.toJSON()` for a child of a row: rows and menus as modelled here,
      buttons and menu options through their own (unseen) `toJSON`;
      `undefined`, `null` and values without a `toJSON` method throw. */
  function ChildJSON(h: Helpers, c: Value): (r: Result<Value>)
    decreases c, 2, 0
    ensures r.Ok? ==> c.Obj? && c.proto != PlainObject
  {
    match c
    case Obj(proto, props) =>
      (match proto
       case ActionRowProto =>
         // `this.components.map` on a missing field reads `undefined.map`
         if "components" in props then RowJSON(h, Prop(props, "type"), props["components"])
         else Throw(TypeError)
       case MenuProto => Ok(MenuJSON(props))
       case ButtonProto => Ok(h.buttonJSON(props))
       case MenuOptionProto => Ok(h.optionJSON(props))
       case PlainObject => Throw(TypeError))
    case _ => Throw(TypeError)
  }

  /** `c.toJSON()` over the first `n` children, stopping at the first throw. */
  function ChildJSONPrefix(h: Helpers, arr: Value, n: nat): (r: Result<seq<Value>>)
    requires arr.Arr? && n <= |arr.elems|
    decreases arr, 0, n
    ensures r.Ok? ==> |r.value| == n
    ensures r.Ok? ==> forall i :: 0 <= i < n ==> ChildJSON(h, arr.elems[i]) == Ok(r.value[i])
    ensures r.Ok? <==> forall i :: 0 <= i < n ==> ChildJSON(h, arr.elems[i]).Ok?
  {
    if n == 0 then Ok([])
    else
      var init :- ChildJSONPrefix(h, arr, n - 1);
      var last :- ChildJSON(h, arr.elems[n - 1]);
      Ok(init + [last])
  }

  /** The row's `toJSON()`: each child's JSON in order, and the type looked
      up in `MessageComponentTypes`. */
  function RowJSON(h: Helpers, rowType: Value, components: Value): (r: Result<Value>)
    decreases components, 1, 0
    ensures r.Ok? ==> components.Arr?
    ensures r.Ok? ==> r.value.Obj? && r.value.props.Keys == {"components", "type"}
    ensures r.Ok? ==> r.value.props["type"] == h.typeTable(rowType)
    ensures r.Ok? ==> r.value.props["components"].Arr?
                      && |r.value.props["components"].elems| == |components.elems|
    ensures r.Ok? ==> forall i :: 0 <= i < |components.elems| ==>
                        ChildJSON(h, components.elems[i]) == Ok(r.value.props["components"].elems[i])
    ensures components.Arr? ==> (r.Ok? <==> forall i :: 0 <= i < |components.elems| ==> ChildJSON(h, components.elems[i]).Ok?)
  {
    if !components.Arr? then Throw(TypeError)
    else
      var children :- ChildJSONPrefix(h, components, |components.elems|);
      Ok(Obj(PlainObject, map["components" := Arr(children), "type" := h.typeTable(rowType)]))
  }

  // ---------------------------------------------------------------------
  // Properties of the factory

  /** The known codes build the matching class from `data`. */
  lemma CreateKnownCodes(h: Helpers, data: Value)
    requires data.Obj?
    ensures Prop(data.props, "type") == Num(BUTTON) ==> Create(h, data) == Ok(Obj(ButtonProto, h.buttonFields(data)))
    ensures Prop(data.props, "type") == Str(SELECT_MENU_OPTION) ==> Create(h, data) == Ok(Obj(MenuOptionProto, h.optionFields(data)))
    ensures Prop(data.props, "type") == Num(ACTION_ROW) ==>
              var c := RowSetup(h, data, []);
              Create(h, data) == if c.Normal? then Ok(RowValue(h, c.state)) else Throw(c.error)
    ensures Prop(data.props, "type") == Num(SELECT_MENU) ==>
              var c := MenuSetup(h, MenuBase(h), data);
              Create(h, data) == if c.Normal? then Ok(Obj(MenuProto, c.state)) else Throw(c.error)
  {
  }

  /** Discriminators given by name, `'BUTTON'` among them, are never
      converted: `create` returns `undefined` and does not throw. */
  lemma CreateByNameIsUndefined(h: Helpers, data: Value, name: string)
    requires data.Obj? && Prop(data.props, "type") == Str(name) && name != SELECT_MENU_OPTION
    ensures Create(h, data) == Ok(Undefined)
  {
  }

  /** What `create` is handed in a menu's `setup` and `addOption` is a string,
      which has no `type`: the result is `undefined`. */
  lemma CreateOfString(h: Helpers, s: string)
    ensures Create(h, Str(s)) == Ok(Undefined)
  {
  }

  /** Which class `create` returns depends only on `data.type`. */
  lemma CreateClassDependsOnlyOnType(h: Helpers, d1: Value, d2: Value)
    requires d1.Obj? && d2.Obj? && Prop(d1.props, "type") == Prop(d2.props, "type")
    requires Create(h, d1).Ok? && Create(h, d2).Ok?
    ensures ClassOf(Create(h, d1).value) == ClassOf(Create(h, d2).value)
  {
  }

  // ---------------------------------------------------------------------
  // Properties of the row's setup

  /** Without `component` and `components` keys a row has no children. */
  lemma RowSetupWithoutComponents(h: Helpers, data: Value, prior: seq<Value>)
    requires data.Obj? && "component" !in data.props && "components" !in data.props
    ensures RowSetup(h, data, prior) == Normal([])
  {
  }

  /** A `component` key makes `setup` throw before changing anything. */
  lemma RowSetupComponentKeyThrows(h: Helpers, data: Value, prior: seq<Value>)
    requires data.Obj? && "component" in data.props
    ensures RowSetup(h, data, prior) == Abrupt(prior, ReferenceError)
  {
  }

  /** With a `components` array, `setup` maps `create` over it, keeping its
      length and order; if one entry throws, the row is left empty. */
  lemma RowSetupMapsCreate(h: Helpers, data: Value, prior: seq<Value>)
    requires data.Obj? && "component" !in data.props && "components" in data.props
    requires data.props["components"].Arr?
    ensures var list := data.props["components"].elems;
            var c := RowSetup(h, data, prior);
            if c.Normal? then
              |c.state| == |list| && forall i :: 0 <= i < |list| ==> Create(h, list[i]) == Ok(c.state[i])
            else
              c.state == [] && exists i :: 0 <= i < |list| && Create(h, list[i]).Throw?
  {
  }

  // ---------------------------------------------------------------------
  // Properties of the menu's setup

  /** The placeholder comes from `data.style` when `data` has a
      `placeholder` key, and is `null` otherwise. */
  lemma MenuSetupPlaceholder(h: Helpers, self: map<string, Value>, data: Value)
    requires data.Obj?
    ensures var c := MenuSetup(h, self, data);
            c.state["placeholder"] ==
              if "placeholder" in data.props then h.resolveString(Prop(data.props, "style")) else Null
  {
  }

  /** The custom id is `data.id` if truthy, else `data.custom_id` if truthy,
      else `undefined`. */
  lemma MenuSetupCustomId(h: Helpers, self: map<string, Value>, data: Value)
    requires data.Obj?
    requires MenuSetup(h, self, data).Normal?
    ensures var id := MenuSetup(h, self, data).state["custom_id"];
            if Truthy(Prop(data.props, "id")) then id == data.props["id"]
            else if Truthy(Prop(data.props, "custom_id")) then id == data.props["custom_id"]
            else id == Undefined
  {
  }

  /** After a complete `setup` the options are one entry for `data.option`
      and one `undefined` per entry of `data.options`; whatever the menu or
      `resolveMenuOptions` held before is discarded. */
  lemma MenuSetupOptions(h: Helpers, self: map<string, Value>, data: Value)
    requires data.Obj?
    requires MenuSetup(h, self, data).Normal?
    ensures var opts := MenuSetup(h, self, data).state["options"];
            var nOption := if "option" in data.props then 1 else 0;
            var nOptions := if "options" in data.props && data.props["options"].Arr? then |data.props["options"].elems| else 0;
            ("options" in data.props ==> data.props["options"].Arr?)
            && opts.Arr? && |opts.elems| == nOption + nOptions
            && (nOption == 1 ==> Create(h, data.props["option"]) == Ok(opts.elems[0]))
            && forall i :: nOption <= i < |opts.elems| ==> opts.elems[i] == Undefined
  {
    CreateOfString(h, SELECT_MENU_OPTION);
  }

  /** `setup` adds the four fields it always assigns, and the custom id
      when it completes. */
  lemma MenuSetupKeys(h: Helpers, self: map<string, Value>, data: Value)
    requires IsObject(data)
    ensures var c := MenuSetup(h, self, data);
            c.state.Keys == self.Keys + {"placeholder", "options", "max_values", "min_values"}
                            + (if c.Normal? then {"custom_id"} else {})
  {
    var s := MenuPrelude(h, self, data, Has(data, "placeholder").value);
    assert MenuSetup(h, self, data) == MenuFinish(s, MenuOptions(h, data), CustomIdOf(OwnProps(data)));
  }

  /** `setup` keeps every field it does not assign, the type among them,
      and the custom id a menu had when it throws midway. */
  lemma MenuSetupKeeps(h: Helpers, self: map<string, Value>, data: Value)
    ensures var c := MenuSetup(h, self, data);
            forall k :: k in self && k !in MenuKeys ==> k in c.state && c.state[k] == self[k]
    ensures var c := MenuSetup(h, self, data);
            "type" in self ==> "type" in c.state && c.state["type"] == self["type"]
    ensures var c := MenuSetup(h, self, data);
            c.Abrupt? && "custom_id" in self ==> c.state["custom_id"] == self["custom_id"]
  {
    if IsObject(data) {
      var s := MenuPrelude(h, self, data, Has(data, "placeholder").value);
      assert MenuSetup(h, self, data) == MenuFinish(s, MenuOptions(h, data), CustomIdOf(OwnProps(data)));
    }
  }

  /** What `this.options` holds after lines 27 to 34, on both completions:
      `create(data.option)` first when there is an `option` key, then one
      `undefined` per entry of `data.options`. A throwing
      `create(data.option)` leaves `[]`; otherwise a throw is a TypeError
      and keeps what was pushed before it: the `option` entry alone when
      `data.options` has no `map`, or one `undefined` per entry before the
      first primitive entry. */
  lemma MenuOptionsOutcome(h: Helpers, data: Value)
    requires IsObject(data)
    ensures var c := MenuOptions(h, data);
            var p := OwnProps(data);
            var n1 := if "option" in p then 1 else 0;
            var first := if "option" in p then Create(h, p["option"]) else Ok(Undefined);
            (first.Throw? ==> c == Abrupt([], first.error))
            && (first.Ok? ==> n1 <= |c.state| && (n1 == 1 ==> c.state[0] == first.value)
                              && forall i :: n1 <= i < |c.state| ==> c.state[i] == Undefined)
    ensures var c := MenuOptions(h, data);
            var p := OwnProps(data);
            var n1 := if "option" in p then 1 else 0;
            c.Normal? ==>
              ("options" in p ==> p["options"].Arr?)
              && |c.state| == n1 + (if "options" in p && p["options"].Arr? then |p["options"].elems| else 0)
    ensures var c := MenuOptions(h, data);
            var p := OwnProps(data);
            var n1 := if "option" in p then 1 else 0;
            var first := if "option" in p then Create(h, p["option"]) else Ok(Undefined);
            c.Abrupt? && first.Ok? ==>
              c.error == TypeError && "options" in p
              && (!p["options"].Arr? ==> |c.state| == n1)
              && (p["options"].Arr? ==>
                    var k := |c.state| - n1;
                    0 <= k < |p["options"].elems| && !IsObject(p["options"].elems[k])
                    && forall j :: 0 <= j < k ==> IsObject(p["options"].elems[j]))
  {
    CreateOfString(h, SELECT_MENU_OPTION);
  }

  /** `max_values` and `min_values` are what the resolvers make of the menu
      as it stands when they run: the new placeholder and the resolved
      options for the maximum, and the maximum too for the minimum. */
  lemma MenuSetupBounds(h: Helpers, self: map<string, Value>, data: Value)
    requires IsObject(data)
    ensures var c := MenuSetup(h, self, data);
            var snap := self["placeholder" := c.state["placeholder"]];
            var withOptions := snap["options" := h.resolveMenuOptions(Obj(MenuProto, snap))];
            c.state["max_values"] == h.resolveMaxValues(Obj(MenuProto, withOptions))
            && c.state["min_values"] == h.resolveMinValues(Obj(MenuProto, withOptions["max_values" := c.state["max_values"]]))
  {
    var s := MenuPrelude(h, self, data, Has(data, "placeholder").value);
    assert MenuSetup(h, self, data) == MenuFinish(s, MenuOptions(h, data), CustomIdOf(OwnProps(data)));
  }

  /** Rebuilding a menu from its own JSON through `create` does not give the
      JSON back: `setup` reads the placeholder from `style`, which the JSON
      lacks, and a falsy custom id comes back as `undefined`. The round trip
      holds exactly when the placeholder already is `resolveString(undefined)`
      and the custom id is truthy or `undefined`. */
  lemma MenuJSONRoundTrip(h: Helpers, s: map<string, Value>)
    ensures var c := Create(h, MenuJSON(s));
            c.Ok? && c.value.Obj? && c.value.proto == MenuProto
            && MenuJSON(c.value.props).props["placeholder"] == h.resolveString(Undefined)
            && MenuJSON(c.value.props).props["custom_id"] ==
                 (if Truthy(Prop(s, "custom_id")) then Prop(s, "custom_id") else Undefined)
    ensures var c := Create(h, MenuJSON(s));
            c.Ok? && c.value.Obj? ==>
              (MenuJSON(c.value.props) == MenuJSON(s) <==>
                 Prop(s, "placeholder") == h.resolveString(Undefined)
                 && (Truthy(Prop(s, "custom_id")) || Prop(s, "custom_id") == Undefined))
  {
    CreateKnownCodes(h, MenuJSON(s));
    MenuSetupOfJSON(h, MenuBase(h), s);
  }

  /** `setup` given a menu's JSON completes, with the placeholder of an
      absent `style` and the custom id if it is truthy. */
  lemma MenuSetupOfJSON(h: Helpers, self: map<string, Value>, s: map<string, Value>)
    ensures var c := MenuSetup(h, self, MenuJSON(s));
            c.Normal? && c.state["placeholder"] == h.resolveString(Undefined)
            && c.state["custom_id"] == (if Truthy(Prop(s, "custom_id")) then Prop(s, "custom_id") else Undefined)
  {
    var json := MenuJSON(s);
    MenuSetupWithoutOptions(h, self, json);
    MenuSetupPlaceholder(h, self, json);
    MenuSetupCustomId(h, self, json);
  }

  /** Without `option` and `options` keys `setup` completes. */
  lemma MenuSetupWithoutOptions(h: Helpers, self: map<string, Value>, data: Value)
    requires data.Obj? && "option" !in data.props && "options" !in data.props
    ensures MenuSetup(h, self, data).Normal?
  {
    assert MenuOptions(h, data) == Normal([]);
  }

  /** The `type` of a row's JSON is the row's own type looked up in
      `MessageComponentTypes`: the wire code 1 when `resolveType` keeps the
      name `'ACTION_ROW'`, and the name when it resolves it to the code. */
  lemma RowJSONType(h: Helpers, components: Value)
    requires CodesAsTyped(h)
    ensures var r := RowJSON(h, OwnType(h, "ACTION_ROW"), components);
            r.Ok? && h.resolveType(Str("ACTION_ROW")) == Str("ACTION_ROW") ==> r.value.props["type"] == Num(ACTION_ROW)
    ensures var r := RowJSON(h, OwnType(h, "ACTION_ROW"), components);
            r.Ok? && h.resolveType(Str("ACTION_ROW")) == Num(ACTION_ROW) ==> r.value.props["type"] == Str("ACTION_ROW")
  {
  }

  /** The options after `setup` do not depend on the menu's previous state. */
  lemma MenuSetupOptionsIgnoreSelf(h: Helpers, s1: map<string, Value>, s2: map<string, Value>, data: Value)
    requires data.Obj?
    ensures MenuSetup(h, s1, data).state["options"] == MenuSetup(h, s2, data).state["options"]
  {
  }
}
