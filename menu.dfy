/** `MessageMenu`: a select menu with a placeholder, a custom id and a list
    of options that the application fills in place. The methods are proved
    against the factory module's `MenuSetup` and `MenuJSON`, and keep the
    defects of the class as it is written: `setup` reads the placeholder
    from `data.style`, the options it pushes are `create` of a string,
    `setPlaceholder` writes a field nothing reads, and `removeOptions`
    splices a field a menu never has. */
module Menu {
  import opened Js
  import opened Components

  class MessageMenu {
    /** set once by the base constructor */
    var componentType: Value
    var placeholder: Value
    var options: seq<Value>
    var maxValues: Value
    var minValues: Value
    var customId: Value
    /** the `label` property: written by `setPlaceholder` only, absent until then */
    var labelField: Option<Value>

    /** The menu's fields under their names in the class, as `setup` and the
        helpers it calls on `this` see them. */
    function Fields(): (m: map<string, Value>)
      reads this
      ensures MenuShaped(m)
      ensures m.Keys == MenuKeys + (if labelField.Some? then {"label"} else {})
      ensures m["type"] == componentType && m["placeholder"] == placeholder
      ensures m["options"] == Arr(options) && m["custom_id"] == customId
      ensures ("label" in m <==> labelField.Some?) && (labelField.Some? ==> m["label"] == labelField.value)
    {
      FieldMap(componentType, placeholder, options, maxValues, minValues, customId, labelField)
    }

    /** A menu holding exactly the fields `m`. */
    constructor FromFields(m: map<string, Value>)
      requires MenuShaped(m) && m.Keys <= MenuKeys + {"label"}
      ensures Fields() == m
    {
      FieldMapOf(m);
      componentType := m["type"];
      placeholder := m["placeholder"];
      options := m["options"].elems;
      maxValues := m["max_values"];
      minValues := m["min_values"];
      customId := m["custom_id"];
      labelField := if "label" in m then Some(m["label"]) else None;
    }

    /** `new MessageMenu(data)`: the base constructor gives the menu its
        type, then `setup` runs (`data` defaults to `{}`); the constructor
        throws when `setup` does. For `data` with the SELECT_MENU code this is
        exactly what `create` builds. */
    static method New(h: Helpers, data: Value) returns (r: Result<MessageMenu>)
      ensures var c := MenuSetup(h, MenuBase(h), OrEmptyObject(data));
              (r.Ok? <==> c.Normal?) && (r.Throw? ==> r.error == c.error)
              && (r.Ok? ==> fresh(r.value) && r.value.Fields() == c.state)
      ensures data.Obj? && Prop(data.props, "type") == Num(SELECT_MENU) ==>
                (r.Ok? <==> Create(h, data).Ok?)
                && (r.Ok? ==> Create(h, data) == Ok(Obj(MenuProto, r.value.Fields())))
    {
      var c := MenuSetup(h, MenuBase(h), OrEmptyObject(data));
      if c.Abrupt? {
        return Throw(c.error);
      }
      MenuSetupKeys(h, MenuBase(h), OrEmptyObject(data));
      var menu := new MessageMenu.FromFields(c.state);
      r := Ok(menu);
      if data.Obj? && Prop(data.props, "type") == Num(SELECT_MENU) {
        CreateKnownCodes(h, data);
      }
    }

    /** `setup(data)`: the fields become what `MenuSetup` says, also when it
        throws midway; on success the menu itself is returned. */
    method Setup(h: Helpers, data: Value) returns (r: Result<MessageMenu>)
      modifies this
      ensures var c := MenuSetup(h, old(Fields()), data);
              Fields() == c.state && r == (if c.Normal? then Ok(this) else Throw(c.error))
      ensures componentType == old(componentType) && labelField == old(labelField)
    {
      var c := MenuSetup(h, Fields(), data);
      SetupKeepsShape(h, Fields(), data);
      SetupKeepsLabel(h, Fields(), data);
      Store(c.state);
      r := if c.Normal? then Ok(this) else Throw(c.error);
    }

    /** Writes the fields of `m` back into the menu; its type and `label`
        are already those of `m`. */
    method Store(m: map<string, Value>)
      requires MenuShaped(m) && m.Keys == Fields().Keys
      requires m["type"] == componentType && ("label" in m ==> labelField == Some(m["label"]))
      modifies this
      ensures Fields() == m && componentType == old(componentType) && labelField == old(labelField)
    {
      FieldMapOf(m);
      placeholder := m["placeholder"];
      options := m["options"].elems;
      maxValues := m["max_values"];
      minValues := m["min_values"];
      customId := m["custom_id"];
    }

    /** `addOption(option)`: `option.type` is set to `'SELECT_MENU_OPTION'`
        (a primitive option throws), and `create` is applied to the value of
        that assignment, the string, so the entry pushed is `undefined`.
        `typed` is the option after the assignment. */
    method AddOption(h: Helpers, option: Value) returns (r: Result<MessageMenu>, typed: Value)
      modifies this`options
      ensures r.Ok? <==> IsObject(option)
      ensures r.Ok? ==> r == Ok(this) && options == old(options) + [Undefined]
                        && Set(option, "type", Str(SELECT_MENU_OPTION)) == Ok(typed)
      ensures r.Throw? ==> r.error == TypeError && options == old(options) && typed == option
    {
      var a := Set(option, "type", Str(SELECT_MENU_OPTION));
      if a.Throw? {
        return Throw(a.error), option;
      }
      CreateOfString(h, SELECT_MENU_OPTION);
      var made := Create(h, Str(SELECT_MENU_OPTION));
      options := options + [made.value];
      return Ok(this), a.value;
    }

    /** `addOptions(...args)`: the arguments are flattened and each entry
        has its `type` assigned and `create` of the string pushed; a
        primitive entry throws before anything is pushed. */
    method AddOptions(h: Helpers, args: seq<Value>) returns (r: Result<MessageMenu>)
      modifies this`options
      ensures r.Ok? <==> forall i :: 0 <= i < |Flat(args)| ==> IsObject(Flat(args)[i])
      ensures r.Ok? ==> r == Ok(this) && options == old(options) + seq(|Flat(args)|, _ => Undefined)
      ensures r.Throw? ==> r.error == TypeError && options == old(options)
    {
      var flat := Flat(args);
      var made: seq<Value> := [];
      var i := 0;
      while i < |flat|
        invariant 0 <= i <= |flat|
        invariant forall j :: 0 <= j < i ==> IsObject(flat[j])
        invariant made == seq(i, _ => Undefined)
        invariant options == old(options)
      {
        var a := Set(flat[i], "type", Str(SELECT_MENU_OPTION));
        if a.Throw? {
          assert !IsObject(Flat(args)[i]);
          return Throw(a.error);
        }
        CreateOfString(h, SELECT_MENU_OPTION);
        var m := Create(h, Str(SELECT_MENU_OPTION));
        made := made + [m.value];
        i := i + 1;
      }
      options := options + made;
      r := Ok(this);
    }

    /** `removeOptions(index, deleteCount, ...options)` splices
        `this.components`, which a menu never has: reading `splice` of
        `undefined` throws and the options stay as they are. */
    method RemoveOptions(index: Value, deleteCount: Value, args: seq<Value>) returns (r: Result<MessageMenu>)
      ensures r == Throw(TypeError)
    {
      r := Throw(TypeError);
    }

    /** `setPlaceholder(text)` stores the resolved text in `label`, not in
        `placeholder`, so what `toJSON` returns does not change. */
    method SetPlaceholder(h: Helpers, text: Value) returns (r: Result<MessageMenu>)
      modifies this`labelField
      ensures labelField == Some(h.resolveString(text)) && r == Ok(this)
      ensures placeholder == old(placeholder) && ToJSON() == old(ToJSON())
    {
      labelField := Some(h.resolveString(text));
      r := Ok(this);
    }

    /** `toJSON()`: the SELECT_MENU code, the placeholder and the custom id;
        no options and no bounds. */
    function ToJSON(): (r: Value)
      reads this
      ensures r.Obj? && r.props.Keys == {"type", "placeholder", "custom_id"}
      ensures r.props["type"] == Num(SELECT_MENU)
      ensures r.props["placeholder"] == placeholder && r.props["custom_id"] == customId
    {
      MenuJSON(Fields())
    }
  }

  /** The fields of a menu as a map; `label` is present only once set. */
  function FieldMap(componentType: Value, placeholder: Value, options: seq<Value>, maxValues: Value,
                    minValues: Value, customId: Value, labelField: Option<Value>): (m: map<string, Value>)
    ensures MenuShaped(m)
    ensures m.Keys == MenuKeys + (if labelField.Some? then {"label"} else {})
    ensures m["type"] == componentType && m["placeholder"] == placeholder && m["options"] == Arr(options)
    ensures m["max_values"] == maxValues && m["min_values"] == minValues && m["custom_id"] == customId
    ensures ("label" in m <==> labelField.Some?) && (labelField.Some? ==> m["label"] == labelField.value)
  {
    var m := map["type" := componentType, "placeholder" := placeholder, "options" := Arr(options),
                 "max_values" := maxValues, "min_values" := minValues, "custom_id" := customId];
    if labelField.Some? then m["label" := labelField.value] else m
  }

  /** Every menu-shaped map with no other keys than `label` is the field
      map of the menu that holds its entries. */
  lemma FieldMapOf(m: map<string, Value>)
    requires MenuShaped(m) && m.Keys <= MenuKeys + {"label"}
    ensures FieldMap(m["type"], m["placeholder"], m["options"].elems, m["max_values"], m["min_values"],
                     m["custom_id"], if "label" in m then Some(m["label"]) else None) == m
  {
    var f := FieldMap(m["type"], m["placeholder"], m["options"].elems, m["max_values"], m["min_values"],
                      m["custom_id"], if "label" in m then Some(m["label"]) else None);
    assert f.Keys == m.Keys;
  }

  /** `setup` on a menu's fields leaves a menu's fields: the same keys and
      the same type. */
  lemma SetupKeepsShape(h: Helpers, self: map<string, Value>, data: Value)
    requires MenuShaped(self)
    ensures var c := MenuSetup(h, self, data);
            MenuShaped(c.state) && c.state.Keys == self.Keys && c.state["type"] == self["type"]
  {
    MenuSetupKeeps(h, self, data);
    if IsObject(data) {
      MenuSetupKeys(h, self, data);
    }
  }

  /** `setup` leaves the `label` written by `setPlaceholder` as it was. */
  lemma SetupKeepsLabel(h: Helpers, self: map<string, Value>, data: Value)
    requires MenuShaped(self)
    ensures var c := MenuSetup(h, self, data);
            ("label" in c.state <==> "label" in self)
            && ("label" in self ==> c.state["label"] == self["label"])
  {
    MenuSetupKeeps(h, self, data);
    SetupKeepsShape(h, self, data);
    LabelIsNoMenuKey();
  }

  /** `label` is none of the fields `setup` assigns. */
  lemma LabelIsNoMenuKey()
    ensures "label" !in MenuKeys
  {
  }
}
