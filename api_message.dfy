/** The send-options resolver of `APIMessage` and `sendAPICallback`: the
    shorthand fields `type`, `component`, `components`, `buttons` and
    `button` of the options become the wire list `data.components` of
    action rows. `Resolved` states the list declaratively; the class runs
    the resolver step by step and is proved to agree with it. */
module ApiMessage {
  import opened Js
  import opened Components

  /** A wire row: `{type: MessageComponentTypes.ACTION_ROW, components}`. */
  function RowOf(children: seq<Value>): (r: Value)
    ensures IsActionRow(r) && r.props["components"] == Arr(children)
  {
    Obj(PlainObject, map["type" := Num(ACTION_ROW), "components" := Arr(children)])
  }

  /** The shape of every row the resolver produces. */
  predicate IsActionRow(v: Value)
  {
    v.Obj? && v.proto == PlainObject && v.props.Keys == {"type", "components"}
    && v.props["type"] == Num(ACTION_ROW) && v.props["components"].Arr?
  }

  /** Every entry is a wire row. */
  predicate AllActionRows(rows: seq<Value>)
  {
    forall i :: 0 <= i < |rows| ==> IsActionRow(rows[i])
  }

  /** `create(resolveButton(x))`, the normaliser applied to every child. */
  function CreateOne(h: Helpers, x: Value): Result<Value>
  {
    Create(h, h.resolveButton(x))
  }

  /** `resolveButton` over a list of children. */
  function ResolveButtons(h: Helpers, xs: seq<Value>): (r: seq<Value>)
    ensures |r| == |xs| && forall i :: 0 <= i < |xs| ==> r[i] == h.resolveButton(xs[i])
  {
    seq(|xs|, i requires 0 <= i < |xs| => h.resolveButton(xs[i]))
  }

  /** `x.map(b => create(resolveButton(b)))`: only an array has `map`. */
  function MapCreate(h: Helpers, x: Value): (r: Result<seq<Value>>)
    ensures !x.Arr? ==> r == Throw(TypeError)
    ensures x.Arr? ==> (r.Ok? <==> forall i :: 0 <= i < |x.elems| ==> CreateOne(h, x.elems[i]).Ok?)
    ensures r.Ok? ==> |r.value| == |x.elems|
                      && forall i :: 0 <= i < |x.elems| ==> CreateOne(h, x.elems[i]) == Ok(r.value[i])
  {
    if x.Arr? then CreateEach(h, ResolveButtons(h, x.elems)) else Throw(TypeError)
  }

  /** The children of the `buttons` and `button` rows: the mapped array, or
      the one normalised value. */
  function Spread(h: Helpers, x: Value): (r: Result<seq<Value>>)
    ensures !x.Arr? ==> (r.Ok? <==> CreateOne(h, x).Ok?) && (r.Ok? ==> r.value == [CreateOne(h, x).value])
    ensures x.Arr? ==> (r.Ok? <==> forall i :: 0 <= i < |x.elems| ==> CreateOne(h, x.elems[i]).Ok?)
                       && (r.Ok? ==> |r.value| == |x.elems|
                                     && forall i :: 0 <= i < |x.elems| ==> CreateOne(h, x.elems[i]) == Ok(r.value[i]))
  {
    if x.Arr? then MapCreate(h, x)
    else
      var child :- CreateOne(h, x);
      Ok([child])
  }

  /** The row one entry of a `components` array becomes: its own
      `components` mapped; an `undefined` or `null` entry, or one without a
      `components` array, throws. */
  function EntryRow(h: Helpers, c: Value): (r: Result<Value>)
    ensures r.Ok? ==> IsActionRow(r.value) && c.Obj? && Prop(c.props, "components").Arr?
    ensures c.Obj? && Prop(c.props, "components").Arr? ==>
              var xs := Prop(c.props, "components").elems;
              (r.Ok? <==> forall i :: 0 <= i < |xs| ==> CreateOne(h, xs[i]).Ok?)
              && (r.Ok? ==> |r.value.props["components"].elems| == |xs|
                            && forall i :: 0 <= i < |xs| ==> CreateOne(h, xs[i]) == Ok(r.value.props["components"].elems[i]))
  {
    var inner :- Get(c, "components");
    var children :- MapCreate(h, inner);
    Ok(RowOf(children))
  }

  /** The row of each entry of a `components` array, as a list of
      completions. */
  function EntryResults(h: Helpers, entries: seq<Value>): (r: seq<Result<Value>>)
    ensures |r| == |entries| && forall i :: 0 <= i < |entries| ==> r[i] == EntryRow(h, entries[i])
  {
    seq(|entries|, i requires 0 <= i < |entries| => EntryRow(h, entries[i]))
  }

  /** What `map` returns from the first `n` callback completions `rs`: the
      values in order, or the first exception. */
  function Collect<T>(rs: seq<Result<T>>, n: nat): (r: Result<seq<T>>)
    requires n <= |rs|
    ensures r.Ok? <==> forall i :: 0 <= i < n ==> rs[i].Ok?
    ensures r.Ok? ==> |r.value| == n && forall i :: 0 <= i < n ==> rs[i] == Ok(r.value[i])
  {
    if n == 0 then Ok([])
    else
      var front :- Collect(rs, n - 1);
      var last :- rs[n - 1];
      Ok(front + [last])
  }

  /** The value of the options bag itself, passed whole to `create` when the
      options carry a known non-row `type`. */
  function Bag(o: map<string, Value>): Value
  {
    Obj(PlainObject, o)
  }

  /** `MessageComponentTypes[options.type]` is truthy. */
  predicate KnownType(h: Helpers, o: map<string, Value>)
  {
    Truthy(h.typeTable(Prop(o, "type")))
  }

  /** `hasActionRow`: a known `type` that is the ACTION_ROW code. */
  predicate TypeIsActionRow(h: Helpers, o: map<string, Value>)
  {
    KnownType(h, o) && Prop(o, "type") == Num(ACTION_ROW)
  }

  /** One of the four list fields is exactly `null`. */
  predicate AnyNull(o: map<string, Value>)
  {
    Prop(o, "components") == Null || Prop(o, "component") == Null
    || Prop(o, "buttons") == Null || Prop(o, "button") == Null
  }

  /** `hasComponent` at the end: some branch fired or some field is `null`. */
  predicate HasComponent(h: Helpers, o: map<string, Value>)
  {
    KnownType(h, o) || Truthy(Prop(o, "component")) || Truthy(Prop(o, "components"))
    || Truthy(Prop(o, "buttons")) || Truthy(Prop(o, "button")) || AnyNull(o)
  }

  /** The row of a known `type`: the ACTION_ROW code maps `components`,
      any other known type wraps the whole bag. */
  function TypeRows(h: Helpers, o: map<string, Value>): (r: Result<seq<Value>>)
    ensures r.Ok? ==> |r.value| == (if KnownType(h, o) then 1 else 0) && AllActionRows(r.value)
    ensures TypeIsActionRow(h, o) ==>
              var m := MapCreate(h, Prop(o, "components"));
              (r.Ok? <==> m.Ok?) && (m.Ok? ==> r == Ok([RowOf(m.value)]))
    ensures KnownType(h, o) && !TypeIsActionRow(h, o) ==>
              var c := CreateOne(h, Bag(o));
              (r.Ok? <==> c.Ok?) && (c.Ok? ==> r == Ok([RowOf([c.value])]))
  {
    var t := Prop(o, "type");
    if !KnownType(h, o) then Ok([])
    else if t == Num(ACTION_ROW) then
      var children :- MapCreate(h, Prop(o, "components"));
      Ok([RowOf(children)])
    else
      var child :- CreateOne(h, Bag(o));
      Ok([RowOf([child])])
  }

  /** The row of a truthy `component`: an action row contributes its
      children, anything else is the single child. */
  function ComponentRows(h: Helpers, o: map<string, Value>): (r: Result<seq<Value>>)
    ensures r.Ok? ==> |r.value| == (if Truthy(Prop(o, "component")) then 1 else 0) && AllActionRows(r.value)
    ensures var c := Prop(o, "component");
            Truthy(c) && c.Obj? && c.proto == ActionRowProto ==>
              var m := MapCreate(h, Prop(c.props, "components"));
              (r.Ok? <==> m.Ok?) && (m.Ok? ==> r == Ok([RowOf(m.value)]))
    ensures var c := Prop(o, "component");
            Truthy(c) && !(c.Obj? && c.proto == ActionRowProto) ==>
              var one := CreateOne(h, c);
              (r.Ok? <==> one.Ok?) && (one.Ok? ==> r == Ok([RowOf([one.value])]))
  {
    var c := Prop(o, "component");
    if !Truthy(c) then Ok([])
    else if c.Obj? && c.proto == ActionRowProto then
      var children :- MapCreate(h, Prop(c.props, "components"));
      Ok([RowOf(children)])
    else
      var child :- CreateOne(h, c);
      Ok([RowOf([child])])
  }

  /** The rows of a truthy `components`: one per entry of an array (none
      when `hasActionRow`), or one row of the `components` of anything
      else. */
  function ComponentsRows(h: Helpers, o: map<string, Value>, hasActionRow: bool): (r: Result<seq<Value>>)
    ensures r.Ok? ==> AllActionRows(r.value)
    ensures var cs := Prop(o, "components");
            !Truthy(cs) || (cs.Arr? && hasActionRow) ==> r == Ok([])
    ensures var cs := Prop(o, "components");
            cs.Arr? && !hasActionRow ==>
              (r.Ok? <==> forall i :: 0 <= i < |cs.elems| ==> EntryRow(h, cs.elems[i]).Ok?)
              && (r.Ok? ==> |r.value| == |cs.elems|
                            && forall i :: 0 <= i < |cs.elems| ==> EntryRow(h, cs.elems[i]) == Ok(r.value[i]))
    ensures var cs := Prop(o, "components");
            Truthy(cs) && !cs.Arr? ==>
              var m := MapCreate(h, Get(cs, "components").value);
              (r.Ok? <==> m.Ok?) && (r.Ok? ==> r.value == [RowOf(m.value)])
  {
    var cs := Prop(o, "components");
    if !Truthy(cs) then Ok([])
    else if cs.Arr? then
      if hasActionRow then Ok([]) else Collect(EntryResults(h, cs.elems), |cs.elems|)
    else
      // a truthy primitive or object: reading `.components` does not throw
      var children :- MapCreate(h, Get(cs, "components").value);
      Ok([RowOf(children)])
  }

  /** The row of a truthy `buttons` or `button` field. */
  function SpreadRows(h: Helpers, x: Value): (r: Result<seq<Value>>)
    ensures r.Ok? ==> |r.value| == (if Truthy(x) then 1 else 0) && AllActionRows(r.value)
    ensures Truthy(x) ==> var sp := Spread(h, x);
              (r.Ok? <==> sp.Ok?) && (sp.Ok? ==> r == Ok([RowOf(sp.value)]))
  {
    if !Truthy(x) then Ok([])
    else
      var children :- Spread(h, x);
      Ok([RowOf(children)])
  }

  /** What the resolver assigns to `data.components`: `None` when it assigns
      nothing. The rows come in the order type, component, components,
      buttons, button; a `null` field empties the list; the first throw of
      any branch is the result. */
  function Resolved(h: Helpers, o: map<string, Value>): (r: Result<Option<seq<Value>>>)
    ensures r.Ok? ==> (r.value.Some? <==> HasComponent(h, o))
  {
    var typeRows :- TypeRows(h, o);
    var componentRows :- ComponentRows(h, o);
    var componentsRows :- ComponentsRows(h, o, TypeIsActionRow(h, o));
    var buttonsRows :- SpreadRows(h, Prop(o, "buttons"));
    var buttonRows :- SpreadRows(h, Prop(o, "button"));
    if AnyNull(o) then Ok(Some([]))
    else if HasComponent(h, o) then Ok(Some(typeRows + componentRows + componentsRows + buttonsRows + buttonRows))
    else Ok(None)
  }

  /** The flags prefix of `sendAPICallback`: a truthy `flags` option is
      parsed into `data.flags`, and `ephemeral === true` then sets it to 64.
      `APIMessage` leaves the data as the host resolved it. */
  function Flagged(h: Helpers, callback: bool, o: map<string, Value>, base: map<string, Value>): (d: map<string, Value>)
    ensures forall k :: k in base && k != "flags" ==> k in d && d[k] == base[k]
    ensures d.Keys <= base.Keys + {"flags"}
    ensures callback && (Prop(o, "ephemeral") == Bool(true) || Truthy(Prop(o, "flags"))) ==> "flags" in d
    ensures callback && Prop(o, "ephemeral") == Bool(true) ==> d["flags"] == Num(64)
    ensures callback && Prop(o, "ephemeral") != Bool(true) && Truthy(Prop(o, "flags")) ==>
              d["flags"] == h.parseInt(Prop(o, "flags"))
    ensures !callback || (Prop(o, "ephemeral") != Bool(true) && !Truthy(Prop(o, "flags"))) ==> d == base
  {
    if !callback then base
    else
      var parsed := if Truthy(Prop(o, "flags")) then base["flags" := h.parseInt(Prop(o, "flags"))] else base;
      if Prop(o, "ephemeral") == Bool(true) then parsed["flags" := Num(64)] else parsed
  }

  /** The data `resolveData` leaves on a message with no data yet, given the
      data `base` the host's own resolution produced: the flags, then the
      components when assigned. When a branch throws, the flags are already
      written and the components are not. */
  function ResolvedData(h: Helpers, callback: bool, o: map<string, Value>, base: map<string, Value>): (d: map<string, Value>)
    ensures forall k :: k in base && k != "flags" && k != "components" ==> k in d && d[k] == base[k]
    ensures Resolved(h, o).Ok? && Resolved(h, o).value.Some? ==>
              "components" in d && d["components"] == Arr(Resolved(h, o).value.value)
    ensures !(Resolved(h, o).Ok? && Resolved(h, o).value.Some?) ==> d == Flagged(h, callback, o, base)
    ensures ("flags" in d <==> "flags" in Flagged(h, callback, o, base))
            && ("flags" in d ==> d["flags"] == Flagged(h, callback, o, base)["flags"])
  {
    var flagged := Flagged(h, callback, o, base);
    var rows := Resolved(h, o);
    if rows.Ok? && rows.value.Some? then flagged["components" := Arr(rows.value.value)] else flagged
  }

  /** A message being sent: `APIMessage` (`callback` false) or
      `sendAPICallback` (`callback` true). */
  class APIMessage {
    const callback: bool
    const options: map<string, Value>
    var data: Option<map<string, Value>>

    constructor (callback: bool, options: map<string, Value>)
      ensures this.callback == callback && this.options == options && data == None
    {
      this.callback := callback;
      this.options := options;
      data := None;
    }

    /** `resolveData()`: with data already present it returns at once;
        otherwise the host resolves `base`, the flags are written, and the
        shorthand fields are turned into `data.components` branch by branch.
        It returns the message itself, or throws what a branch threw. */
    method ResolveData(h: Helpers, base: map<string, Value>) returns (r: Result<APIMessage>)
      modifies this
      ensures data.Some?
      ensures old(data).Some? ==> data == old(data) && r == Ok(this)
      ensures old(data).None? ==> data == Some(ResolvedData(h, callback, options, base))
      ensures old(data).None? ==> r == (if Resolved(h, options).Ok? then Ok(this) else Throw(Resolved(h, options).error))
    {
      if data.Some? {
        return Ok(this);
      }
      var d := ResolveFlags(h, base);
      data := Some(d);
      var rows :- ResolveComponents(h);
      if rows.Some? {
        // `components.length === 0 ? [] : components` has the same entries
        data := Some(d["components" := Arr(rows.value)]);
      }
      r := Ok(this);
    }

    /** The flags prefix, in `sendAPICallback` only. */
    method ResolveFlags(h: Helpers, base: map<string, Value>) returns (d: map<string, Value>)
      ensures d == Flagged(h, callback, options, base)
    {
      d := base;
      if callback {
        if Truthy(Prop(options, "flags")) {
          d := d["flags" := h.parseInt(Prop(options, "flags"))];
        }
        if Prop(options, "ephemeral") == Bool(true) {
          d := d["flags" := Num(64)];
        }
      }
    }

    /** The shorthand fields in source order, growing the local list and
        setting `hasComponent` when a branch fires; the list to assign,
        `None` when nothing is assigned, or the first exception. */
    method ResolveComponents(h: Helpers) returns (r: Result<Option<seq<Value>>>)
      ensures r == Resolved(h, options)
    {
      var components: seq<Value> := [];
      var hasComponent := false;
      var typeRows, hasActionRow, fired :- TypeRow(h);
      hasComponent := hasComponent || fired;
      components := components + typeRows;
      assert components == typeRows;
      var componentRows, componentFired :- ComponentRow(h);
      hasComponent := hasComponent || componentFired;
      components := components + componentRows;
      var componentsRows, componentsFired :- ComponentsRowsFor(h, hasActionRow);
      hasComponent := hasComponent || componentsFired;
      components := components + componentsRows;
      var buttonsRows, buttonsFired :- SpreadRow(h, Prop(options, "buttons"));
      hasComponent := hasComponent || buttonsFired;
      components := components + buttonsRows;
      var buttonRows, buttonFired :- SpreadRow(h, Prop(options, "button"));
      hasComponent := hasComponent || buttonFired;
      components := components + buttonRows;
      if Prop(options, "components") == Null || Prop(options, "component") == Null
         || Prop(options, "buttons") == Null || Prop(options, "button") == Null {
        hasComponent := true;
        components := [];
      }
      r := if hasComponent then Ok(Some(components)) else Ok(None);
    }

    /** The `type` branch: a known type sets `hasComponent` and pushes one
        row, and the ACTION_ROW code also sets `hasActionRow` once its row is
        pushed. */
    method TypeRow(h: Helpers) returns (r: Result<seq<Value>>, hasActionRow: bool, hasComponent: bool)
      ensures r == TypeRows(h, options)
      ensures r.Ok? ==> hasActionRow == TypeIsActionRow(h, options)
      ensures hasComponent == KnownType(h, options)
    {
      var components: seq<Value> := [];
      hasActionRow := false;
      hasComponent := false;
      var t := Prop(options, "type");
      if Truthy(h.typeTable(t)) {
        hasComponent := true;
        if t == Num(ACTION_ROW) {
          var children := MapCreate(h, Prop(options, "components"));
          if children.Throw? {
            return Throw(children.error), hasActionRow, hasComponent;
          }
          components := components + [RowOf(children.value)];
          assert components == [RowOf(children.value)];
          hasActionRow := true;
        } else {
          var child := CreateOne(h, Bag(options));
          if child.Throw? {
            return Throw(child.error), hasActionRow, hasComponent;
          }
          components := components + [RowOf([child.value])];
          assert components == [RowOf([child.value])];
        }
      }
      r := Ok(components);
    }

    /** The `component` branch: a truthy component sets `hasComponent` and
        pushes one row. */
    method ComponentRow(h: Helpers) returns (r: Result<seq<Value>>, hasComponent: bool)
      ensures r == ComponentRows(h, options)
      ensures hasComponent == Truthy(Prop(options, "component"))
    {
      var components: seq<Value> := [];
      hasComponent := false;
      var component := Prop(options, "component");
      if Truthy(component) {
        hasComponent := true;
        var children: seq<Value>;
        if component.Obj? && component.proto == ActionRowProto {
          children :- MapCreate(h, Prop(component.props, "components"));
        } else {
          var child :- CreateOne(h, component);
          children := [child];
        }
        components := components + [RowOf(children)];
        assert components == [RowOf(children)];
      }
      r := Ok(components);
    }

    /** The `components` branch: a truthy field sets `hasComponent`; an
        array pushes one row per entry unless `hasActionRow`, anything else
        pushes one row. */
    method ComponentsRowsFor(h: Helpers, hasActionRow: bool) returns (r: Result<seq<Value>>, hasComponent: bool)
      ensures r == ComponentsRows(h, options, hasActionRow)
      ensures hasComponent == Truthy(Prop(options, "components"))
    {
      var components: seq<Value> := [];
      hasComponent := false;
      var list := Prop(options, "components");
      if Truthy(list) {
        hasComponent := true;
        if list.Arr? {
          if !hasActionRow {
            // `push(...list.map(c => row of c))`
            var rows :- Collect(EntryResults(h, list.elems), |list.elems|);
            components := components + rows;
            assert components == rows;
          }
        } else {
          var children :- MapCreate(h, Get(list, "components").value);
          components := components + [RowOf(children)];
          assert components == [RowOf(children)];
        }
      }
      r := Ok(components);
    }

    /** The `buttons` and `button` branches: a truthy field sets
        `hasComponent` and pushes one row of the mapped array or of the
        single normalised value. */
    static method SpreadRow(h: Helpers, x: Value) returns (r: Result<seq<Value>>, hasComponent: bool)
      ensures r == SpreadRows(h, x)
      ensures hasComponent == Truthy(x)
    {
      var components: seq<Value> := [];
      hasComponent := false;
      if Truthy(x) {
        hasComponent := true;
        var children: seq<Value>;
        if x.Arr? {
          children :- MapCreate(h, x);
        } else {
          var child :- CreateOne(h, x);
          children := [child];
        }
        components := components + [RowOf(children)];
        assert components == [RowOf(children)];
      }
      r := Ok(components);
    }
  }

  // ---------------------------------------------------------------------
  // Properties of the resolver

  /** Without a known `type` and with none of the four list fields truthy
      or `null`, `data.components` is not assigned: the data is the host's
      with the flags. */
  lemma NoShorthandLeavesComponents(h: Helpers, callback: bool, o: map<string, Value>, base: map<string, Value>)
    requires !KnownType(h, o)
    requires !Truthy(Prop(o, "component")) && !Truthy(Prop(o, "components"))
    requires !Truthy(Prop(o, "buttons")) && !Truthy(Prop(o, "button")) && !AnyNull(o)
    ensures Resolved(h, o) == Ok(None)
    ensures ResolvedData(h, callback, o, base) == Flagged(h, callback, o, base)
  {
  }

  /** A `null` list field empties the list whatever the other fields hold,
      unless an earlier branch threw; with no other shorthand it is `[]`. */
  lemma NullClears(h: Helpers, o: map<string, Value>)
    requires AnyNull(o)
    ensures Resolved(h, o).Ok? ==> Resolved(h, o).value == Some([])
    ensures !KnownType(h, o) && !Truthy(Prop(o, "component")) && !Truthy(Prop(o, "components"))
            && !Truthy(Prop(o, "buttons")) && !Truthy(Prop(o, "button")) ==>
              Resolved(h, o) == Ok(Some([]))
  {
  }

  /** With the ACTION_ROW code as `type`, the `components` array becomes
      exactly one row and is not expanded entry by entry. */
  lemma ActionRowTypeMakesOneRow(h: Helpers, o: map<string, Value>)
    requires CodesAsTyped(h) && Prop(o, "type") == Num(ACTION_ROW) && Prop(o, "components").Arr?
    requires !Truthy(Prop(o, "component")) && !Truthy(Prop(o, "buttons")) && !Truthy(Prop(o, "button"))
    requires !AnyNull(o)
    ensures var m := MapCreate(h, Prop(o, "components"));
            Resolved(h, o) == if m.Ok? then Ok(Some([RowOf(m.value)])) else Throw(m.error)
  {
    assert TypeIsActionRow(h, o);
    var m := MapCreate(h, Prop(o, "components"));
    if m.Ok? {
      var rows := [RowOf(m.value)];
      assert TypeRows(h, o) == Ok(rows);
      assert ComponentsRows(h, o, true) == Ok([]);
      assert rows + [] + [] + [] + [] == rows;
    }
  }

  /** With the ACTION_ROW code as `type`, a `components` that is not an
      array throws: it has no `map`. */
  lemma ActionRowTypeNeedsArray(h: Helpers, o: map<string, Value>)
    requires CodesAsTyped(h) && Prop(o, "type") == Num(ACTION_ROW) && !Prop(o, "components").Arr?
    ensures Resolved(h, o) == Throw(TypeError)
  {
  }

  /** Any other known `type` makes one row whose single child is the whole
      options bag, normalised. */
  lemma KnownTypeWrapsBag(h: Helpers, o: map<string, Value>)
    requires KnownType(h, o) && Prop(o, "type") != Num(ACTION_ROW)
    requires !Truthy(Prop(o, "component")) && !Truthy(Prop(o, "components"))
    requires !Truthy(Prop(o, "buttons")) && !Truthy(Prop(o, "button")) && !AnyNull(o)
    ensures var c := CreateOne(h, Bag(o));
            Resolved(h, o) == if c.Ok? then Ok(Some([RowOf([c.value])])) else Throw(c.error)
  {
    var c := CreateOne(h, Bag(o));
    if c.Ok? {
      var rows := [RowOf([c.value])];
      assert TypeRows(h, o) == Ok(rows);
      assert rows + [] + [] + [] + [] == rows;
    }
  }

  /** The name `'ACTION_ROW'` is a known type but not the ACTION_ROW code,
      so it wraps the bag instead of suppressing the expansion. */
  lemma ActionRowNameWrapsBag(h: Helpers, o: map<string, Value>)
    requires CodesAsTyped(h) && Prop(o, "type") == Str("ACTION_ROW")
    ensures KnownType(h, o) && !TypeIsActionRow(h, o)
    ensures var c := CreateOne(h, Bag(o));
            TypeRows(h, o) == if c.Ok? then Ok([RowOf([c.value])]) else Throw(c.error)
  {
  }

  /** Without a known `type` and other shorthand, the list is the rows of
      the entries of a `components` array, or the first exception. */
  lemma ComponentsArrayResolves(h: Helpers, o: map<string, Value>, entries: seq<Value>)
    requires !KnownType(h, o) && Prop(o, "components") == Arr(entries)
    requires !Truthy(Prop(o, "component")) && !Truthy(Prop(o, "buttons")) && !Truthy(Prop(o, "button"))
    requires !AnyNull(o)
    ensures var rows := Collect(EntryResults(h, entries), |entries|);
            Resolved(h, o) == if rows.Ok? then Ok(Some(rows.value)) else Throw(rows.error)
  {
    NoOtherRows(h, o);
    var rows := Collect(EntryResults(h, entries), |entries|);
    assert !TypeIsActionRow(h, o) && ComponentsRows(h, o, false) == rows;
    OnlyComponentsRows(h, o, rows);
  }

  /** When only the `components` branch can add rows, the list is its
      rows, or its exception. */
  lemma OnlyComponentsRows(h: Helpers, o: map<string, Value>, rows: Result<seq<Value>>)
    requires TypeRows(h, o) == Ok([]) && ComponentRows(h, o) == Ok([])
    requires SpreadRows(h, Prop(o, "buttons")) == Ok([]) && SpreadRows(h, Prop(o, "button")) == Ok([])
    requires ComponentsRows(h, o, TypeIsActionRow(h, o)) == rows
    requires HasComponent(h, o) && !AnyNull(o)
    ensures Resolved(h, o) == if rows.Ok? then Ok(Some(rows.value)) else Throw(rows.error)
  {
    if rows.Ok? {
      OnlyComponentsRowsOk(h, o, rows.value);
    } else {
      OnlyComponentsRowsThrow(h, o, rows.error);
    }
  }

  /** The successful case of `OnlyComponentsRows`. */
  lemma OnlyComponentsRowsOk(h: Helpers, o: map<string, Value>, rows: seq<Value>)
    requires TypeRows(h, o) == Ok([]) && ComponentRows(h, o) == Ok([])
    requires SpreadRows(h, Prop(o, "buttons")) == Ok([]) && SpreadRows(h, Prop(o, "button")) == Ok([])
    requires ComponentsRows(h, o, TypeIsActionRow(h, o)) == Ok(rows)
    requires HasComponent(h, o) && !AnyNull(o)
    ensures Resolved(h, o) == Ok(Some(rows))
  {
    assert [] + [] + rows + [] + [] == rows;
  }

  /** The throwing case of `OnlyComponentsRows`. */
  lemma OnlyComponentsRowsThrow(h: Helpers, o: map<string, Value>, e: JsError)
    requires TypeRows(h, o) == Ok([]) && ComponentRows(h, o) == Ok([])
    requires ComponentsRows(h, o, TypeIsActionRow(h, o)) == Throw(e)
    ensures Resolved(h, o) == Throw(e)
  {
  }

  /** Without a known `type`, `component`, `buttons` or `button`, those
      branches add no rows and cannot throw. */
  lemma NoOtherRows(h: Helpers, o: map<string, Value>)
    requires !KnownType(h, o) && !Truthy(Prop(o, "component")) && !Truthy(Prop(o, "buttons")) && !Truthy(Prop(o, "button"))
    ensures TypeRows(h, o) == Ok([]) && ComponentRows(h, o) == Ok([])
    ensures SpreadRows(h, Prop(o, "buttons")) == Ok([]) && SpreadRows(h, Prop(o, "button")) == Ok([])
  {
  }

  /** Unless `type` is the ACTION_ROW code, a `components` array of n
      entries gives n rows, the rows `ComponentsRows` makes of the entries'
      own children (entry i's row is `EntryRow` of entry i); they follow the
      `type` row and the `component` row when those are there. With no
      other shorthand these are all the rows, and an empty array still
      assigns `[]`. */
  lemma ComponentsArrayRows(h: Helpers, o: map<string, Value>, entries: seq<Value>)
    requires !TypeIsActionRow(h, o) && Prop(o, "components") == Arr(entries) && !AnyNull(o)
    ensures Resolved(h, o).Ok? ==> forall i :: 0 <= i < |entries| ==> EntryRow(h, entries[i]).Ok?
    ensures var r := Resolved(h, o);
            var k := (if KnownType(h, o) then 1 else 0) + (if Truthy(Prop(o, "component")) then 1 else 0);
            r.Ok? ==> r.value.Some? && k + |entries| <= |r.value.value|
                      && r.value.value[k..k + |entries|] == ComponentsRows(h, o, false).value
    ensures !KnownType(h, o) && !Truthy(Prop(o, "component")) && !Truthy(Prop(o, "buttons")) && !Truthy(Prop(o, "button")) ==>
              (Resolved(h, o).Ok? <==> forall i :: 0 <= i < |entries| ==> EntryRow(h, entries[i]).Ok?)
              && (Resolved(h, o).Ok? ==> |Resolved(h, o).value.value| == |entries|)
              && (entries == [] ==> Resolved(h, o) == Ok(Some([])))
  {
    if !KnownType(h, o) && !Truthy(Prop(o, "component")) && !Truthy(Prop(o, "buttons")) && !Truthy(Prop(o, "button")) {
      ComponentsArrayResolves(h, o, entries);
    }
    if Resolved(h, o).Ok? {
      ComponentsSegment(h, o, entries);
    }
  }

  /** Where the rows of a `components` array sit in a completed list. */
  lemma ComponentsSegment(h: Helpers, o: map<string, Value>, entries: seq<Value>)
    requires !TypeIsActionRow(h, o) && Prop(o, "components") == Arr(entries) && !AnyNull(o)
    requires Resolved(h, o).Ok?
    ensures forall i :: 0 <= i < |entries| ==> EntryRow(h, entries[i]).Ok?
    ensures var r := Resolved(h, o);
            var k := (if KnownType(h, o) then 1 else 0) + (if Truthy(Prop(o, "component")) then 1 else 0);
            r.value.Some? && k + |entries| <= |r.value.value|
            && r.value.value[k..k + |entries|] == ComponentsRows(h, o, false).value
  {
    var k := (if KnownType(h, o) then 1 else 0) + (if Truthy(Prop(o, "component")) then 1 else 0);
    ResolvedParts(h, o);
    assert HasComponent(h, o);
    ArrayRowsMatch(h, o, entries);
    FrontLength(h, o);
    SliceAt(Resolved(h, o).value.value, TypeRows(h, o).value, ComponentRows(h, o).value,
            ComponentsRows(h, o, false).value,
            SpreadRows(h, Prop(o, "buttons")).value, SpreadRows(h, Prop(o, "button")).value, k);
  }

  /** A completed list with something to assign is the five branches'
      rows in order. */
  lemma ResolvedParts(h: Helpers, o: map<string, Value>)
    requires Resolved(h, o).Ok? && !AnyNull(o)
    ensures TypeRows(h, o).Ok? && ComponentRows(h, o).Ok? && ComponentsRows(h, o, TypeIsActionRow(h, o)).Ok?
    ensures SpreadRows(h, Prop(o, "buttons")).Ok? && SpreadRows(h, Prop(o, "button")).Ok?
    ensures HasComponent(h, o) ==>
              Resolved(h, o) == Ok(Some(TypeRows(h, o).value + ComponentRows(h, o).value
                                        + ComponentsRows(h, o, TypeIsActionRow(h, o)).value
                                        + SpreadRows(h, Prop(o, "buttons")).value + SpreadRows(h, Prop(o, "button")).value))
  {
  }

  /** The rows of a `components` array, entry by entry. */
  lemma ArrayRowsMatch(h: Helpers, o: map<string, Value>, entries: seq<Value>)
    requires Prop(o, "components") == Arr(entries) && ComponentsRows(h, o, false).Ok?
    ensures var c := ComponentsRows(h, o, false).value;
            |c| == |entries| && forall i :: 0 <= i < |entries| ==> EntryRow(h, entries[i]) == Ok(c[i])
  {
  }

  /** The `type` row and the `component` row come first, one for each. */
  lemma FrontLength(h: Helpers, o: map<string, Value>)
    requires TypeRows(h, o).Ok? && ComponentRows(h, o).Ok?
    ensures |TypeRows(h, o).value| + |ComponentRows(h, o).value|
              == (if KnownType(h, o) then 1 else 0) + (if Truthy(Prop(o, "component")) then 1 else 0)
  {
  }

  /** The third of five concatenated parts starts after the first two. */
  lemma SliceAt(rows: seq<Value>, a: seq<Value>, b: seq<Value>, c: seq<Value>, d: seq<Value>, e: seq<Value>, k: int)
    requires rows == a + b + c + d + e && |a| + |b| == k
    ensures k + |c| <= |rows| && rows[k..k + |c|] == c
  {
    assert rows == (a + b) + c + (d + e);
  }

  /** How many rows each field contributes. */
  function ComponentsCount(h: Helpers, o: map<string, Value>): nat
  {
    var cs := Prop(o, "components");
    if !Truthy(cs) then 0
    else if cs.Arr? then (if TypeIsActionRow(h, o) then 0 else |cs.elems|)
    else 1
  }

  /** Without a `null` field, a completed resolution has one row for a known
      type, one for a truthy `component`, the `components` rows, and one each
      for truthy `buttons` and `button`. */
  lemma ResolvedRowCount(h: Helpers, o: map<string, Value>)
    requires !AnyNull(o) && HasComponent(h, o) && Resolved(h, o).Ok?
    ensures |Resolved(h, o).value.value| ==
              (if KnownType(h, o) then 1 else 0) + (if Truthy(Prop(o, "component")) then 1 else 0)
              + ComponentsCount(h, o)
              + (if Truthy(Prop(o, "buttons")) then 1 else 0) + (if Truthy(Prop(o, "button")) then 1 else 0)
  {
  }

  /** Every entry of the assigned list is a wire row with the ACTION_ROW
      code. */
  lemma ResolvedRowsAreActionRows(h: Helpers, o: map<string, Value>)
    ensures Resolved(h, o).Ok? && Resolved(h, o).value.Some? ==> AllActionRows(Resolved(h, o).value.value)
  {
    if Resolved(h, o).Ok? && !AnyNull(o) && HasComponent(h, o) {
      var a := TypeRows(h, o).value;
      var b := ComponentRows(h, o).value;
      var c := ComponentsRows(h, o, TypeIsActionRow(h, o)).value;
      var d := SpreadRows(h, Prop(o, "buttons")).value;
      var e := SpreadRows(h, Prop(o, "button")).value;
      assert Resolved(h, o).value.value == a + b + c + d + e;
      AllActionRowsAppend(a, b);
      AllActionRowsAppend(a + b, c);
      AllActionRowsAppend(a + b + c, d);
      AllActionRowsAppend(a + b + c + d, e);
    }
  }

  /** Two lists of wire rows joined are a list of wire rows. */
  lemma AllActionRowsAppend(xs: seq<Value>, ys: seq<Value>)
    requires AllActionRows(xs) && AllActionRows(ys)
    ensures AllActionRows(xs + ys)
  {
    forall i | 0 <= i < |xs + ys|
      ensures IsActionRow((xs + ys)[i])
    {
      if i >= |xs| {
        assert (xs + ys)[i] == ys[i - |xs|];
      }
    }
  }

  /** The rows follow the field order: a wrapped `component` comes before
      the `buttons` row, which comes before the `button` row. */
  lemma RowsFollowFieldOrder(h: Helpers, o: map<string, Value>, bs: seq<Value>)
    requires !KnownType(h, o) && !Truthy(Prop(o, "components")) && !AnyNull(o)
    requires Truthy(Prop(o, "component")) && !Prop(o, "component").Arr?
    requires !(Prop(o, "component").Obj? && Prop(o, "component").proto == ActionRowProto)
    requires Prop(o, "buttons") == Arr(bs)
    requires Truthy(Prop(o, "button")) && !Prop(o, "button").Arr?
    requires CreateOne(h, Prop(o, "component")).Ok? && MapCreate(h, Arr(bs)).Ok?
    requires CreateOne(h, Prop(o, "button")).Ok?
    ensures Resolved(h, o) == Ok(Some([RowOf([CreateOne(h, Prop(o, "component")).value]),
                                       RowOf(MapCreate(h, Arr(bs)).value),
                                       RowOf([CreateOne(h, Prop(o, "button")).value])]))
  {
    var first := [RowOf([CreateOne(h, Prop(o, "component")).value])];
    var second := [RowOf(MapCreate(h, Arr(bs)).value)];
    var third := [RowOf([CreateOne(h, Prop(o, "button")).value])];
    assert TypeRows(h, o) == Ok([]);
    assert ComponentRows(h, o) == Ok(first);
    assert ComponentsRows(h, o, false) == Ok([]);
    assert SpreadRows(h, Prop(o, "buttons")) == Ok(second);
    assert SpreadRows(h, Prop(o, "button")) == Ok(third);
    assert [] + first + [] + second + third == first + second + third;
    assert first + second + third == [first[0], second[0], third[0]];
  }

  /** A `buttons` or `button` field alone, with no known `type` for
      `undefined`, makes the one row of its spread: the mapped array or the
      one normalised value, or their first exception. */
  lemma SpreadFieldAlone(h: Helpers, key: string, x: Value)
    requires key == "buttons" || key == "button"
    requires !Truthy(h.typeTable(Undefined)) && Truthy(x)
    ensures var sp := Spread(h, x);
            Resolved(h, map[key := x]) == if sp.Ok? then Ok(Some([RowOf(sp.value)])) else Throw(sp.error)
  {
    var o := map[key := x];
    assert Prop(o, "type") == Undefined && Prop(o, "component") == Undefined && Prop(o, "components") == Undefined;
    assert !AnyNull(o) && HasComponent(h, o);
    assert TypeRows(h, o) == Ok([]) && ComponentRows(h, o) == Ok([]);
    assert ComponentsRows(h, o, TypeIsActionRow(h, o)) == Ok([]);
    var sp := Spread(h, x);
    if key == "buttons" {
      assert SpreadRows(h, Prop(o, "button")) == Ok([]);
      if sp.Ok? {
        assert [] + [] + [] + [RowOf(sp.value)] + [] == [RowOf(sp.value)];
      }
    } else {
      assert SpreadRows(h, Prop(o, "buttons")) == Ok([]);
      if sp.Ok? {
        assert [] + [] + [] + [] + [RowOf(sp.value)] == [RowOf(sp.value)];
      }
    }
  }

  /** `{buttons: [b1, b2]}` sends one row holding both buttons, normalised
      and in order. */
  lemma TwoButtonsOneRow(h: Helpers, b1: Value, b2: Value)
    requires !Truthy(h.typeTable(Undefined))
    requires CreateOne(h, b1).Ok? && CreateOne(h, b2).Ok?
    ensures Resolved(h, map["buttons" := Arr([b1, b2])])
              == Ok(Some([RowOf([CreateOne(h, b1).value, CreateOne(h, b2).value])]))
  {
    var x := Arr([b1, b2]);
    SpreadFieldAlone(h, "buttons", x);
    var sp := Spread(h, x);
    assert x.elems[0] == b1 && x.elems[1] == b2;
    assert sp.Ok?;
    assert sp.value == [CreateOne(h, b1).value, CreateOne(h, b2).value];
  }

  /** In `sendAPICallback`, `ephemeral: true` leaves the flags at 64 whatever
      `flags` said; `APIMessage` never touches them. */
  lemma EphemeralFlags(h: Helpers, callback: bool, o: map<string, Value>, base: map<string, Value>)
    ensures var d := ResolvedData(h, callback, o, base);
            callback && Prop(o, "ephemeral") == Bool(true) ==> "flags" in d && d["flags"] == Num(64)
    ensures var d := ResolvedData(h, callback, o, base);
            !callback ==> ("flags" in d <==> "flags" in base) && ("flags" in base ==> d["flags"] == base["flags"])
  {
  }
}
