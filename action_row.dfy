/** `MessageActionRow`: an ordered list of child components that the
    application fills in place. Each method is proved against the factory's
    specification functions. */
module ActionRow {
  import opened Js
  import opened Components

  class MessageActionRow {
    /** set once by the base constructor */
    var componentType: Value
    /** the children, each the result of `create` */
    var components: seq<Value>

    /** The object the constructor has before `setup` runs. */
    constructor Allocate(h: Helpers)
      ensures componentType == OwnType(h, "ACTION_ROW") && components == []
    {
      componentType := OwnType(h, "ACTION_ROW");
      components := [];
    }

    /** The row as a value, as `create` and the send-options resolver see it. */
    function AsValue(): (v: Value)
      reads this
      ensures v.Obj? && v.proto == ActionRowProto
      ensures v.props.Keys == {"type", "components"}
      ensures v.props["type"] == componentType && v.props["components"] == Arr(components)
    {
      Obj(ActionRowProto, map["type" := componentType, "components" := Arr(components)])
    }

    /** `new MessageActionRow(data)`: the base constructor, then `setup`
        (`data` defaults to `{}`); the constructor throws when `setup` does.
        For `data` with the ACTION_ROW code this is exactly what `create`
        builds. */
    static method New(h: Helpers, data: Value) returns (r: Result<MessageActionRow>)
      ensures var c := RowSetup(h, OrEmptyObject(data), []);
              (r.Ok? <==> c.Normal?) && (r.Throw? ==> r.error == c.error)
      ensures r.Ok? ==> fresh(r.value)
                        && r.value.componentType == OwnType(h, "ACTION_ROW")
                        && r.value.components == RowSetup(h, OrEmptyObject(data), []).state
      ensures data.Obj? && Prop(data.props, "type") == Num(ACTION_ROW) ==>
                (r.Ok? <==> Create(h, data).Ok?)
                && (r.Ok? ==> Create(h, data) == Ok(r.value.AsValue()))
    {
      var row := new MessageActionRow.Allocate(h);
      var c := RowSetup(h, OrEmptyObject(data), []);
      if c.Abrupt? {
        return Throw(c.error);
      }
      row.components := c.state;
      r := Ok(row);
      if data.Obj? && Prop(data.props, "type") == Num(ACTION_ROW) {
        CreateKnownCodes(h, data);
      }
    }

    /** `setup(data)`: the children become what `RowSetup` says, also when
        it throws; the type is untouched; on success the row itself is
        returned. */
    method Setup(h: Helpers, data: Value) returns (r: Result<MessageActionRow>)
      modifies this
      ensures var c := RowSetup(h, data, old(components));
              components == c.state
              && r == (if c.Normal? then Ok(this) else Throw(c.error))
      ensures componentType == old(componentType)
    {
      var c := RowSetup(h, data, components);
      components := c.state;
      r := if c.Normal? then Ok(this) else Throw(c.error);
    }

    /** `addComponents(...args)`: the arguments are flattened, `create` is
        mapped over them, and the results are pushed at the end. If one
        `create` throws nothing is pushed. */
    method AddComponents(h: Helpers, args: seq<Value>) returns (r: Result<MessageActionRow>)
      modifies this`components
      ensures var created := CreateEach(h, Flat(args));
              if created.Ok? then components == old(components) + created.value && r == Ok(this)
              else components == old(components) && r == Throw(created.error)
      ensures r.Ok? ==>
                |components| == |old(components)| + |Flat(args)|
                && components[..|old(components)|] == old(components)
                && forall i :: 0 <= i < |Flat(args)| ==>
                     Create(h, Flat(args)[i]) == Ok(components[|old(components)| + i])
    {
      var created :- CreateAll(h, Flat(args));
      components := components + created;
      r := Ok(this);
    }

    /** `xs.map(c => BaseMessageComponent.create(c))`, one entry at a time,
        stopping at the first `create` that throws. */
    static method CreateAll(h: Helpers, xs: seq<Value>) returns (r: Result<seq<Value>>)
      ensures r == CreateEach(h, xs)
    {
      var created: seq<Value> := [];
      var i := 0;
      while i < |xs|
        invariant 0 <= i <= |xs|
        invariant CreatePrefix(h, Arr(xs), i) == Ok(created)
      {
        var c := Create(h, xs[i]);
        if c.Throw? {
          assert CreatePrefix(h, Arr(xs), i + 1) == Throw(c.error);
          CreatePrefixStops(h, Arr(xs), i + 1, |xs|);
          return Throw(c.error);
        }
        assert CreatePrefix(h, Arr(xs), i + 1) == Ok(created + [c.value]);
        created := created + [c.value];
        i := i + 1;
      }
      r := Ok(created);
    }

    /** `addComponent(c)` is `addComponents(c)`. */
    method AddComponent(h: Helpers, component: Value) returns (r: Result<MessageActionRow>)
      modifies this`components
      ensures var created := CreateEach(h, Flat([component]));
              if created.Ok? then components == old(components) + created.value && r == Ok(this)
              else components == old(components) && r == Throw(created.error)
    {
      r := AddComponents(h, [component]);
    }

    /** `removeComponents(index, deleteCoun, ...components)`: the body names
        `deleteCount`, which is not declared, so evaluating the arguments of
        `splice` throws and the children stay as they are. */
    method RemoveComponents(index: Value, deleteCoun: Value, args: seq<Value>) returns (r: Result<MessageActionRow>)
      ensures r == Throw(ReferenceError)
    {
      r := Throw(ReferenceError);
    }

    /** `toJSON()`: one entry per child, each the child's own JSON, in order,
        and the type looked up in `MessageComponentTypes`; it throws when a
        child has no `toJSON` (an `undefined` child from `create`, say). */
    function ToJSON(h: Helpers): (r: Result<Value>)
      reads this
      ensures r.Ok? <==> forall i :: 0 <= i < |components| ==> ChildJSON(h, components[i]).Ok?
      ensures r.Ok? ==> r.value.Obj? && r.value.props.Keys == {"components", "type"}
                        && r.value.props["type"] == h.typeTable(componentType)
      ensures r.Ok? ==> r.value.props["components"].Arr?
                        && |r.value.props["components"].elems| == |components|
                        && forall i :: 0 <= i < |components| ==>
                             ChildJSON(h, components[i]) == Ok(r.value.props["components"].elems[i])
    {
      RowJSON(h, componentType, Arr(components))
    }
  }

  /** Two `addComponents` calls that both succeed append what one call on
      all their arguments appends. */
  lemma AddComponentsJoin(h: Helpers, a: seq<Value>, b: seq<Value>)
    requires CreateEach(h, Flat(a)).Ok? && CreateEach(h, Flat(b)).Ok?
    ensures CreateEach(h, Flat(a + b)) == Ok(CreateEach(h, Flat(a)).value + CreateEach(h, Flat(b)).value)
  {
    FlatAppend(a, b);
    var xs, ys := Flat(a), Flat(b);
    var u, v := CreateEach(h, xs).value, CreateEach(h, ys).value;
    forall i | 0 <= i < |xs + ys|
      ensures Create(h, (xs + ys)[i]) == Ok((u + v)[i])
    {
      if i < |xs| {
        assert (xs + ys)[i] == xs[i] && (u + v)[i] == u[i];
      } else {
        assert (xs + ys)[i] == ys[i - |xs|] && (u + v)[i] == v[i - |xs|];
      }
    }
    var w := CreateEach(h, xs + ys);
    assert w.Ok?;
    forall i | 0 <= i < |w.value|
      ensures w.value[i] == (u + v)[i]
    {
      assert Create(h, (xs + ys)[i]) == Ok(w.value[i]);
    }
    assert w.value == u + v;
  }

  /** Arguments that are already flat are appended as they are: flattening
      them again changes nothing. */
  lemma AddComponentsFlattened(h: Helpers, args: seq<Value>)
    ensures CreateEach(h, Flat(Flat(args))) == CreateEach(h, Flat(args))
  {
    FlatIdempotent(args);
  }

  /** Once `create` throws on an entry, mapping it over any longer prefix
      throws the same exception. */
  lemma {:induction false} CreatePrefixStops(h: Helpers, arr: Value, k: nat, n: nat)
    requires arr.Arr? && k <= n <= |arr.elems|
    requires CreatePrefix(h, arr, k).Throw?
    ensures CreatePrefix(h, arr, n).Throw?
    ensures CreatePrefix(h, arr, n).error == CreatePrefix(h, arr, k).error
  {
    if k < n {
      CreatePrefixStops(h, arr, k, n - 1);
    }
  }
}
