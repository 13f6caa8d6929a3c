/**
 * The tool-schema sanitiser of src/Concerns/SanitizesToolSchemas.php.  The
 * upstream API rejects an array schema without `items`; the sanitiser walks
 * each tool's `parameters.properties` and gives every bare array schema the
 * default `items: {type: string}`, recursing into existing `items` of array
 * schemas and into `properties` of object schemas.
 *
 * The source declares its parameters as PHP arrays under strict types, so a
 * non-array where an array is required raises a type error; that is `None`.
 */
module SchemaSanitizer {
  import opened Wrappers
  import opened PhpArray

  const ItemsKey := StrKey("items")
  const PropertiesKey := StrKey("properties")
  const ParametersKey := StrKey("parameters")

  /** `['type' => 'string']`, the items schema given to bare arrays. */
  const DefaultItems: Entries := [(StrKey("type"), Str("string"))]

  /** `($prop['type'] ?? '') === t`. */
  predicate HasType(prop: Entries, t: string) {
    Coalesce(Lookup(prop, StrKey("type")), Str("")) == Str(t)
  }

  /** `sanitizeProperty`.  When a bare array schema receives the default items,
      the source goes on to sanitise those items, which changes nothing
      (`DefaultItemsFixed`, `BareArrayAsWritten`); the definition stops there. */
  function SanitizeProperty(prop: Entries): (r: Option<Entries>)
    decreases EntriesSize(prop), 0
    ensures r.Some? ==> Keys(prop) <= Keys(r.value) <= Keys(prop) + {ItemsKey}
    ensures r.Some? ==> forall k :: k != ItemsKey && k != PropertiesKey ==> Lookup(r.value, k) == Lookup(prop, k)
    ensures (r.Some? && HasType(prop, "array") && !IsSet(Arr(prop), ItemsKey))
              ==> Lookup(r.value, ItemsKey) == Some(Arr(DefaultItems))
    ensures (r.Some? && IsSet(Arr(prop), ItemsKey) && !Lookup(prop, ItemsKey).value.Arr?)
              ==> Lookup(r.value, ItemsKey) == Lookup(prop, ItemsKey)
    ensures (r.Some? && !HasType(prop, "object")) ==> Lookup(r.value, PropertiesKey) == Lookup(prop, PropertiesKey)
    ensures (r.Some? && !HasType(prop, "array")) ==> Lookup(r.value, ItemsKey) == Lookup(prop, ItemsKey)
    ensures !HasType(prop, "array") && !HasType(prop, "object") ==> r == Some(prop)
    ensures r.None? ==> HasType(prop, "array") || HasType(prop, "object")
  {
    if HasType(prop, "array") then
      if !IsSet(Arr(prop), ItemsKey) then
        KeysSet(prop, ItemsKey, Arr(DefaultItems));
        LookupSetAll(prop, ItemsKey, Arr(DefaultItems));
        Some(Set(prop, ItemsKey, Arr(DefaultItems)))
      else
        var items := Lookup(prop, ItemsKey).value;
        if items.Arr? then
          LookupSmaller(prop, ItemsKey);
          var s := SanitizeProperty(items.entries);
          if s.None? then None
          else
            KeysSet(prop, ItemsKey, Arr(s.value));
            LookupSetAll(prop, ItemsKey, Arr(s.value));
            Some(Set(prop, ItemsKey, Arr(s.value)))
        else Some(prop)
    else if HasType(prop, "object") && IsSet(Arr(prop), PropertiesKey) then
      var props := Lookup(prop, PropertiesKey).value;
      if props.Arr? then
        LookupSmaller(prop, PropertiesKey);
        var s := SanitizeProperties(props.entries);
        if s.None? then None
        else
          KeysSet(prop, PropertiesKey, Arr(s.value));
          LookupSetAll(prop, PropertiesKey, Arr(s.value));
          Some(Set(prop, PropertiesKey, Arr(s.value)))
      else None
    else Some(prop)
  }

  /** `sanitizeProperties`: every array-valued property is sanitised, every
      other value is left as it is; names and order are kept. */
  function SanitizeProperties(props: Entries): (r: Option<Entries>)
    decreases EntriesSize(props), 1
    ensures r.Some? ==> Aligned(props, r.value)
  {
    if props == [] then Some([])
    else
      EntriesSizeCons(props);
      var head := props[0];
      var rest := SanitizeProperties(props[1..]);
      if rest.None? then None
      else if head.1.Arr? then
        var s := SanitizeProperty(head.1.entries);
        if s.None? then None
        else
          AlignedCons(props, (head.0, Arr(s.value)), rest.value);
          Some([(head.0, Arr(s.value))] + rest.value)
      else
        AlignedCons(props, head, rest.value);
        Some([head] + rest.value)
  }

  /** `out` has the names and order of `props`, keeps every value that is not
      an array, and has an array wherever `props` has one. */
  predicate Aligned(props: Entries, out: Entries) {
    && |out| == |props|
    && (forall i :: 0 <= i < |props| ==> out[i].0 == props[i].0)
    && (forall i :: 0 <= i < |props| && !props[i].1.Arr? ==> out[i] == props[i])
    && (forall i :: 0 <= i < |props| && props[i].1.Arr? ==> out[i].1.Arr?)
  }

  lemma AlignedCons(props: Entries, first: (Key, Value), rest: Entries)
    requires props != [] && Aligned(props[1..], rest)
    requires first.0 == props[0].0 && (!props[0].1.Arr? ==> first == props[0]) && (props[0].1.Arr? ==> first.1.Arr?)
    ensures Aligned(props, [first] + rest)
  {
    var out := [first] + rest;
    forall i | 1 <= i < |props| ensures out[i] == rest[i - 1] && props[i] == props[1..][i - 1] {}
  }

  /** Each array-valued property becomes exactly its sanitised form. */
  lemma {:induction false} SanitizePropertiesPointwise(props: Entries, i: nat)
    requires SanitizeProperties(props).Some? && i < |props| && props[i].1.Arr?
    ensures SanitizeProperty(props[i].1.entries) == Some(SanitizeProperties(props).value[i].1.entries)
  {
    var rest := SanitizeProperties(props[1..]);
    assert rest.Some?;
    if i > 0 {
      assert props[1..][i - 1] == props[i];
      SanitizePropertiesPointwise(props[1..], i - 1);
      assert SanitizeProperties(props).value[i] == rest.value[i - 1];
    }
  }

  /** The properties fail exactly when one array-valued property does. */
  lemma {:induction false} SanitizePropertiesFails(props: Entries)
    ensures SanitizeProperties(props).None? <==> exists i :: 0 <= i < |props| && props[i].1.Arr? && SanitizeProperty(props[i].1.entries).None?
  {
    if props != [] {
      SanitizePropertiesFails(props[1..]);
      if SanitizeProperties(props[1..]).None? {
        var j :| 0 <= j < |props[1..]| && props[1..][j].1.Arr? && SanitizeProperty(props[1..][j].1.entries).None?;
        assert props[j + 1] == props[1..][j];
      }
      if exists i :: 0 <= i < |props| && props[i].1.Arr? && SanitizeProperty(props[i].1.entries).None? {
        var i :| 0 <= i < |props| && props[i].1.Arr? && SanitizeProperty(props[i].1.entries).None?;
        if i > 0 {
          assert props[1..][i - 1] == props[i];
        }
      }
    }
  }

  /** The `foreach ($properties as $name => &$prop)` loop, rewriting the
      array-valued entries in place. */
  method SanitizePropertiesInPlace(props: Entries) returns (r: Option<Entries>)
    ensures r == SanitizeProperties(props)
  {
    ghost var total := SanitizeProperties(props);
    var out := props;
    var i := 0;
    while i < |props|
      invariant 0 <= i <= |props| && |out| == |props|
      invariant out[i..] == props[i..]
      invariant total == Prepend(out[..i], SanitizeProperties(props[i..]))
    {
      UnfoldAt(props, i);
      ghost var rest := SanitizeProperties(props[i + 1..]);
      var entry := props[i];
      if entry.1.Arr? {
        var s := SanitizeProperty(entry.1.entries);
        if s.None? {
          return None;
        }
        entry := (entry.0, Arr(s.value));
      }
      LoopStep(props, out, i, entry, total, SanitizeProperties(props[i..]), rest);
      out := out[i := entry];
      i := i + 1;
    }
    assert props[i..] == [];
    assert out[..i] + [] == out;
    r := Some(out);
  }

  /** One step of the loop: the entry at `i` followed by the rest. */
  lemma UnfoldAt(props: Entries, i: nat)
    requires i < |props|
    ensures !props[i].1.Arr? ==> SanitizeProperties(props[i..]) == Prepend([props[i]], SanitizeProperties(props[i + 1..]))
    ensures props[i].1.Arr? && SanitizeProperty(props[i].1.entries).None? ==> SanitizeProperties(props[i..]).None?
    ensures (props[i].1.Arr? && SanitizeProperty(props[i].1.entries).Some?)
              ==> SanitizeProperties(props[i..])
                  == Prepend([(props[i].0, Arr(SanitizeProperty(props[i].1.entries).value))], SanitizeProperties(props[i + 1..]))
  {
    assert props[i..][0] == props[i];
    assert props[i..][1..] == props[i + 1..];
  }

  /** The loop invariant survives writing the sanitised entry at `i`. */
  lemma LoopStep(props: Entries, out: Entries, i: nat, entry: (Key, Value), total: Option<Entries>,
                 here: Option<Entries>, rest: Option<Entries>)
    requires i < |props| == |out| && out[i..] == props[i..]
    requires total == Prepend(out[..i], here) && here == Prepend([entry], rest)
    ensures out[i := entry][i + 1..] == props[i + 1..]
    ensures total == Prepend(out[i := entry][..i + 1], rest)
  {
    PrependAssoc(out[..i], [entry], rest);
    assert out[..i] + [entry] == out[i := entry][..i + 1];
    assert out[i := entry][i + 1..] == out[i + 1..];
    assert out[i + 1..] == out[i..][1..];
    assert props[i + 1..] == props[i..][1..];
  }

  lemma PrependAssoc(p: Entries, e: Entries, x: Option<Entries>)
    ensures Prepend(p, Prepend(e, x)) == Prepend(p + e, x)
  {
    if x.Some? {
      assert p + (e + x.value) == (p + e) + x.value;
    }
  }

  /** `p + x` where `x` may have failed. */
  function Prepend(p: Entries, x: Option<Entries>): (r: Option<Entries>)
    ensures r.Some? <==> x.Some?
    ensures r.Some? ==> |r.value| == |p| + |x.value| && r.value[..|p|] == p && r.value[|p|..] == x.value
  {
    if x.None? then None else Some(p + x.value)
  }

  /** One tool of `sanitizeTools`: the callback takes an array, and sanitises
      `parameters.properties` when that is set. */
  function SanitizeTool(tool: Value): (r: Option<Value>)
    ensures r.Some? ==> r.value.Arr? && tool.Arr?
    ensures tool.Arr? && !IsSet(Coalesce(Get(tool, ParametersKey), Null), PropertiesKey) ==> r == Some(tool)
    ensures r.Some? ==> Keys(r.value.entries) == Keys(tool.entries)
  {
    if !tool.Arr? then None
    else
      var params := Coalesce(Get(tool, ParametersKey), Null);
      if !IsSet(params, PropertiesKey) then Some(tool)
      else
        var props := Get(params, PropertiesKey).value;
        if !props.Arr? then None
        else
          var s := SanitizeProperties(props.entries);
          if s.None? then None
          else
            KeysSet(tool.entries, ParametersKey, Arr(Set(params.entries, PropertiesKey, Arr(s.value))));
            Some(Arr(Set(tool.entries, ParametersKey, Arr(Set(params.entries, PropertiesKey, Arr(s.value))))))
  }

  /** `sanitizeTools`: the tools in order, each sanitised; any failure raises. */
  function SanitizeTools(tools: seq<Value>): (r: Option<seq<Value>>)
    ensures r.Some? ==> |r.value| == |tools|
    ensures r.Some? ==> forall i :: 0 <= i < |tools| ==> SanitizeTool(tools[i]) == Some(r.value[i])
    ensures r.None? ==> exists i :: 0 <= i < |tools| && SanitizeTool(tools[i]).None?
  {
    if tools == [] then Some([])
    else
      var head := SanitizeTool(tools[0]);
      var rest := SanitizeTools(tools[1..]);
      if head.None? then None
      else if rest.None? then
        var j :| 0 <= j < |tools[1..]| && SanitizeTool(tools[1..][j]).None?;
        assert tools[j + 1] == tools[1..][j];
        None
      else
        var r := [head.value] + rest.value;
        assert forall i :: 1 <= i < |tools| ==> tools[i] == tools[1..][i - 1] && r[i] == rest.value[i - 1];
        Some(r)
  }

  // ---------------------------------------------------------------------
  // The default items, as written

  /** The default items need nothing more. */
  lemma DefaultItemsFixed()
    ensures SanitizeProperty(DefaultItems) == Some(DefaultItems)
  {
    assert Lookup(DefaultItems, StrKey("type")) == Some(Str("string"));
  }

  /** The source assigns the default items and then sanitises them in place;
      that two-step result is the one `SanitizeProperty` gives. */
  lemma BareArrayAsWritten(prop: Entries)
    requires HasType(prop, "array") && !IsSet(Arr(prop), ItemsKey)
    ensures var step1 := Set(prop, ItemsKey, Arr(DefaultItems));
            SanitizeProperty(DefaultItems).Some?
            && SanitizeProperty(prop) == Some(Set(step1, ItemsKey, Arr(SanitizeProperty(DefaultItems).value)))
  {
    DefaultItemsFixed();
    SetTwice(prop, ItemsKey, Arr(DefaultItems), Arr(DefaultItems));
  }

  /** Existing array items are sanitised in place, never replaced by the default. */
  lemma ItemsSanitised(prop: Entries)
    requires SanitizeProperty(prop).Some? && HasType(prop, "array") && IsSet(Arr(prop), ItemsKey)
    requires Lookup(prop, ItemsKey).value.Arr?
    ensures SanitizeProperty(Lookup(prop, ItemsKey).value.entries).Some?
    ensures Lookup(SanitizeProperty(prop).value, ItemsKey)
            == Some(Arr(SanitizeProperty(Lookup(prop, ItemsKey).value.entries).value))
  {
    var s := SanitizeProperty(Lookup(prop, ItemsKey).value.entries);
    assert s.Some? && SanitizeProperty(prop) == Some(Set(prop, ItemsKey, Arr(s.value)));
    LookupSet(prop, ItemsKey, Arr(s.value), ItemsKey);
  }

  /** The sub-properties of an object schema are sanitised. */
  lemma ObjectPropertiesSanitised(prop: Entries)
    requires HasType(prop, "object") && IsSet(Arr(prop), PropertiesKey)
    ensures SanitizeProperty(prop).Some?
            <==> Lookup(prop, PropertiesKey).value.Arr? && SanitizeProperties(Lookup(prop, PropertiesKey).value.entries).Some?
    ensures SanitizeProperty(prop).Some? ==> Lookup(SanitizeProperty(prop).value, PropertiesKey)
                                             == Some(Arr(SanitizeProperties(Lookup(prop, PropertiesKey).value.entries).value))
  {
    assert !HasType(prop, "array");
    var props := Lookup(prop, PropertiesKey).value;
    if props.Arr? && SanitizeProperties(props.entries).Some? {
      var s := SanitizeProperties(props.entries).value;
      assert SanitizeProperty(prop) == Some(Set(prop, PropertiesKey, Arr(s)));
      LookupSet(prop, PropertiesKey, Arr(s), PropertiesKey);
    }
  }

  // ---------------------------------------------------------------------
  // Only adds

  /** `b` is `a` with schema entries only added: every entry of `a` keeps its
      place and key, nested arrays extend recursively, a null may become the
      default items, and the only new entries are default items. */
  predicate Extends(a: Value, b: Value)
    decreases a
  {
    match a
    case Null => b == Null || b == Arr(DefaultItems)
    case Arr(ea) =>
      b.Arr? && |ea| <= |b.entries|
      && (forall i :: 0 <= i < |ea| ==> b.entries[i].0 == ea[i].0 && Extends(ea[i].1, b.entries[i].1))
      && (forall j :: |ea| <= j < |b.entries| ==> b.entries[j] == (ItemsKey, Arr(DefaultItems)))
    case _ => b == a
  }

  lemma {:induction false} ExtendsRefl(a: Value)
    ensures Extends(a, a)
    decreases a
  {
    if a.Arr? {
      forall i | 0 <= i < |a.entries| ensures Extends(a.entries[i].1, a.entries[i].1) {
        ExtendsRefl(a.entries[i].1);
      }
    }
  }

  /** Replacing one entry by an extension of it extends the array. */
  lemma {:induction false} ExtendsSet(e: Entries, k: Key, v: Value)
    requires Lookup(e, k).Some? && Extends(Lookup(e, k).value, v)
    ensures Extends(Arr(e), Arr(Set(e, k, v)))
  {
    var r := Set(e, k, v);
    if e[0].0 == k {
      forall i | 1 <= i < |e| ensures Extends(e[i].1, r[i].1) {
        ExtendsRefl(e[i].1);
      }
    } else {
      ExtendsSet(e[1..], k, v);
      var r' := Set(e[1..], k, v);
      assert r == [e[0]] + r';
      ExtendsRefl(e[0].1);
      forall i | 1 <= i < |e| ensures r[i].0 == e[i].0 && Extends(e[i].1, r[i].1) {
        assert r[i] == r'[i - 1] && e[i] == e[1..][i - 1];
      }
    }
  }

  /** Appending the default items extends the array. */
  lemma ExtendsAppendItems(e: Entries)
    requires ItemsKey !in Keys(e)
    ensures Extends(Arr(e), Arr(Set(e, ItemsKey, Arr(DefaultItems))))
  {
    SetFresh(e, ItemsKey, Arr(DefaultItems));
    ExtendsRefl(Arr(e));
  }

  /** The sanitiser only adds: its result extends its input. */
  lemma {:induction false} PropertyExtends(prop: Entries)
    requires SanitizeProperty(prop).Some?
    ensures Extends(Arr(prop), Arr(SanitizeProperty(prop).value))
    decreases EntriesSize(prop), 0
  {
    if HasType(prop, "array") {
      if !IsSet(Arr(prop), ItemsKey) {
        if ItemsKey in Keys(prop) {
          ExtendsSet(prop, ItemsKey, Arr(DefaultItems));
        } else {
          ExtendsAppendItems(prop);
        }
      } else {
        var items := Lookup(prop, ItemsKey).value;
        if items.Arr? {
          LookupSmaller(prop, ItemsKey);
          PropertyExtends(items.entries);
          ExtendsSet(prop, ItemsKey, Arr(SanitizeProperty(items.entries).value));
        } else {
          ExtendsRefl(Arr(prop));
        }
      }
    } else if HasType(prop, "object") && IsSet(Arr(prop), PropertiesKey) {
      var props := Lookup(prop, PropertiesKey).value;
      LookupSmaller(prop, PropertiesKey);
      PropertiesExtend(props.entries);
      ExtendsSet(prop, PropertiesKey, Arr(SanitizeProperties(props.entries).value));
    } else {
      ExtendsRefl(Arr(prop));
    }
  }

  lemma {:induction false} PropertiesExtend(props: Entries)
    requires SanitizeProperties(props).Some?
    ensures Extends(Arr(props), Arr(SanitizeProperties(props).value))
    decreases EntriesSize(props), 1
  {
    if props != [] {
      EntriesSizeCons(props);
      var q := SanitizeProperties(props).value;
      var rest := SanitizeProperties(props[1..]).value;
      PropertiesExtend(props[1..]);
      assert q[1..] == rest;
      if props[0].1.Arr? {
        PropertyExtends(props[0].1.entries);
      } else {
        ExtendsRefl(props[0].1);
      }
      forall i | 1 <= i < |props| ensures q[i].0 == props[i].0 && Extends(props[i].1, q[i].1) {
        assert q[i] == rest[i - 1] && props[i] == props[1..][i - 1];
      }
    }
  }

  /** Sanitising a tool only adds to it. */
  lemma ToolExtends(tool: Value)
    requires SanitizeTool(tool).Some?
    ensures Extends(tool, SanitizeTool(tool).value)
  {
    var params := Coalesce(Get(tool, ParametersKey), Null);
    if IsSet(params, PropertiesKey) {
      var props := Get(params, PropertiesKey).value;
      var s := SanitizeProperties(props.entries).value;
      PropertiesExtend(props.entries);
      ExtendsSet(params.entries, PropertiesKey, Arr(s));
      ExtendsSet(tool.entries, ParametersKey, Arr(Set(params.entries, PropertiesKey, Arr(s))));
    } else {
      ExtendsRefl(tool);
    }
  }

  // ---------------------------------------------------------------------
  // Idempotence

  lemma {:induction false} PropertyIdempotent(prop: Entries)
    requires SanitizeProperty(prop).Some?
    ensures SanitizeProperty(SanitizeProperty(prop).value) == SanitizeProperty(prop)
    decreases EntriesSize(prop), 0
  {
    var q := SanitizeProperty(prop).value;
    if HasType(prop, "array") {
      assert Lookup(q, StrKey("type")) == Lookup(prop, StrKey("type"));
      if !IsSet(Arr(prop), ItemsKey) {
        DefaultItemsFixed();
        SetExisting(q, ItemsKey, Arr(DefaultItems));
      } else {
        var items := Lookup(prop, ItemsKey).value;
        if items.Arr? {
          LookupSmaller(prop, ItemsKey);
          PropertyIdempotent(items.entries);
          var s := SanitizeProperty(items.entries).value;
          LookupSet(prop, ItemsKey, Arr(s), ItemsKey);
          SetExisting(q, ItemsKey, Arr(s));
        }
      }
    } else if HasType(prop, "object") && IsSet(Arr(prop), PropertiesKey) {
      assert Lookup(q, StrKey("type")) == Lookup(prop, StrKey("type"));
      var props := Lookup(prop, PropertiesKey).value;
      LookupSmaller(prop, PropertiesKey);
      PropertiesIdempotent(props.entries);
      var s := SanitizeProperties(props.entries).value;
      LookupSet(prop, PropertiesKey, Arr(s), PropertiesKey);
      SetExisting(q, PropertiesKey, Arr(s));
    }
  }

  lemma {:induction false} PropertiesIdempotent(props: Entries)
    requires SanitizeProperties(props).Some?
    ensures SanitizeProperties(SanitizeProperties(props).value) == SanitizeProperties(props)
    decreases EntriesSize(props), 1
  {
    if props != [] {
      EntriesSizeCons(props);
      var q := SanitizeProperties(props).value;
      var rest := SanitizeProperties(props[1..]).value;
      PropertiesIdempotent(props[1..]);
      assert q[1..] == rest;
      if props[0].1.Arr? {
        PropertyIdempotent(props[0].1.entries);
      }
    }
  }

  /** Sanitising the tools twice gives the same tools as sanitising them once. */
  lemma {:induction false} ToolsIdempotent(tools: seq<Value>)
    requires SanitizeTools(tools).Some?
    ensures SanitizeTools(SanitizeTools(tools).value) == SanitizeTools(tools)
  {
    var q := SanitizeTools(tools).value;
    forall i | 0 <= i < |tools| ensures SanitizeTool(q[i]) == Some(q[i]) {
      ToolIdempotent(tools[i]);
    }
    ToolsFixed(q);
  }

  lemma ToolIdempotent(tool: Value)
    requires SanitizeTool(tool).Some?
    ensures SanitizeTool(SanitizeTool(tool).value) == SanitizeTool(tool)
  {
    var params := Coalesce(Get(tool, ParametersKey), Null);
    if IsSet(params, PropertiesKey) {
      var props := Get(params, PropertiesKey).value;
      var s := SanitizeProperties(props.entries).value;
      PropertiesIdempotent(props.entries);
      var params' := Arr(Set(params.entries, PropertiesKey, Arr(s)));
      LookupSet(params.entries, PropertiesKey, Arr(s), PropertiesKey);
      LookupSet(tool.entries, ParametersKey, params', ParametersKey);
      var q := SanitizeTool(tool).value;
      SetExisting(params'.entries, PropertiesKey, Arr(s));
      SetExisting(q.entries, ParametersKey, params');
    }
  }

  lemma {:induction false} ToolsFixed(tools: seq<Value>)
    requires forall i :: 0 <= i < |tools| ==> SanitizeTool(tools[i]) == Some(tools[i])
    ensures SanitizeTools(tools) == Some(tools)
  {
    if tools != [] {
      assert forall i :: 0 <= i < |tools[1..]| ==> tools[1..][i] == tools[i + 1];
      ToolsFixed(tools[1..]);
      assert tools == [tools[0]] + tools[1..];
    }
  }
}
