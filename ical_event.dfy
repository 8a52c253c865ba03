/** The part of the lestrrat-go/ical library the core relies on: calendar
    entries, properties and their options, and the `Event` component with
    its `AddEntry` and `AddProperty` operations. The library's property set
    and entry list are modelled as sequences. */
module Ical {
  import opened Wrappers
  import opened Text

  /** An `ical.Entry`: one calendar component. `id` stands for the parsed
      component itself, so that equal entries are the same component. */
  datatype Entry = Event(id: nat) | Timezone(id: nat) | Other(kind: string, id: nat)
  {
    /** The component's `Type()` name. */
    function Type(): string
    {
      match this
      case Event(_) => "VEVENT"
      case Timezone(_) => "VTIMEZONE"
      case Other(kind, _) => kind
    }
  }

  /** `ical.Parameters`: parameter name to values. */
  type Parameters = map<string, seq<string>>

  /** The dynamic value an option's `Get()` returns. */
  datatype OptionValue = ParametersValue(params: Parameters) | BoolValue(b: bool) | OtherValue

  /** A `PropertyOption`: its `Name()` and its `Get()`. */
  datatype PropertyOption = PropertyOption(name: string, value: OptionValue)

  /** `AddProperty` asserts the value's type from the option's name; an
      option that fails the assertion makes it panic, so callers must only
      pass options whose value matches their name. */
  predicate WellTyped(o: PropertyOption)
  {
    (o.name == "Parameters" ==> o.value.ParametersValue?) &&
    (o.name == "Force" ==> o.value.BoolValue?)
  }

  predicate AllWellTyped(options: seq<PropertyOption>)
  {
    forall i :: 0 <= i < |options| ==> WellTyped(options[i])
  }

  /** The locals `params` and `force` of `AddProperty`. */
  datatype Settings = Settings(params: Parameters, force: bool)

  const NoSettings: Settings := Settings(map[], false)

  /** One turn of the options loop. */
  function ApplyOption(s: Settings, o: PropertyOption): Settings
    requires WellTyped(o)
  {
    if o.name == "Parameters" then s.(params := o.value.params)
    else if o.name == "Force" then s.(force := o.value.b)
    else s
  }

  /** The settings after the options loop has seen all of `options`. */
  function FoldOptions(options: seq<PropertyOption>): Settings
    requires AllWellTyped(options)
    decreases |options|
  {
    if options == [] then NoSettings
    else ApplyOption(FoldOptions(options[..|options| - 1]), options[|options| - 1])
  }

  /** Index of the last option with the given name, if any. */
  function LastNamed(options: seq<PropertyOption>, name: string): (r: Option<nat>)
    ensures r.Some? ==> r.value < |options| && options[r.value].name == name
    ensures r.Some? ==> forall j :: r.value < j < |options| ==> options[j].name != name
    ensures r.None? <==> forall j :: 0 <= j < |options| ==> options[j].name != name
    decreases |options|
  {
    if options == [] then None
    else if options[|options| - 1].name == name then Some(|options| - 1)
    else LastNamed(options[..|options| - 1], name)
  }

  /** The last "Parameters" option and the last "Force" option decide the
      settings; with none of a kind, its zero value stays. */
  lemma {:induction false} FoldOptionsLastWins(options: seq<PropertyOption>)
    requires AllWellTyped(options)
    ensures FoldOptions(options).params
         == match LastNamed(options, "Parameters")
            case Some(i) => options[i].value.params
            case None => map[]
    ensures FoldOptions(options).force
         == match LastNamed(options, "Force")
            case Some(i) => options[i].value.b
            case None => false
  {
    if options != [] {
      var init := options[..|options| - 1];
      assert forall i :: 0 <= i < |init| ==> init[i] == options[i];
      FoldOptionsLastWins(init);
    }
  }

  /** Options with any other name are ignored, wherever they stand. */
  lemma {:induction false} FoldOptionsIgnoresOthers(a: seq<PropertyOption>, o: PropertyOption,
                                                    b: seq<PropertyOption>)
    requires AllWellTyped(a) && AllWellTyped(b)
    requires o.name != "Parameters" && o.name != "Force"
    ensures AllWellTyped(a + [o] + b) && AllWellTyped(a + b)
    ensures FoldOptions(a + [o] + b) == FoldOptions(a + b)
    decreases |b|
  {
    assert AllWellTyped(a + [o] + b) && AllWellTyped(a + b) by {
      forall i | 0 <= i < |a + [o] + b| ensures WellTyped((a + [o] + b)[i]) {
        if i > |a| { assert (a + [o] + b)[i] == b[i - |a| - 1]; }
      }
      forall i | 0 <= i < |a + b| ensures WellTyped((a + b)[i]) {
        if i >= |a| { assert (a + b)[i] == b[i - |a|]; }
      }
    }
    if b == [] {
      assert a + [o] + b == a + [o];
      assert (a + [o])[..|a + [o]| - 1] == a;
      assert a + b == a;
    } else {
      var init := b[..|b| - 1];
      var last := b[|b| - 1];
      assert AllWellTyped(init) by {
        forall i | 0 <= i < |init| ensures WellTyped(init[i]) { assert init[i] == b[i]; }
      }
      FoldOptionsIgnoresOthers(a, o, init);
      assert (a + [o] + b)[..|a + [o] + b| - 1] == a + [o] + init;
      assert (a + b)[..|a + b| - 1] == a + init;
      assert (a + [o] + b)[|a + [o] + b| - 1] == last;
      assert (a + b)[|a + b| - 1] == last;
    }
  }

  /** A property: lower-cased name, value and parameters. */
  datatype Property = Property(name: string, value: string, params: Parameters)

  /** The properties of a set that carry the given name, in order. */
  function Named(ps: seq<Property>, name: string): (r: seq<Property>)
    ensures forall q :: q in r <==> q in ps && q.name == name
  {
    if ps == [] then []
    else (if ps[0].name == name then [ps[0]] else []) + Named(ps[1..], name)
  }

  /** The properties of a set that carry any other name, in order. */
  function Without(ps: seq<Property>, name: string): (r: seq<Property>)
    ensures forall q :: q in r <==> q in ps && q.name != name
  {
    if ps == [] then []
    else (if ps[0].name != name then [ps[0]] else []) + Without(ps[1..], name)
  }

  lemma {:induction false} NamedAppend(a: seq<Property>, b: seq<Property>, name: string)
    ensures Named(a + b, name) == Named(a, name) + Named(b, name)
  {
    if a == [] {
      assert a + b == b;
    } else {
      assert (a + b)[1..] == a[1..] + b;
      NamedAppend(a[1..], b, name);
    }
  }

  lemma {:induction false} NamedWithout(ps: seq<Property>, drop: string, name: string)
    ensures Named(Without(ps, drop), name) == if name == drop then [] else Named(ps, name)
  {
    if ps != [] {
      var head := if ps[0].name != drop then [ps[0]] else [];
      NamedAppend(head, Without(ps[1..], drop), name);
      NamedWithout(ps[1..], drop, name);
    }
  }

  /** `PropertySet.Set`: the property replaces every entry of its name. */
  function SetProperty(ps: seq<Property>, p: Property): seq<Property>
  {
    Without(ps, p.name) + [p]
  }

  /** `PropertySet.Append`: the property joins the entries of its name. */
  function AppendProperty(ps: seq<Property>, p: Property): seq<Property>
  {
    ps + [p]
  }

  /** After Set, the property is the only entry of its name, and the
      entries of every other name are those before, in the same order. */
  lemma SetPropertyReplaces(ps: seq<Property>, p: Property, name: string)
    ensures Named(SetProperty(ps, p), p.name) == [p]
    ensures name != p.name ==> Named(SetProperty(ps, p), name) == Named(ps, name)
  {
    NamedAppend(Without(ps, p.name), [p], p.name);
    NamedWithout(ps, p.name, p.name);
    NamedAppend(Without(ps, p.name), [p], name);
    NamedWithout(ps, p.name, name);
  }

  /** After Append, the property follows the earlier entries of its name,
      and no other name's entries change. */
  lemma AppendPropertyAdds(ps: seq<Property>, p: Property, name: string)
    ensures Named(AppendProperty(ps, p), p.name) == Named(ps, p.name) + [p]
    ensures name != p.name ==> Named(AppendProperty(ps, p), name) == Named(ps, name)
  {
    NamedAppend(ps, [p], p.name);
    NamedAppend(ps, [p], name);
  }

  /** The VEVENT property names of section 3.6.1 of RFC 5545 that
      `AddProperty` knows. */
  const EventProperties: set<string> :=
    {"class", "created", "description", "dtstamp", "dtstart", "dtend", "duration",
     "geo", "last-modified", "location", "organizer", "priority", "sequence",
     "status", "summary", "transp", "uid", "url", "recurrence-id"}

  datatype Error = InvalidProperty(key: string)

  /** Where a lower-cased key goes: known names are Set, "x-" names and
      forced names are Appended, anything else is refused. */
  function Store(ps: seq<Property>, k: string, value: string, s: Settings): (r: Result<seq<Property>, Error>)
    ensures r.Ok? <==> k in EventProperties || HasPrefix(k, "x-") || s.force
    ensures r.Ok? ==> |r.value| > 0 && r.value[|r.value| - 1] == Property(k, value, s.params)
    ensures r.Ok? && k !in EventProperties ==> r.value[..|r.value| - 1] == ps
    ensures r.Err? ==> r.error == InvalidProperty(k)
  {
    if k in EventProperties then Ok(SetProperty(ps, Property(k, value, s.params)))
    else if HasPrefix(k, "x-") || s.force then Ok(AppendProperty(ps, Property(k, value, s.params)))
    else Err(InvalidProperty(k))
  }

  /** The property set after `AddProperty(key, value, options...)`, or its
      error: the key is lower-cased and stored with the folded options. */
  function AddedProperties(ps: seq<Property>, key: string, value: string,
                           options: seq<PropertyOption>): Result<seq<Property>, Error>
    requires AllWellTyped(options)
  {
    Store(ps, ToLower(key), value, FoldOptions(options))
  }

  /** A known name always succeeds and leaves exactly one entry of that
      name, the new one; other names keep their entries. */
  lemma KnownKeyIsSet(ps: seq<Property>, key: string, value: string,
                      options: seq<PropertyOption>, other: string)
    requires AllWellTyped(options)
    requires ToLower(key) in EventProperties
    ensures AddedProperties(ps, key, value, options).Ok?
    ensures Named(AddedProperties(ps, key, value, options).value, ToLower(key))
         == [Property(ToLower(key), value, FoldOptions(options).params)]
    ensures other != ToLower(key) ==>
              Named(AddedProperties(ps, key, value, options).value, other) == Named(ps, other)
  {
    SetPropertyReplaces(ps, Property(ToLower(key), value, FoldOptions(options).params), other);
  }

  /** Adding the same known name twice leaves one entry of it: the second. */
  lemma KnownKeyTwice(ps: seq<Property>, key: string, v1: string, v2: string)
    requires ToLower(key) in EventProperties
    ensures AddedProperties(ps, key, v1, []).Ok?
    ensures AddedProperties(AddedProperties(ps, key, v1, []).value, key, v2, []).Ok?
    ensures Named(AddedProperties(AddedProperties(ps, key, v1, []).value, key, v2, []).value,
                  ToLower(key))
         == [Property(ToLower(key), v2, map[])]
  {
    var once := AddedProperties(ps, key, v1, []).value;
    KnownKeyIsSet(once, key, v2, [], "");
  }

  /** An unknown name succeeds exactly when it starts with "x-" or the
      options force it; it is then appended at the end, and otherwise the
      error names the lower-cased key. */
  lemma UnknownKey(ps: seq<Property>, key: string, value: string, options: seq<PropertyOption>)
    requires AllWellTyped(options)
    requires ToLower(key) !in EventProperties
    ensures AddedProperties(ps, key, value, options).Ok?
        <==> HasPrefix(ToLower(key), "x-") || FoldOptions(options).force
    ensures AddedProperties(ps, key, value, options).Ok? ==>
              AddedProperties(ps, key, value, options).value
              == ps + [Property(ToLower(key), value, FoldOptions(options).params)]
    ensures AddedProperties(ps, key, value, options).Err? ==>
              AddedProperties(ps, key, value, options).error == InvalidProperty(ToLower(key))
  {
  }

  /** Keys that differ only in the case of their letters are handled
      identically, and what is stored is always a lower-case name. */
  lemma {:induction false} CaseInsensitive(ps: seq<Property>, k1: string, k2: string, value: string,
                                           options: seq<PropertyOption>)
    requires AllWellTyped(options)
    requires ToLower(k1) == ToLower(k2)
    ensures AddedProperties(ps, k1, value, options) == AddedProperties(ps, k2, value, options)
    ensures AddedProperties(ps, k1, value, options)
         == AddedProperties(ps, ToLower(k1), value, options)
  {
    var k := ToLower(k1);
    ToLowerIdempotent(k1);
    assert AddedProperties(ps, k, value, options) == Store(ps, ToLower(k), value, FoldOptions(options));
  }

  /** Whatever is stored goes to the end of the set under the lower-cased
      key, with the folded parameters. */
  lemma StoredLowerCased(ps: seq<Property>, key: string, value: string, options: seq<PropertyOption>)
    requires AllWellTyped(options)
    requires AddedProperties(ps, key, value, options).Ok?
    ensures var r := AddedProperties(ps, key, value, options).value;
            |r| > 0 && r[|r| - 1] == Property(ToLower(key), value, FoldOptions(options).params)
    ensures IsLower(ToLower(key))
  {
  }

  /** "SUMMARY" and "summary" are the same property. */
  lemma SummaryExample(ps: seq<Property>, value: string)
    ensures AddedProperties(ps, "SUMMARY", value, []) == AddedProperties(ps, "summary", value, [])
    ensures AddedProperties(ps, "SUMMARY", value, []).Ok?
  {
    var t := ToLower("SUMMARY");
    assert t == "summary" by {
      assert forall i :: 0 <= i < |t| ==> t[i] == LowerChar("SUMMARY"[i]);
    }
    ToLowerOfLower("summary");
    CaseInsensitive(ps, "SUMMARY", "summary", value, []);
    assert "summary" in EventProperties;
  }


  /** `ical.PropertySet`, as the sequence of its properties. */
  class PropertySet {
    var items: seq<Property>

    constructor ()
      ensures items == []
    {
      items := [];
    }

    method Set(p: Property)
      modifies this
      ensures items == SetProperty(old(items), p)
    {
      items := SetProperty(items, p);
    }

    method Append(p: Property)
      modifies this
      ensures items == AppendProperty(old(items), p)
    {
      items := AppendProperty(items, p);
    }
  }

  /** `ical.Event` as an object: its sub-entries and its property set.
      Inside a calendar's entry list the same event is the value
      `Entry.Event(id)`, with `id` standing for this object. */
  class Event {
    var entries: seq<Entry>
    const props: PropertySet

    /** `NewEvent`. */
    constructor ()
      ensures entries == [] && props.items == [] && fresh(props)
    {
      entries := [];
      props := new PropertySet();
    }

    /** `Type()`: every event is a VEVENT, and so is every entry that stands
        for an event, whatever its id. */
    function Type(): (t: string)
      ensures forall id: nat :: t == Entry.Event(id).Type()
    {
      "VEVENT"
    }

    /** `AddEntry` never fails, appends the entry, and touches nothing else. */
    method AddEntry(e: Entry) returns (err: Option<Error>)
      modifies this
      ensures err.None?
      ensures entries == old(entries) + [e]
    {
      entries := entries + [e];
      err := None;
    }

    /** `AddProperty`: folds the options into `params` and `force`, then
        stores or refuses the lower-cased key as `AddedProperties` says; on
        an error the property set is unchanged. */
    method AddProperty(key: string, value: string, options: seq<PropertyOption>)
      returns (err: Option<Error>)
      requires AllWellTyped(options)
      modifies props
      ensures AddedProperties(old(props.items), key, value, options).Ok? ==>
                err.None? && props.items == AddedProperties(old(props.items), key, value, options).value
      ensures AddedProperties(old(props.items), key, value, options).Err? ==>
                err == Some(AddedProperties(old(props.items), key, value, options).error) &&
                props.items == old(props.items)
    {
      var params: Parameters := map[];
      var force := false;
      for i := 0 to |options|
        invariant AllWellTyped(options[..i])
        invariant Settings(params, force) == FoldOptions(options[..i])
      {
        assert options[..i + 1][..i] == options[..i];
        var option := options[i];
        if option.name == "Parameters" {
          params := option.value.params;
        } else if option.name == "Force" {
          force := option.value.b;
        }
      }
      assert options[..|options|] == options;
      var k := ToLower(key);
      if k in EventProperties {
        props.Set(Property(k, value, params));
        err := None;
      } else if HasPrefix(k, "x-") || force {
        props.Append(Property(k, value, params));
        err := None;
      } else {
        err := Some(InvalidProperty(k));
      }
    }
  }
}
