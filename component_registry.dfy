/** The class-level side of lib/component/00_component.js: every component
    class keeps a registry of named input and output anchors, a category
    list and a description, and projects them into the descriptors the
    client-side flow editor uses. */
module ComponentRegistry {

  import opened Js
  import opened Lists
  import opened Decks

  /** A handler function, known by its `name` property; its body runs outside
      this model. */
  datatype Handler = Handler(name: string)

  /** An anchor options object as far as the registry reads it. */
  datatype Options = Options(name: Option<string>, title: Option<string>, anchorType: Option<string>)

  /** What `setInput` stores: the options object with `fnc` set. */
  datatype InputSpec = InputSpec(name: Option<string>, title: Option<string>, anchorType: Option<string>, fnc: Handler)

  /** The two ways to call `setInput`: `setInput(name, fnc, options)` and
      `setInput(fnc, options)`. */
  datatype InputCall =
    | WithName(name: string, fnc: Handler, options: Option<Options>)
    | WithHandler(fnc: Handler, options: Option<Options>)

  /** The two ways to call `setOutput`: `setOutput(name, options)` and
      `setOutput(options)`. A missing name argument is `None`. */
  datatype OutputCall =
    | OutputNamed(name: Option<string>, options: Option<Options>)
    | OutputObject(object: Options)

  /** The `{name, title, type}` triple a descriptor lists per anchor. */
  datatype AnchorInfo = AnchorInfo(name: Option<string>, title: Option<string>, anchorType: Option<string>)

  /** `getClientConfig()`'s result; `schema` is not part of this model. */
  datatype ClientConfig = ClientConfig(
    name: string,
    typeName: string,
    categories: Option<seq<string>>,
    title: string,
    description: Option<string>,
    inputs: seq<AnchorInfo>,
    outputs: seq<AnchorInfo>,
    parent: Option<string>)

  datatype Button = Button(name: string, title: string, call: string)

  /** One entry of `getAll()`; `schema` is not part of this model. */
  datatype Listing = Listing(
    name: string,
    title: Option<string>,
    description: string,
    outputs: seq<AnchorInfo>,
    inputs: seq<AnchorInfo>,
    fieldCount: nat,
    buttons: seq<Button>)

  const ConfigButton := Button("config", "Config", "Blast.Classes.Alchemy.Scenario.FlowHelper.configureNode")

  const OutputNameError := "Each component output requires a valid name"

  /** The TypeError a descriptor projection raises on an output registered
      without options (reading `name` of `undefined`). */
  const UndefinedOutputError := "Cannot read properties of undefined (reading 'name')"

  /** The name argument before `options` is consulted. */
  function GivenName(call: InputCall): string {
    match call
    case WithName(name, _, _) => name
    case WithHandler(fnc, _) => fnc.name
  }

  /** `setInput`'s argument handling: the key under which the input is
      registered and the spec stored there. */
  function ResolveInput(call: InputCall): (r: (string, InputSpec))
    ensures r.1.fnc == call.fnc
    ensures call.options.None? ==> r == (GivenName(call), InputSpec(None, None, None, call.fnc))
    ensures call.options.Some? ==>
              && r.1.name == Some(r.0)
              && r.1.title == call.options.value.title
              && r.1.anchorType == call.options.value.anchorType
    ensures call.options.Some? && Named(call.options.value.name) ==> r.0 == call.options.value.name.value
    ensures call.options.Some? && !Named(call.options.value.name) ==> r.0 == GivenName(call)
  {
    var name := GivenName(call);
    match call.options
    case None => (name, InputSpec(None, None, None, call.fnc))
    case Some(o) =>
      var key := if Named(o.name) then o.name.value else name;
      (key, InputSpec(Some(key), o.title, o.anchorType, call.fnc))
  }

  /** The name `setOutput` resolves: the argument, or `options.name` when the
      first argument is an object. */
  function OutputName(call: OutputCall): Option<string> {
    match call
    case OutputNamed(name, _) => name
    case OutputObject(o) => o.name
  }

  /** The options `setOutput` stores. */
  function OutputOptions(call: OutputCall): Option<Options> {
    match call
    case OutputNamed(_, options) => options
    case OutputObject(o) => Some(o)
  }

  function InputInfo(s: InputSpec): AnchorInfo {
    AnchorInfo(s.name, s.title, s.anchorType)
  }

  function OutputInfo(o: Options): AnchorInfo {
    AnchorInfo(o.name, o.title, o.anchorType)
  }

  /** Some output was registered without options. */
  predicate HasBareOutput(outputs: seq<Option<Options>>) {
    exists i :: 0 <= i < |outputs| && outputs[i].None?
  }

  /** String concatenation's view of an optional title. */
  function TitleText(title: Option<string>): string {
    if title.Some? then title.value else "undefined"
  }

  /** The `{name, title, type}` of each input, in registry order. */
  method ProjectInputs(specs: seq<InputSpec>) returns (r: seq<AnchorInfo>)
    ensures |r| == |specs|
    ensures forall i :: 0 <= i < |r| ==> r[i] == InputInfo(specs[i])
  {
    r := [];
    for i := 0 to |specs|
      invariant |r| == i
      invariant forall k :: 0 <= k < i ==> r[k] == InputInfo(specs[k])
    {
      r := r + [InputInfo(specs[i])];
    }
  }

  /** The `{name, title, type}` of each output, in registry order; fails as
      soon as an output has no options object. */
  method ProjectOutputs(outputs: seq<Option<Options>>) returns (r: Result<seq<AnchorInfo>>)
    ensures r.Err? <==> HasBareOutput(outputs)
    ensures r.Err? ==> r.message == UndefinedOutputError
    ensures r.Ok? ==> |r.value| == |outputs| &&
                      forall i :: 0 <= i < |outputs| ==> outputs[i].Some? && r.value[i] == OutputInfo(outputs[i].value)
  {
    var acc := [];
    for i := 0 to |outputs|
      invariant |acc| == i
      invariant forall k :: 0 <= k < i ==> outputs[k].Some? && acc[k] == OutputInfo(outputs[k].value)
    {
      if outputs[i].None? {
        return Err(UndefinedOutputError);
      }
      acc := acc + [OutputInfo(outputs[i].value)];
    }
    return Ok(acc);
  }

  /** A component class together with the static state `prepareIo` and the
      static setters give it. */
  class ComponentClass {
    const name: string
    const typeName: string
    /** `this.super.name` */
    const superName: string
    const title: Option<string>
    /** `this.schema.field_count` */
    const fieldCount: nat
    var inputs: Deck<InputSpec>
    var outputs: Deck<Option<Options>>
    var categories: Option<seq<string>>
    var description: Option<string>

    ghost predicate Valid()
      reads this
    {
      && inputs.Valid()
      && outputs.Valid()
      && (categories.Some? ==> NoDuplicates(categories.value))
    }

    /** Some registered output has no options object. */
    predicate HasBareOutputs()
      reads this
      requires Valid()
    {
      HasBareOutput(Values(outputs))
    }

    /** The class as `prepareIo` leaves it: empty input and output decks. */
    constructor (name: string, typeName: string, superName: string, title: Option<string>, fieldCount: nat)
      ensures Valid()
      ensures this.name == name && this.typeName == typeName && this.superName == superName
      ensures this.title == title && this.fieldCount == fieldCount
      ensures inputs == Empty() && outputs == Empty()
      ensures categories.None? && description.None?
    {
      this.name := name;
      this.typeName := typeName;
      this.superName := superName;
      this.title := title;
      this.fieldCount := fieldCount;
      inputs := Empty();
      outputs := Empty();
      categories := None;
      description := None;
    }

    /** `setDescription(description)` */
    method SetDescription(d: Option<string>)
      modifies this`description
      ensures description == d
    {
      description := d;
    }

    /** `setInput`: registers the resolved spec under the resolved name; a
        name registered before keeps its place and gets the new spec. */
    method SetInput(call: InputCall)
      requires Valid()
      modifies this`inputs
      ensures Valid()
      ensures inputs == Set(old(inputs), ResolveInput(call).0, ResolveInput(call).1)
    {
      var key := GivenName(call);
      var spec := InputSpec(None, None, None, call.fnc);
      if call.options.Some? {
        var o := call.options.value;
        if Named(o.name) {
          key := o.name.value;
        }
        spec := InputSpec(Some(key), o.title, o.anchorType, call.fnc);
      }
      inputs := Set(inputs, key, spec);
    }

    /** `setOutput`: fails, changing nothing, when no valid name can be found;
        otherwise registers the options under that name. */
    method SetOutput(call: OutputCall) returns (err: Option<string>)
      requires Valid()
      modifies this`outputs
      ensures Valid()
      ensures err.Some? <==> !Named(OutputName(call))
      ensures err.Some? ==> err.value == OutputNameError && outputs == old(outputs)
      ensures err.None? ==> outputs == Set(old(outputs), OutputName(call).value, OutputOptions(call))
    {
      var name, options;
      match call {
        case OutputNamed(n, o) =>
          name, options := n, o;
        case OutputObject(o) =>
          name, options := o.name, Some(o);
      }
      if !Named(name) {
        return Some(OutputNameError);
      }
      outputs := Set(outputs, name.value, options);
      return None;
    }

    /** `addCategory(name)`: starts the list when there is none and appends
        the name unless it is listed already. */
    method AddCategory(category: string)
      requires Valid()
      modifies this`categories
      ensures Valid()
      ensures categories == Some(AddOnce(if old(categories).Some? then old(categories).value else [], category))
    {
      var list := if categories.Some? then categories.value else [];
      if category !in list {
        list := list + [category];
      }
      categories := Some(list);
    }

    /** `getClientConfig()`: the class's public descriptor. Inputs and outputs
        are listed in registry order with only their name, title and type; the
        parent is named unless this class extends the base `Component`; the
        title falls back to the titleized type name. */
    method GetClientConfig(titleize: string -> string) returns (r: Result<ClientConfig>)
      requires Valid()
      ensures r.Err? <==> HasBareOutput(Values(outputs))
      ensures r.Ok? ==>
                && r.value.name == name && r.value.typeName == typeName
                && r.value.categories == categories && r.value.description == description
                && r.value.title == (if Named(title) then title.value else titleize(typeName))
                && (r.value.parent.Some? <==> superName != "Component")
                && (r.value.parent.Some? ==> r.value.parent.value == superName)
                && |r.value.inputs| == |inputs.names|
                && (forall i :: 0 <= i < |inputs.names| ==> r.value.inputs[i] == InputInfo(Values(inputs)[i]))
                && |r.value.outputs| == |outputs.names|
                && (forall i :: 0 <= i < |outputs.names| ==>
                      Values(outputs)[i].Some? && r.value.outputs[i] == OutputInfo(Values(outputs)[i].value))
    {
      var ins := ProjectInputs(Values(inputs));
      var outs := ProjectOutputs(Values(outputs));
      if outs.Err? {
        return Err(outs.message);
      }
      var shownTitle := if Named(title) then title.value else titleize(typeName);
      var parent := if superName != "Component" then Some(superName) else None;
      r := Ok(ClientConfig(name, typeName, categories, shownTitle, description, ins, outs.value, parent));
    }

    /** This class's entry in `getAll()`. */
    method ListingOf(key: string) returns (r: Result<Listing>)
      requires Valid()
      ensures r.Err? <==> HasBareOutput(Values(outputs))
      ensures r.Ok? ==>
                && r.value.name == key && r.value.title == title
                && r.value.description == TitleText(title) + " component"
                && r.value.fieldCount == fieldCount
                && r.value.buttons == (if fieldCount != 0 then [ConfigButton] else [])
                && |r.value.inputs| == |inputs.names|
                && (forall i :: 0 <= i < |inputs.names| ==> r.value.inputs[i] == InputInfo(Values(inputs)[i]))
                && |r.value.outputs| == |outputs.names|
                && (forall i :: 0 <= i < |outputs.names| ==>
                      Values(outputs)[i].Some? && r.value.outputs[i] == OutputInfo(Values(outputs)[i].value))
    {
      var ins := ProjectInputs(Values(inputs));
      var outs := ProjectOutputs(Values(outputs));
      if outs.Err? {
        return Err(outs.message);
      }
      var buttons := [];
      if fieldCount != 0 {
        buttons := buttons + [ConfigButton];
      }
      r := Ok(Listing(key, title, TitleText(title) + " component", outs.value, ins, fieldCount, buttons));
    }
  }

  /** `l` is the `getAll()` entry of class `c` under key `key`: its name, title,
      description, field count and buttons, and its anchors projected in
      registry order. */
  ghost predicate IsListingOf(l: Listing, key: string, c: ComponentClass)
    reads c
  {
    && c.Valid()
    && l.name == key && l.title == c.title
    && l.description == TitleText(c.title) + " component"
    && l.fieldCount == c.fieldCount
    && l.buttons == (if c.fieldCount != 0 then [ConfigButton] else [])
    && |l.inputs| == |c.inputs.names|
    && (forall j :: 0 <= j < |c.inputs.names| ==> l.inputs[j] == InputInfo(Values(c.inputs)[j]))
    && |l.outputs| == |c.outputs.names|
    && (forall j :: 0 <= j < |c.outputs.names| ==>
          Values(c.outputs)[j].Some? && l.outputs[j] == OutputInfo(Values(c.outputs)[j].value))
  }

  /** `getAll()` over the `scenario_component` class group, given as its keys
      and classes in enumeration order: one listing per class, in that order,
      or the first class's failure. */
  method GetAll(group: seq<(string, ComponentClass)>) returns (r: Result<seq<Listing>>)
    requires forall i :: 0 <= i < |group| ==> group[i].1.Valid()
    ensures r.Err? <==> exists i :: 0 <= i < |group| && group[i].1.HasBareOutputs()
    ensures r.Ok? ==> |r.value| == |group|
    ensures r.Ok? ==> forall i :: 0 <= i < |group| ==> IsListingOf(r.value[i], group[i].0, group[i].1)
  {
    var acc: seq<Listing> := [];
    for i := 0 to |group|
      invariant |acc| == i
      invariant forall k :: 0 <= k < i ==> !group[k].1.HasBareOutputs()
      invariant forall k :: 0 <= k < i ==> IsListingOf(acc[k], group[k].0, group[k].1)
    {
      var entry := group[i].1.ListingOf(group[i].0);
      if entry.Err? {
        return Err(entry.message);
      }
      acc := acc + [entry.value];
    }
    return Ok(acc);
  }
}
