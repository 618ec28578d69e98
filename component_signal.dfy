/** The instance side of lib/component/00_component.js: a component placed in
    a session, the signals it creates, and the routing of a signal from one of
    its output anchors along the session's connections to the input anchors
    of other components. */
module ComponentSignal {

  import opened Js
  import opened Decks
  import opened ComponentRegistry

  /** One end of a connection: a component uid and an anchor name on it. */
  datatype Endpoint = Endpoint(nodeUid: string, anchorName: string)

  datatype Connection = Connection(source: Endpoint, target: Endpoint)

  /** `data.connections`: the `in` and `out` lists. */
  datatype Connections = Connections(incoming: seq<Connection>, outgoing: seq<Connection>)

  /** A component's document data; a missing field is `None`. */
  datatype ComponentData = ComponentData(
    uid: Option<string>,
    settings: Option<map<string, JsValue>>,
    connections: Option<Connections>)

  /** `{}`: the data a component gets when it is constructed without any. */
  const NoData := ComponentData(None, None, None)

  /** The TypeError raised by reading property `key` of a missing `connections`. */
  function MissingConnectionsError(key: string): string {
    "Cannot read properties of undefined (reading '" + key + "')"
  }

  /** A handler called with `receiver` as `this` and `signal` as argument. */
  datatype Invocation = Invocation(receiver: Component, handler: Handler, signal: Signal)

  /** A typed envelope routed between anchors. */
  class Signal {
    var signalType: JsValue
    var value: JsValue
    var source: Component?
    var sourceAnchor: Option<string>

    /** `new Signal(type, value)` */
    constructor (signalType: JsValue, value: JsValue)
      ensures this.signalType == signalType && this.value == value
      ensures source == null && sourceAnchor.None?
    {
      this.signalType := signalType;
      this.value := value;
      source := null;
      sourceAnchor := None;
    }

    /** `signal.clone()`: a new signal with the same type and value. */
    method Clone() returns (c: Signal)
      ensures fresh(c)
      ensures c.signalType == signalType && c.value == value
      ensures c.source == null && c.sourceAnchor.None?
    {
      c := new Signal(signalType, value);
    }
  }

  /** The session a component runs in: the scenario's components by uid
      (`scenario.getComponent(uid)`) and the handler calls made so far. */
  class Session {
    var components: map<string, Component>
    var invocations: seq<Invocation>

    /** Every component of the session belongs to it. */
    ghost predicate Valid()
      reads this`components
    {
      forall k :: k in components ==> components[k].session == this
    }

    constructor ()
      ensures Valid() && components == map[] && invocations == []
    {
      components := map[];
      invocations := [];
    }

    /** Places a component in the scenario under `uid`. */
    method AddComponent(uid: string, c: Component)
      requires Valid() && c.session == this
      modifies this`components
      ensures Valid() && components == old(components)[uid := c]
    {
      components := components[uid := c];
    }
  }

  /** The connections of `conns` that leave anchor `name`, in their order. */
  function Matching(conns: seq<Connection>, name: string): (r: seq<Connection>)
    ensures |r| <= |conns|
    ensures forall i :: 0 <= i < |r| ==> r[i].source.anchorName == name
    decreases |conns|
  {
    if conns == [] then []
    else
      var n := |conns| - 1;
      Matching(conns[..n], name) + if conns[n].source.anchorName == name then [conns[n]] else []
  }

  /** A connection is routed exactly when it leaves the named anchor. */
  lemma {:induction false} MatchingMembers(conns: seq<Connection>, name: string, c: Connection)
    ensures c in Matching(conns, name) <==> c in conns && c.source.anchorName == name
    decreases |conns|
  {
    if conns != [] {
      var n := |conns| - 1;
      assert conns == conns[..n] + [conns[n]];
      MatchingMembers(conns[..n], name, c);
    }
  }

  /** Routing keeps the declaration order of the connections. */
  lemma {:induction false} MatchingAppend(a: seq<Connection>, b: seq<Connection>, name: string)
    ensures Matching(a + b, name) == Matching(a, name) + Matching(b, name)
    decreases |b|
  {
    if b == [] {
      assert a + b == a;
    } else {
      var n := |b| - 1;
      assert (a + b)[..|a + b| - 1] == a + b[..n];
      assert (a + b)[|a + b| - 1] == b[n];
      MatchingAppend(a, b[..n], name);
    }
  }

  /** One more connection: it is routed exactly when it leaves the anchor. */
  lemma MatchingStep(conns: seq<Connection>, i: nat, name: string)
    requires i < |conns|
    ensures Matching(conns[..i + 1], name) ==
            Matching(conns[..i], name) + if conns[i].source.anchorName == name then [conns[i]] else []
  {
    assert conns[..i + 1][..i] == conns[..i];
  }

  /** Every connection of `conns` reaches a component of the session. */
  predicate TargetsPresent<V>(conns: seq<Connection>, components: map<string, V>) {
    forall i :: 0 <= i < |conns| ==> conns[i].target.nodeUid in components
  }

  /** Every connection of `conns` that leaves anchor `name` reaches a
      component of the session. */
  predicate Routable(conns: seq<Connection>, name: string, components: map<string, Component>) {
    forall i :: 0 <= i < |conns| && conns[i].source.anchorName == name ==> conns[i].target.nodeUid in components
  }

  lemma {:induction false} RoutableMatching(conns: seq<Connection>, name: string, components: map<string, Component>)
    requires Routable(conns, name, components)
    ensures TargetsPresent(Matching(conns, name), components)
    decreases |conns|
  {
    if conns != [] {
      var n := |conns| - 1;
      RoutableMatching(conns[..n], name, components);
    }
  }

  /** No signal occurs twice in `s`. */
  ghost predicate Distinct(s: seq<Signal>)
    decreases |s|
  {
    s == [] || (s[0] !in s[1..] && Distinct(s[1..]))
  }

  /** `Distinct` says that the entries are pairwise different objects. */
  lemma {:induction false} DistinctMeans(s: seq<Signal>)
    ensures Distinct(s) <==> forall i, j :: 0 <= i < j < |s| ==> s[i] != s[j]
    decreases |s|
  {
    if s != [] {
      DistinctMeans(s[1..]);
      if forall i, j :: 0 <= i < j < |s| ==> s[i] != s[j] {
        assert forall i, j :: 0 <= i < j < |s[1..]| ==> s[1..][i] == s[i + 1] && s[1..][j] == s[j + 1];
      }
      if Distinct(s) {
        forall i, j | 0 <= i < j < |s|
          ensures s[i] != s[j]
        {
          if i == 0 {
            assert s[j] == s[1..][j - 1];
          } else {
            assert s[i] == s[1..][i - 1] && s[j] == s[1..][j - 1];
          }
        }
      }
    }
  }

  /** Appending at most one signal that is not yet in `s` keeps `s` distinct. */
  lemma {:induction false} DistinctSnoc(s: seq<Signal>, d: seq<Signal>)
    requires Distinct(s) && |d| <= 1 && forall c :: c in d ==> c !in s
    ensures Distinct(s + d)
    decreases |s|
  {
    if d == [] {
      assert s + d == s;
    } else if s == [] {
      assert s + d == d;
      assert d[1..] == [];
    } else {
      assert (s + d)[1..] == s[1..] + d;
      DistinctSnoc(s[1..], d);
    }
  }

  /** The signals of `a + b` are those of `a` and those of `b`. */
  lemma SignalsOfAppend(a: seq<Signal>, b: seq<Signal>)
    ensures forall c :: c in a + b ==> c in a || c in b
  {
  }

  /** The input registry of each component's class, by uid. */
  function Registries(components: map<string, Component>): (r: map<string, Deck<InputSpec>>)
    reads set k | k in components :: components[k].cls
    ensures r.Keys == components.Keys
    ensures forall k :: k in components ==> r[k] == components[k].cls.inputs
  {
    map k | k in components :: components[k].cls.inputs
  }

  /** What `inputSignal(anchor, signal)` on `receiver`, whose class has the
      input registry `inputs`, does: one call of the registered handler, or
      nothing. */
  function Reaction(receiver: Component, inputs: Deck<InputSpec>, anchor: string, signal: Signal): (r: seq<Invocation>)
    ensures |r| <= 1
    ensures r == [] <==> Get(inputs, anchor).None?
    ensures r != [] ==> r[0] == Invocation(receiver, Get(inputs, anchor).value.fnc, signal)
  {
    match Get(inputs, anchor)
    case None => []
    case Some(spec) => [Invocation(receiver, spec.fnc, signal)]
  }

  /** The handler calls that delivering `clones[i]` along `conns[i]` makes, in
      order, given the receivers and their input registries by uid. */
  function Handled(conns: seq<Connection>, clones: seq<Signal>,
                   components: map<string, Component>, registries: map<string, Deck<InputSpec>>): (r: seq<Invocation>)
    requires |conns| == |clones| && TargetsPresent(conns, components) && components.Keys <= registries.Keys
    ensures |r| <= |conns|
    decreases |conns|
  {
    if conns == [] then []
    else
      var n := |conns| - 1;
      var target := conns[n].target;
      Handled(conns[..n], clones[..n], components, registries) +
      Reaction(components[target.nodeUid], registries[target.nodeUid], target.anchorName, clones[n])
  }

  lemma HandledSnoc(conns: seq<Connection>, clones: seq<Signal>, c: Connection, cloned: Signal,
                    components: map<string, Component>, registries: map<string, Deck<InputSpec>>)
    requires |conns| == |clones| && TargetsPresent(conns, components) && components.Keys <= registries.Keys
    requires c.target.nodeUid in components
    ensures TargetsPresent(conns + [c], components)
    ensures Handled(conns + [c], clones + [cloned], components, registries) ==
            Handled(conns, clones, components, registries) +
            Reaction(components[c.target.nodeUid], registries[c.target.nodeUid], c.target.anchorName, cloned)
  {
    assert forall i :: 0 <= i < |conns| ==> conns[i] == (conns + [c])[i];
    assert (conns + [c])[|conns|] == c;
    assert (conns + [c])[..|conns|] == conns;
    assert (clones + [cloned])[..|clones|] == clones;
  }

  /** Routing one more matching connection appends the reaction of its
      target to the handler calls made so far. */
  lemma RoutedStep(conns: seq<Connection>, i: nat, name: string, sent: seq<Signal>, cloned: Signal,
                   components: map<string, Component>, registries: map<string, Deck<InputSpec>>)
    requires i < |conns| && conns[i].source.anchorName == name && conns[i].target.nodeUid in components
    requires TargetsPresent(Matching(conns[..i], name), components) && components.Keys <= registries.Keys
    requires |sent| == |Matching(conns[..i], name)|
    ensures TargetsPresent(Matching(conns[..i + 1], name), components)
    ensures |sent + [cloned]| == |Matching(conns[..i + 1], name)|
    ensures Handled(Matching(conns[..i + 1], name), sent + [cloned], components, registries) ==
            Handled(Matching(conns[..i], name), sent, components, registries) +
            Reaction(components[conns[i].target.nodeUid], registries[conns[i].target.nodeUid], conns[i].target.anchorName, cloned)
  {
    MatchingStep(conns, i, name);
    HandledSnoc(Matching(conns[..i], name), sent, conns[i], cloned, components, registries);
  }

  /** Delivering one more clone along a matching connection extends the
      handler calls made so far by exactly that delivery's reaction. */
  lemma RoutedInvocations(conns: seq<Connection>, i: nat, name: string, sent: seq<Signal>, cloned: Signal,
                          components: map<string, Component>, registries: map<string, Deck<InputSpec>>,
                          start: seq<Invocation>, before: seq<Invocation>, after: seq<Invocation>)
    requires i < |conns| && conns[i].source.anchorName == name && conns[i].target.nodeUid in components
    requires TargetsPresent(Matching(conns[..i], name), components) && components.Keys <= registries.Keys
    requires |sent| == |Matching(conns[..i], name)|
    requires before == start + Handled(Matching(conns[..i], name), sent, components, registries)
    requires after == before + Reaction(components[conns[i].target.nodeUid], registries[conns[i].target.nodeUid],
                                        conns[i].target.anchorName, cloned)
    ensures TargetsPresent(Matching(conns[..i + 1], name), components)
    ensures |sent + [cloned]| == |Matching(conns[..i + 1], name)|
    ensures after == start + Handled(Matching(conns[..i + 1], name), sent + [cloned], components, registries)
  {
    RoutedStep(conns, i, name, sent, cloned, components, registries);
    ghost var handled := Handled(Matching(conns[..i], name), sent, components, registries);
    ghost var reaction := Reaction(components[conns[i].target.nodeUid], registries[conns[i].target.nodeUid],
                                   conns[i].target.anchorName, cloned);
    assert start + handled + reaction == start + (handled + reaction);
  }

  /** When every target has a handler on its anchor, each clone is handed
      to exactly one handler call, in order. */
  lemma {:induction false} HandledAllRegistered(conns: seq<Connection>, clones: seq<Signal>,
                                                components: map<string, Component>, registries: map<string, Deck<InputSpec>>)
    requires |conns| == |clones| && TargetsPresent(conns, components) && components.Keys <= registries.Keys
    requires forall i :: 0 <= i < |conns| ==> Get(registries[conns[i].target.nodeUid], conns[i].target.anchorName).Some?
    ensures |Handled(conns, clones, components, registries)| == |conns|
    ensures forall i :: 0 <= i < |conns| ==>
              && Handled(conns, clones, components, registries)[i].signal == clones[i]
              && Handled(conns, clones, components, registries)[i].receiver == components[conns[i].target.nodeUid]
    decreases |conns|
  {
    if conns != [] {
      var n := |conns| - 1;
      HandledAllRegistered(conns[..n], clones[..n], components, registries);
    }
  }

  class Component {
    const session: Session
    const cls: ComponentClass
    const data: ComponentData
    const settings: map<string, JsValue>
    const uid: Option<string>
    const id: Option<string>

    constructor (session: Session, cls: ComponentClass, data: ComponentData)
      ensures this.session == session && this.cls == cls && this.data == data
      ensures uid == data.uid && id == data.uid
      ensures settings == if data.settings.Some? then data.settings.value else map[]
    {
      this.session := session;
      this.cls := cls;
      this.data := data;
      settings := if data.settings.Some? then data.settings.value else map[];
      uid := data.uid;
      id := data.uid;
    }

    /** `new Component(session, data)`: throws without a session; missing
        data is `{}`, and `uid` and `id` are both the data's uid. */
    static method Create(session: Session?, cls: ComponentClass, data: Option<ComponentData>) returns (r: Result<Component>)
      ensures r.Err? <==> session == null
      ensures r.Err? ==> r.message == "Scenario components require a session document"
      ensures r.Ok? ==> && fresh(r.value) && r.value.session == session && r.value.cls == cls
                        && r.value.data == (if data.Some? then data.value else NoData)
                        && r.value.uid == r.value.data.uid && r.value.id == r.value.uid
    {
      if session == null {
        return Err("Scenario components require a session document");
      }
      var c := new Component(session, cls, if data.Some? then data.value else NoData);
      return Ok(c);
    }

    /** `createSignal(type, value)`: a new signal whose source is this component. */
    method CreateSignal(signalType: JsValue, value: JsValue) returns (s: Signal)
      ensures fresh(s)
      ensures s.signalType == signalType && s.value == value
      ensures s.source == this && s.sourceAnchor.None?
    {
      s := new Signal(signalType, value);
      s.source := this;
    }

    /** `getInput(name)`: the input registered under `name` on this component's class. */
    function GetInput(name: string): Option<InputSpec>
      reads cls
    {
      Get(cls.inputs, name)
    }

    /** `getInputConnections()`: the `in` list; reading it from missing
        connections raises a TypeError. */
    function GetInputConnections(): (r: Result<seq<Connection>>)
      ensures r.Ok? <==> data.connections.Some?
      ensures r.Ok? ==> r.value == data.connections.value.incoming
      ensures r.Err? ==> r.message == MissingConnectionsError("in")
    {
      if data.connections.Some? then Ok(data.connections.value.incoming) else Err(MissingConnectionsError("in"))
    }

    /** `getOutputConnections()`: the `out` list; reading it from missing
        connections raises a TypeError. */
    function GetOutputConnections(): (r: Result<seq<Connection>>)
      ensures r.Ok? <==> data.connections.Some?
      ensures r.Ok? ==> r.value == data.connections.value.outgoing
      ensures r.Err? ==> r.message == MissingConnectionsError("out")
    {
      if data.connections.Some? then Ok(data.connections.value.outgoing) else Err(MissingConnectionsError("out"))
    }

    /** `inputSignal(name, signal)`: without a registered input the signal is
        dropped and nothing changes; otherwise its handler is called once with
        this component as receiver. */
    method InputSignal(name: string, signal: Signal)
      modifies session`invocations
      ensures GetInput(name).None? ==> session.invocations == old(session.invocations)
      ensures GetInput(name).Some? ==>
                session.invocations == old(session.invocations) + [Invocation(this, GetInput(name).value.fnc, signal)]
      ensures session.invocations == old(session.invocations) + Reaction(this, cls.inputs, name, signal)
    {
      var input := GetInput(name);
      if input.None? {
        return;
      }
      session.invocations := session.invocations + [Invocation(this, input.value.fnc, signal)];
    }

    /** One pass of `outputSignal`'s loop for a matching connection: clone the
        signal, mark this component and anchor as its source, and hand it to
        the target's `inputSignal`. Returns the clone. */
    method Deliver(connection: Connection, name: string, signal: Signal) returns (cloned: Signal)
      requires session.Valid() && connection.target.nodeUid in session.components
      modifies session`invocations
      ensures fresh(cloned)
      ensures cloned.signalType == signal.signalType && cloned.value == signal.value
      ensures cloned.source == this && cloned.sourceAnchor == Some(name)
      ensures session.invocations == old(session.invocations) +
                Reaction(session.components[connection.target.nodeUid],
                         session.components[connection.target.nodeUid].cls.inputs, connection.target.anchorName, cloned)
    {
      var target := session.components[connection.target.nodeUid];
      cloned := signal.Clone();
      cloned.source := this;
      cloned.sourceAnchor := Some(name);
      target.InputSignal(connection.target.anchorName, cloned);
    }

    /** `c` is a clone of `signal` that this component sent from anchor `name`. */
    ghost predicate Stamped(c: Signal, signal: Signal, name: string)
      reads c, signal
    {
      && c != signal && c.signalType == signal.signalType && c.value == signal.value
      && c.source == this && c.sourceAnchor == Some(name)
    }

    /** Every signal of `s` is a clone of `signal` sent from anchor `name`. */
    ghost predicate AllStamped(s: seq<Signal>, signal: Signal, name: string)
      reads s, signal
      decreases |s|
    {
      s == [] || (AllStamped(s[..|s| - 1], signal, name) && Stamped(s[|s| - 1], signal, name))
    }

    /** Appending one more clone keeps `AllStamped`. */
    lemma AllStampedSnoc(s: seq<Signal>, c: Signal, signal: Signal, name: string)
      requires AllStamped(s, signal, name) && Stamped(c, signal, name)
      ensures AllStamped(s + [c], signal, name)
    {
      assert (s + [c])[..|s|] == s;
    }

    lemma {:induction false} AllStampedMeans(s: seq<Signal>, signal: Signal, name: string)
      ensures AllStamped(s, signal, name) <==> forall c :: c in s ==> Stamped(c, signal, name)
      decreases |s|
    {
      if s != [] {
        var n := |s| - 1;
        assert s == s[..n] + [s[n]];
        AllStampedMeans(s[..n], signal, name);
      }
    }

    /** `outputSignal`'s loop body for a connection `conns[i]` that leaves
        anchor `name`: one more clone is delivered to its target. */
    method RouteConnection(conns: seq<Connection>, i: nat, name: string, signal: Signal, ghost sent: seq<Signal>,
                           ghost registries: map<string, Deck<InputSpec>>, ghost start: seq<Invocation>)
      returns (cloned: Signal)
      requires session.Valid() && i < |conns|
      requires session.components.Keys <= registries.Keys
      requires TargetsPresent(Matching(conns[..i], name), session.components)
      requires |sent| == |Matching(conns[..i], name)|
      requires session.invocations == start + Handled(Matching(conns[..i], name), sent, session.components, registries)
      requires conns[i].source.anchorName == name && conns[i].target.nodeUid in session.components
      requires registries[conns[i].target.nodeUid] == session.components[conns[i].target.nodeUid].cls.inputs
      modifies session`invocations
      ensures TargetsPresent(Matching(conns[..i + 1], name), session.components)
      ensures |sent + [cloned]| == |Matching(conns[..i + 1], name)|
      ensures fresh(cloned) && Stamped(cloned, signal, name)
      ensures session.invocations ==
              start + Handled(Matching(conns[..i + 1], name), sent + [cloned], session.components, registries)
    {
      ghost var comps, before := session.components, session.invocations;
      cloned := Deliver(conns[i], name, signal);
      RoutedInvocations(conns, i, name, sent, cloned, comps, registries, start, before, session.invocations);
    }

    /** One turn of `outputSignal`'s loop, over the connection `conns[i]`:
        a matching connection gets one more clone delivered, any other is
        skipped; the clones handed out so far stay pairwise distinct. */
    method RouteStep(conns: seq<Connection>, i: nat, name: string, signal: Signal, ghost sent: seq<Signal>,
                     ghost registries: map<string, Deck<InputSpec>>, ghost start: seq<Invocation>)
      returns (ghost delivered: seq<Signal>)
      requires session.Valid() && i < |conns|
      requires session.components.Keys <= registries.Keys
      requires TargetsPresent(Matching(conns[..i], name), session.components)
      requires |sent| == |Matching(conns[..i], name)|
      requires session.invocations == start + Handled(Matching(conns[..i], name), sent, session.components, registries)
      requires conns[i].source.anchorName == name ==>
                 && conns[i].target.nodeUid in session.components
                 && registries[conns[i].target.nodeUid] == session.components[conns[i].target.nodeUid].cls.inputs
      requires Distinct(sent) && AllStamped(sent, signal, name)
      modifies session`invocations
      ensures TargetsPresent(Matching(conns[..i + 1], name), session.components)
      ensures |sent + delivered| == |Matching(conns[..i + 1], name)|
      ensures forall d :: d in delivered ==> fresh(d)
      ensures Distinct(sent + delivered) && AllStamped(sent + delivered, signal, name)
      ensures session.invocations ==
              start + Handled(Matching(conns[..i + 1], name), sent + delivered, session.components, registries)
    {
      if conns[i].source.anchorName == name {
        var cloned := RouteConnection(conns, i, name, signal, sent, registries, start);
        delivered := [cloned];
        assert cloned !in sent;
        DistinctSnoc(sent, delivered);
        AllStampedSnoc(sent, cloned, signal, name);
      } else {
        MatchingStep(conns, i, name);
        delivered := [];
        assert Matching(conns[..i + 1], name) == Matching(conns[..i], name);
        assert sent + delivered == sent;
      }
    }

    /** `outputSignal(name, signal)`: for each outgoing connection that leaves
        anchor `name`, in declaration order, a fresh clone of the signal, with
        this component as source and `name` as source anchor, is passed to
        `inputSignal` of the connection's target. The source does not guard
        against a target that is missing from the scenario, so one must exist. */
    method OutputSignal(name: string, signal: Signal) returns (ghost sent: seq<Signal>)
      requires session.Valid() && data.connections.Some?
      requires Routable(data.connections.value.outgoing, name, session.components)
      modifies session`invocations
      ensures TargetsPresent(Matching(data.connections.value.outgoing, name), session.components)
      ensures |sent| == |Matching(data.connections.value.outgoing, name)|
      ensures AllStamped(sent, signal, name) && Distinct(sent)
      ensures forall c :: c in sent ==> fresh(c)
      ensures session.invocations ==
              old(session.invocations) +
              Handled(Matching(data.connections.value.outgoing, name), sent, session.components, old(Registries(session.components)))
    {
      var conns := data.connections.value.outgoing;
      ghost var registries := Registries(session.components);
      sent := [];
      var i := 0;
      while i < |conns|
        invariant 0 <= i <= |conns|
        invariant TargetsPresent(Matching(conns[..i], name), session.components)
        invariant |sent| == |Matching(conns[..i], name)|
        invariant AllStamped(sent, signal, name) && Distinct(sent)
        invariant forall c :: c in sent ==> fresh(c)
        invariant session.invocations ==
                  old(session.invocations) + Handled(Matching(conns[..i], name), sent, session.components, registries)
      {
        ghost var uid := conns[i].target.nodeUid;
        assert conns[i].source.anchorName == name ==> uid in session.components && registries[uid] == session.components[uid].cls.inputs;
        ghost var delivered := RouteStep(conns, i, name, signal, sent, registries, old(session.invocations));
        SignalsOfAppend(sent, delivered);
        sent := sent + delivered;
        i := i + 1;
      }
      assert conns[..|conns|] == conns;
    }
  }
}
