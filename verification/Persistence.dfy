/**
 * What is written to the database about the graph (broker/dag_node.go, broker/dag_instance.go) and how it is linked
 * together again (LoadFromDatabase in broker/broker.go): rows hold identifiers, objects hold pointers.
 */
module Persistence {
  import opened Inspection
  import M = Model
  import B = Broker

  /** The columns of a node that loading reads. */
  datatype Row = Row(
    identifier: Id, functionName: string, functionHash: string, queueName: string, taintName: string, arguments: Obj,
    sourceIdentifiers: seq<Id>, destinationIdentifiers: seq<Id>, instanceIdentifier: Id)

  datatype InstanceRow = InstanceRow(identifier: Id, order: int)

  // ---------------------------------------------------------------- writing

  /** The row is that of a node with this value. */
  ghost predicate RowSays(row: Row, n: Id, v: M.Node) {
    && row.identifier == n && row.functionName == v.decl.functionName && row.functionHash == v.decl.functionHash
    && row.queueName == v.decl.queueName && row.taintName == v.decl.taintName && row.arguments == v.decl.arguments
    && row.sourceIdentifiers == v.decl.sources && row.destinationIdentifiers == v.destinations
    && row.instanceIdentifier == v.decl.instance
  }

  /** The row is that of this object: its fields, and the identifiers of what it points at, in order. */
  ghost predicate RowOf(row: Row, node: B.DAGNode)
    reads node
  {
    && row.identifier == node.identifier && row.functionName == node.functionName
    && row.functionHash == node.functionHash && row.queueName == node.queueName && row.taintName == node.taintName
    && row.arguments == node.arguments && row.instanceIdentifier == node.instance.identifier
    && |row.sourceIdentifiers| == |node.sources| && |row.destinationIdentifiers| == |node.destinations|
    && (forall k | 0 <= k < |node.sources| :: row.sourceIdentifiers[k] == node.sources[k].identifier)
    && forall k | 0 <= k < |node.destinations| :: row.destinationIdentifiers[k] == node.destinations[k].identifier
  }

  method Identifiers(ns: seq<B.DAGNode>) returns (ids: seq<Id>)
    ensures ids == B.NodeIds(ns)
  {
    var identifiers := new Id[|ns|];
    for i := 0 to |ns|
      invariant identifiers[..i] == B.NodeIds(ns)[..i]
    {
      identifiers[i] := ns[i].identifier;
    }
    ids := identifiers[..];
  }

  /** The part of UpsertIntoDatabase that turns the object into a row. */
  method ToRow(node: B.DAGNode) returns (row: Row)
    ensures RowOf(row, node) && RowSays(row, node.identifier, node.Abs()) && row.identifier == node.identifier
  {
    var sourceIdentifiers := Identifiers(node.sources);
    var destinationIdentifiers := Identifiers(node.destinations);
    row := Row(node.identifier, node.functionName, node.functionHash, node.queueName, node.taintName, node.arguments,
               sourceIdentifiers, destinationIdentifiers, node.instance.identifier);
  }

  // ---------------------------------------------------------------- which rows survive

  ghost predicate Keyed(instances: seq<InstanceRow>, rows: seq<Row>) {
    && (forall i, j | 0 <= i < j < |rows| :: rows[i].identifier != rows[j].identifier)
    && forall i, j | 0 <= i < j < |instances| :: instances[i].identifier != instances[j].identifier
  }

  predicate HasInstance(instances: seq<InstanceRow>, row: Row) {
    exists i :: 0 <= i < |instances| && instances[i].identifier == row.instanceIdentifier
  }

  /** An object is made for every row whose instance is there. */
  ghost predicate Made(instances: seq<InstanceRow>, rows: seq<Row>, n: Id) {
    exists k :: 0 <= k < |rows| && rows[k].identifier == n && HasInstance(instances, rows[k])
  }

  ghost predicate Resolves(instances: seq<InstanceRow>, rows: seq<Row>, row: Row) {
    && (forall s | s in row.sourceIdentifiers :: Made(instances, rows, s))
    && forall d | d in row.destinationIdentifiers :: Made(instances, rows, d)
  }

  /** A row without its instance that names a node there is: linking it would follow a nil pointer. */
  ghost predicate Dangles(instances: seq<InstanceRow>, rows: seq<Row>, row: Row) {
    && !HasInstance(instances, row)
    && ((exists s :: s in row.sourceIdentifiers && Made(instances, rows, s))
        || exists d :: d in row.destinationIdentifiers && Made(instances, rows, d))
  }

  ghost predicate Survives(instances: seq<InstanceRow>, rows: seq<Row>, row: Row) {
    HasInstance(instances, row) && Resolves(instances, rows, row)
  }

  // ---------------------------------------------------------------- loading

  class Instance {
    const identifier: Id
    const order: int

    constructor (identifier: Id, order: int)
      ensures this.identifier == identifier && this.order == order
    {
      this.identifier := identifier;
      this.order := order;
    }
  }

  /** A node as loading builds it: its slots are empty until they are linked. */
  class Node {
    const identifier: Id
    const functionName: string
    const functionHash: string
    const queueName: string
    const taintName: string
    const arguments: Obj
    const instance: Instance
    var sources: seq<Node?>
    var destinations: seq<Node?>

    constructor (row: Row, instance: Instance)
      ensures this.instance == instance && About(row)
      ensures sources == Empty(|row.sourceIdentifiers|) && destinations == Empty(|row.destinationIdentifiers|)
    {
      identifier := row.identifier;
      functionName := row.functionName;
      functionHash := row.functionHash;
      queueName := row.queueName;
      taintName := row.taintName;
      arguments := row.arguments;
      this.instance := instance;
      sources := Empty(|row.sourceIdentifiers|);
      destinations := Empty(|row.destinationIdentifiers|);
    }

    predicate About(row: Row) {
      && identifier == row.identifier && functionName == row.functionName && functionHash == row.functionHash
      && queueName == row.queueName && taintName == row.taintName && arguments == row.arguments
    }
  }

  function Empty(n: nat): seq<Node?> {
    seq(n, i => null)
  }

  /** Slot by slot, the node with the identifier listed there, or nothing if there is none. */
  function Slots(ids: seq<Id>, made: map<Id, Node>): (slots: seq<Node?>)
    ensures |slots| == |ids|
  {
    seq(|ids|, i requires 0 <= i < |ids| => if ids[i] in made then made[ids[i]] else null)
  }

  /** One of the two inner loops: fill the slots of the row's node; says whether all could be filled. */
  method Fill(ids: seq<Id>, made: map<Id, Node>, present: bool, slots0: seq<Node?>)
    returns (panic: bool, complete: bool, slots: seq<Node?>)
    requires present ==> slots0 == Empty(|ids|)
    ensures panic <==> !present && exists x :: x in ids && x in made
    ensures !panic ==> (complete <==> forall x | x in ids :: x in made)
    ensures present ==> slots == Slots(ids, made)
  {
    complete, slots := true, slots0;
    for i := 0 to |ids|
      invariant present || forall x | x in ids[..i] :: x !in made
      invariant complete <==> forall x | x in ids[..i] :: x in made
      invariant present ==> |slots| == |ids| && forall k | 0 <= k < |ids| ::
        slots[k] == if k < i then Slots(ids, made)[k] else null
    {
      if ids[i] !in made {
        complete := false;
        continue;
      }
      if !present {
        return true, complete, slots;
      }
      slots := slots[i := made[ids[i]]];
    }
    panic := false;
  }

  /** Every instance row has its object, and only those do. */
  ghost predicate Instances(rows: seq<InstanceRow>, instances: map<Id, Instance>) {
    && (forall i | 0 <= i < |rows| :: rows[i].identifier in instances)
    && (forall id | id in instances :: instances[id].identifier == id
          && exists i :: 0 <= i < |rows| && rows[i] == InstanceRow(id, instances[id].order))
  }

  method MakeInstances(rows: seq<InstanceRow>) returns (instances: map<Id, Instance>)
    ensures Instances(rows, instances)
  {
    instances := map[];
    for k := 0 to |rows|
      invariant forall i | 0 <= i < k :: rows[i].identifier in instances
      invariant forall id | id in instances :: instances[id].identifier == id
                  && exists i :: 0 <= i < k && rows[i] == InstanceRow(id, instances[id].order)
    {
      var instance := new Instance(rows[k].identifier, rows[k].order);
      assert rows[k] == InstanceRow(instance.identifier, instance.order);
      instances := instances[rows[k].identifier := instance];
    }
  }

  /** The object of a row, with its slots still empty. */
  ghost predicate Built(row: Row, node: Node, instances: map<Id, Instance>)
    reads node
  {
    && node.About(row) && row.instanceIdentifier in instances && node.instance == instances[row.instanceIdentifier]
    && node.sources == Empty(|row.sourceIdentifiers|) && node.destinations == Empty(|row.destinationIdentifiers|)
  }

  method MakeNodes(instanceRows: seq<InstanceRow>, rows: seq<Row>, instances: map<Id, Instance>)
    returns (made: map<Id, Node>)
    requires Keyed(instanceRows, rows) && Instances(instanceRows, instances)
    ensures forall n | n in made :: fresh(made[n]) && made[n].identifier == n && Made(instanceRows, rows, n)
    ensures forall k | 0 <= k < |rows| :: rows[k].identifier in made <==> HasInstance(instanceRows, rows[k])
    ensures forall k | 0 <= k < |rows| && rows[k].identifier in made ::
              Built(rows[k], made[rows[k].identifier], instances)
  {
    made := map[];
    for k := 0 to |rows|
      invariant forall n | n in made :: fresh(made[n]) && made[n].identifier == n
                  && exists j :: 0 <= j < k && rows[j].identifier == n && HasInstance(instanceRows, rows[j])
      invariant forall j | 0 <= j < k :: rows[j].identifier in made <==> HasInstance(instanceRows, rows[j])
      invariant forall j | 0 <= j < k && rows[j].identifier in made ::
                  Built(rows[j], made[rows[j].identifier], instances)
    {
      if rows[k].instanceIdentifier !in instances {
        continue;
      }
      var node := new Node(rows[k], instances[rows[k].instanceIdentifier]);
      made := made[rows[k].identifier := node];
    }
  }

  /** The object of a row, with all slots looked up. */
  ghost predicate Linked(row: Row, node: Node, instances: map<Id, Instance>, made: map<Id, Node>)
    reads node
  {
    && node.About(row) && row.instanceIdentifier in instances && node.instance == instances[row.instanceIdentifier]
    && node.sources == Slots(row.sourceIdentifiers, made)
    && node.destinations == Slots(row.destinationIdentifiers, made)
  }

  ghost predicate AllMade(row: Row, made: map<Id, Node>) {
    (forall s | s in row.sourceIdentifiers :: s in made) && forall d | d in row.destinationIdentifiers :: d in made
  }

  ghost predicate NoneMade(row: Row, made: map<Id, Node>) {
    (forall s | s in row.sourceIdentifiers :: s !in made) && forall d | d in row.destinationIdentifiers :: d !in made
  }

  ghost function ObjectOf(row: Row, made: map<Id, Node>): set<object> {
    if row.identifier in made then {made[row.identifier]} else {}
  }

  /** One round of the linking loop. */
  method LinkRow(row: Row, instances: map<Id, Instance>, made: map<Id, Node>) returns (panic: bool, complete: bool)
    requires row.identifier in made ==> Built(row, made[row.identifier], instances)
    modifies ObjectOf(row, made)
    ensures panic <==> row.identifier !in made && !NoneMade(row, made)
    ensures !panic ==> (complete <==> AllMade(row, made))
    ensures row.identifier in made ==> Linked(row, made[row.identifier], instances, made)
  {
    var present := row.identifier in made;
    var sources: seq<Node?>, destinations: seq<Node?> := [], [];
    if present {
      sources, destinations := made[row.identifier].sources, made[row.identifier].destinations;
    }
    var all: bool;
    panic, complete, sources := Fill(row.sourceIdentifiers, made, present, sources);
    if panic {
      return;
    }
    panic, all, destinations := Fill(row.destinationIdentifiers, made, present, destinations);
    if panic {
      return;
    }
    complete := complete && all;
    if present {
      made[row.identifier].sources := sources;
      made[row.identifier].destinations := destinations;
    }
  }

  /** Objects with empty slots for the rows from k on, linked ones for the rows before. */
  ghost predicate LinkedUpTo(rows: seq<Row>, k: nat, instances: map<Id, Instance>, made: map<Id, Node>)
    requires k <= |rows|
    reads made.Values
  {
    && (forall j | 0 <= j < k && rows[j].identifier in made ::
         Linked(rows[j], made[rows[j].identifier], instances, made))
    && forall j | k <= j < |rows| && rows[j].identifier in made :: Built(rows[j], made[rows[j].identifier], instances)
  }

  /** The linking loop; gaps lists the rows that could not be linked completely. */
  method LinkRows(rows: seq<Row>, instances: map<Id, Instance>, made: map<Id, Node>)
    returns (panic: bool, gaps: seq<Id>)
    requires forall i, j | 0 <= i < j < |rows| :: rows[i].identifier != rows[j].identifier
    requires forall n | n in made :: made[n].identifier == n
    requires LinkedUpTo(rows, 0, instances, made)
    modifies made.Values
    ensures panic <==> exists k :: 0 <= k < |rows| && rows[k].identifier !in made && !NoneMade(rows[k], made)
    ensures !panic ==> LinkedUpTo(rows, |rows|, instances, made)
    ensures !panic ==> forall k | 0 <= k < |rows| :: rows[k].identifier in gaps <==> !AllMade(rows[k], made)
  {
    hide Linked, Built, AllMade, NoneMade;
    gaps := [];
    for k := 0 to |rows|
      invariant LinkedUpTo(rows, k, instances, made)
      invariant forall j | 0 <= j < k :: rows[j].identifier !in made ==> NoneMade(rows[j], made)
      invariant forall j | 0 <= j < k :: rows[j].identifier in gaps <==> !AllMade(rows[j], made)
      invariant forall j | k <= j < |rows| :: rows[j].identifier !in gaps
    {
      var complete: bool;
      panic, complete := LinkRow(rows[k], instances, made);
      if panic {
        return;
      }
      if !complete {
        gaps := gaps + [rows[k].identifier];
      }
    }
    panic := false;
  }

  method Delete(made: map<Id, Node>, gaps: seq<Id>) returns (nodes: map<Id, Node>)
    ensures nodes == map n | n in made && n !in gaps :: made[n]
  {
    nodes := made;
    for k := 0 to |gaps|
      invariant nodes == map n | n in made && n !in gaps[..k] :: made[n]
    {
      nodes := nodes - {gaps[k]};
    }
    assert gaps[..|gaps|] == gaps;
  }

  /** Slot by slot, the very object that the map has under the identifier listed there. */
  ghost predicate Points(ids: seq<Id>, slots: seq<Node?>, nodes: map<Id, Node>) {
    |slots| == |ids| && forall i | 0 <= i < |ids| :: ids[i] in nodes && slots[i] == nodes[ids[i]]
  }

  /** The node of a row as the row says, its slots filled with the objects the map has for the identifiers listed. */
  ghost predicate Restored(row: Row, node: Node, instances: map<Id, Instance>, nodes: map<Id, Node>)
    reads node
  {
    && node.About(row) && row.instanceIdentifier in instances && node.instance == instances[row.instanceIdentifier]
    && Points(row.sourceIdentifiers, node.sources, nodes)
    && Points(row.destinationIdentifiers, node.destinations, nodes)
  }

  lemma LinkedIsRestored(row: Row, node: Node, instances: map<Id, Instance>, made: map<Id, Node>)
    requires Linked(row, node, instances, made) && AllMade(row, made)
    ensures Restored(row, node, instances, made)
  {
  }

  /** Slot by slot, the object that the map has under that object's own identifier. */
  ghost predicate Inside(slots: seq<Node?>, nodes: map<Id, Node>)
    reads nodes.Values
  {
    forall i | 0 <= i < |slots| ::
      slots[i] != null && slots[i] in nodes.Values && slots[i].identifier in nodes
      && nodes[slots[i].identifier] == slots[i]
  }

  /** Every slot of a node of the map holds the object that the map has under that object's identifier. */
  ghost predicate Closed(nodes: map<Id, Node>)
    reads nodes.Values
  {
    forall n | n in nodes :: Inside(nodes[n].sources, nodes) && Inside(nodes[n].destinations, nodes)
  }

  /** row has a link to n. */
  ghost predicate LinksTo(row: Row, n: Id) {
    n in row.sourceIdentifiers || n in row.destinationIdentifiers
  }

  /** Every row that a surviving row names has all its own links there. */
  ghost predicate NamesResolve(instanceRows: seq<InstanceRow>, rows: seq<Row>) {
    forall k, l | 0 <= k < |rows| && 0 <= l < |rows| && Survives(instanceRows, rows, rows[k])
                  && LinksTo(rows[k], rows[l].identifier) :: Resolves(instanceRows, rows, rows[l])
  }

  /** Every link of a surviving row leads to a surviving row. */
  ghost predicate SurvivorsClosed(instanceRows: seq<InstanceRow>, rows: seq<Row>) {
    forall k, n | 0 <= k < |rows| && Survives(instanceRows, rows, rows[k]) && LinksTo(rows[k], n) ::
      exists l :: 0 <= l < |rows| && rows[l].identifier == n && Survives(instanceRows, rows, rows[l])
  }

  lemma ClosedIffNamesResolve(instanceRows: seq<InstanceRow>, rows: seq<Row>)
    requires Keyed(instanceRows, rows)
    ensures SurvivorsClosed(instanceRows, rows) <==> NamesResolve(instanceRows, rows)
  {
    hide HasInstance;
    if NamesResolve(instanceRows, rows) {
      forall k, n | 0 <= k < |rows| && Survives(instanceRows, rows, rows[k]) && LinksTo(rows[k], n)
        ensures exists l :: 0 <= l < |rows| && rows[l].identifier == n && Survives(instanceRows, rows, rows[l])
      {
        assert Made(instanceRows, rows, n);
      }
    }
    if SurvivorsClosed(instanceRows, rows) {
      forall k, l | 0 <= k < |rows| && 0 <= l < |rows| && Survives(instanceRows, rows, rows[k])
                    && LinksTo(rows[k], rows[l].identifier)
        ensures Resolves(instanceRows, rows, rows[l])
      {
        var m :| 0 <= m < |rows| && rows[m].identifier == rows[l].identifier && Survives(instanceRows, rows, rows[m]);
        assert m == l;
      }
    }
  }

  /**
   * LoadFromDatabase without the database: it fails exactly when some row without its instance names a node that is
   * there. Otherwise the nodes kept are exactly the surviving ones, every slot holding the one object made for the
   * identifier listed there; and the nodes kept point to one another only if and only if NamesResolve holds of the
   * rows. made are all objects made, kept or dropped.
   */
  method Load(instanceRows: seq<InstanceRow>, rows: seq<Row>)
    returns (panic: bool, instances: map<Id, Instance>, nodes: map<Id, Node>, ghost made: map<Id, Node>)
    requires Keyed(instanceRows, rows)
    ensures panic <==> exists k :: 0 <= k < |rows| && Dangles(instanceRows, rows, rows[k])
    ensures Instances(instanceRows, instances)
    ensures forall n | n in made :: made[n].identifier == n
    ensures !panic ==> forall n | n in nodes ::
      && n in made && nodes[n] == made[n]
      && exists k :: 0 <= k < |rows| && rows[k].identifier == n
    ensures !panic ==> forall k | 0 <= k < |rows| ::
      && (rows[k].identifier in nodes <==> Survives(instanceRows, rows, rows[k]))
      && (rows[k].identifier in nodes ==> Restored(rows[k], nodes[rows[k].identifier], instances, made))
    ensures !panic ==> (Closed(nodes) <==> NamesResolve(instanceRows, rows))
  {
    hide Linked, Built, AllMade, NoneMade, Restored, Instances, Survives, Dangles, Closed, NamesResolve;
    nodes := map[];
    instances := MakeInstances(instanceRows);
    var objects := MakeNodes(instanceRows, rows, instances);
    made := objects;
    MadeIs(instanceRows, rows, made);
    var gaps;
    panic, gaps := LinkRows(rows, instances, objects);
    if panic {
      return;
    }
    nodes := Delete(objects, gaps);
    forall k | 0 <= k < |rows| && rows[k].identifier in nodes
      ensures Restored(rows[k], nodes[rows[k].identifier], instances, made)
    {
      LinkedIsRestored(rows[k], made[rows[k].identifier], instances, made);
    }
    ClosedNodes(instanceRows, rows, instances, nodes, made);
    ClosedIffNamesResolve(instanceRows, rows);
  }

  /** Closed objects are closed rows. */
  lemma ClosedNodes(instanceRows: seq<InstanceRow>, rows: seq<Row>, instances: map<Id, Instance>, nodes: map<Id, Node>,
                    made: map<Id, Node>)
    requires Keyed(instanceRows, rows) && forall n | n in made :: made[n].identifier == n
    requires forall n | n in nodes :: n in made && nodes[n] == made[n]
                                      && exists k :: 0 <= k < |rows| && rows[k].identifier == n
    requires forall k | 0 <= k < |rows| ::
               && (rows[k].identifier in nodes <==> Survives(instanceRows, rows, rows[k]))
               && (rows[k].identifier in nodes ==> Restored(rows[k], nodes[rows[k].identifier], instances, made))
    ensures Closed(nodes) <==> SurvivorsClosed(instanceRows, rows)
  {
    hide Survives;
    if Closed(nodes) {
      forall k, n | 0 <= k < |rows| && Survives(instanceRows, rows, rows[k]) && LinksTo(rows[k], n)
        ensures exists l :: 0 <= l < |rows| && rows[l].identifier == n && Survives(instanceRows, rows, rows[l])
      {
        SlotOf(rows[k], nodes[rows[k].identifier], instances, made, n);
        assert n in nodes;
      }
    }
    if SurvivorsClosed(instanceRows, rows) {
      forall n | n in nodes
        ensures Inside(nodes[n].sources, nodes) && Inside(nodes[n].destinations, nodes)
      {
        var k :| 0 <= k < |rows| && rows[k].identifier == n;
        assert Restored(rows[k], nodes[n], instances, made);
        forall i | LinksTo(rows[k], i)
          ensures i in nodes
        {
        }
        PointsInside(rows[k].sourceIdentifiers, nodes[n].sources, nodes, made);
        PointsInside(rows[k].destinationIdentifiers, nodes[n].destinations, nodes, made);
      }
    }
  }

  lemma PointsInside(ids: seq<Id>, slots: seq<Node?>, nodes: map<Id, Node>, made: map<Id, Node>)
    requires Points(ids, slots, made) && forall n | n in made :: made[n].identifier == n
    requires forall n | n in nodes :: n in made && nodes[n] == made[n]
    requires forall i | i in ids :: i in nodes
    ensures Inside(slots, nodes)
  {
    forall i | 0 <= i < |slots|
      ensures slots[i] != null && slots[i] in nodes.Values && slots[i].identifier in nodes
              && nodes[slots[i].identifier] == slots[i]
    {
      assert ids[i] in ids && nodes[ids[i]] == slots[i];
    }
  }

  lemma SlotOf(row: Row, node: Node, instances: map<Id, Instance>, made: map<Id, Node>, n: Id)
    requires Restored(row, node, instances, made) && LinksTo(row, n)
    ensures n in made && (made[n] in node.sources || made[n] in node.destinations)
  {
    if n in row.sourceIdentifiers {
      var i :| 0 <= i < |row.sourceIdentifiers| && row.sourceIdentifiers[i] == n;
      assert node.sources[i] == made[n];
    } else {
      var i :| 0 <= i < |row.destinationIdentifiers| && row.destinationIdentifiers[i] == n;
      assert node.destinations[i] == made[n];
    }
  }

  lemma MadeIs(instanceRows: seq<InstanceRow>, rows: seq<Row>, made: map<Id, Node>)
    requires Keyed(instanceRows, rows)
    requires forall n | n in made :: Made(instanceRows, rows, n)
    requires forall k | 0 <= k < |rows| :: rows[k].identifier in made <==> HasInstance(instanceRows, rows[k])
    ensures forall k | 0 <= k < |rows| ::
      && (Dangles(instanceRows, rows, rows[k]) <==> rows[k].identifier !in made && !NoneMade(rows[k], made))
      && (Survives(instanceRows, rows, rows[k]) <==> rows[k].identifier in made && AllMade(rows[k], made))
  {
  }

  // ---------------------------------------------------------------- there and back

  /** The rows of this state, in any order. */
  ghost predicate Snapshot(b: M.State, instanceRows: seq<InstanceRow>, rows: seq<Row>) {
    && Keyed(instanceRows, rows)
    && (forall k | 0 <= k < |rows| ::
          rows[k].identifier in b.nodes && RowSays(rows[k], rows[k].identifier, b.nodes[rows[k].identifier]))
    && (forall n | n in b.nodes :: exists k :: 0 <= k < |rows| && rows[k].identifier == n)
    && (forall k | 0 <= k < |instanceRows| ::
          instanceRows[k].identifier in b.instances && instanceRows[k].order == b.instances[instanceRows[k].identifier])
    && forall i | i in b.instances :: exists k :: 0 <= k < |instanceRows| && instanceRows[k].identifier == i
  }

  lemma EveryNodeIsMade(b: M.State, instanceRows: seq<InstanceRow>, rows: seq<Row>, n: Id)
    requires Snapshot(b, instanceRows, rows) && M.AllKnown(b) && n in b.nodes
    ensures Made(instanceRows, rows, n)
  {
  }

  /** From a snapshot of a whole graph every row survives, and no row dangles. */
  lemma NothingIsLost(b: M.State, instanceRows: seq<InstanceRow>, rows: seq<Row>, k: nat)
    requires Snapshot(b, instanceRows, rows) && k < |rows|
    requires M.AllKnown(b) && M.SourcesKnown(b) && M.DestinationsKnown(b)
    ensures Survives(instanceRows, rows, rows[k]) && !Dangles(instanceRows, rows, rows[k])
  {
    var row := rows[k];
    assert row.instanceIdentifier in b.instances;
    assert HasInstance(instanceRows, row);
    forall s | s in row.sourceIdentifiers || s in row.destinationIdentifiers
      ensures Made(instanceRows, rows, s)
    {
      EveryNodeIsMade(b, instanceRows, rows, s);
    }
    hide Snapshot, HasInstance, Made;
  }

  /** The loaded object is the node: its fields, and its slots filled with the loaded sources and destinations. */
  ghost predicate Rebuilt(n: Id, v: M.Node, node: Node, instances: map<Id, Instance>, nodes: map<Id, Node>)
    reads node
  {
    && node.identifier == n && node.functionName == v.decl.functionName && node.functionHash == v.decl.functionHash
    && node.queueName == v.decl.queueName && node.taintName == v.decl.taintName && node.arguments == v.decl.arguments
    && v.decl.instance in instances && node.instance == instances[v.decl.instance]
    && Points(v.decl.sources, node.sources, nodes) && Points(v.destinations, node.destinations, nodes)
  }

  lemma RestoredIsRebuilt(row: Row, v: M.Node, node: Node, instances: map<Id, Instance>, nodes: map<Id, Node>,
                          made: map<Id, Node>)
    requires Restored(row, node, instances, made) && RowSays(row, row.identifier, v)
    requires forall n | n in nodes :: n in made && nodes[n] == made[n]
    requires forall i | 0 <= i < |v.decl.sources| :: v.decl.sources[i] in nodes
    requires forall i | 0 <= i < |v.destinations| :: v.destinations[i] in nodes
    ensures Rebuilt(row.identifier, v, node, instances, nodes)
  {
  }

  lemma LinksKnown(b: M.State, n: Id)
    requires M.SourcesKnown(b) && M.DestinationsKnown(b) && n in b.nodes
    ensures forall i | 0 <= i < |b.nodes[n].decl.sources| :: b.nodes[n].decl.sources[i] in b.nodes
    ensures forall i | 0 <= i < |b.nodes[n].destinations| :: b.nodes[n].destinations[i] in b.nodes
  {
  }

  /** Loading a snapshot rebuilds the same graph, pointer by pointer, with the same instance orders. */
  method Reload(ghost b: M.State, instanceRows: seq<InstanceRow>, rows: seq<Row>)
    returns (instances: map<Id, Instance>, nodes: map<Id, Node>)
    requires Snapshot(b, instanceRows, rows) && M.AllKnown(b) && M.SourcesKnown(b) && M.DestinationsKnown(b)
    ensures nodes.Keys == b.nodes.Keys && forall n | n in nodes :: Rebuilt(n, b.nodes[n], nodes[n], instances, nodes)
    ensures instances.Keys == b.instances.Keys
    ensures forall i | i in instances :: instances[i].identifier == i && instances[i].order == b.instances[i]
  {
    hide Survives, Dangles, Closed, NamesResolve, Restored, Rebuilt, RowSays;
    forall k | 0 <= k < |rows|
      ensures Survives(instanceRows, rows, rows[k]) && !Dangles(instanceRows, rows, rows[k])
    {
      NothingIsLost(b, instanceRows, rows, k);
    }
    var panic;
    ghost var made;
    panic, instances, nodes, made := Load(instanceRows, rows);
    forall n | n in nodes
      ensures Rebuilt(n, b.nodes[n], nodes[n], instances, nodes)
    {
      var k :| 0 <= k < |rows| && rows[k].identifier == n;
      LinksKnown(b, n);
      RestoredIsRebuilt(rows[k], b.nodes[n], nodes[n], instances, nodes, made);
    }
  }

  /** Written and loaded again: the same fields, and pointers to what the old pointers became. */
  ghost predicate Copied(original: B.DAGNode, copy: Node, instances: map<Id, Instance>, nodes: map<Id, Node>)
    reads original, copy
  {
    && copy.identifier == original.identifier && copy.functionName == original.functionName
    && copy.functionHash == original.functionHash && copy.queueName == original.queueName
    && copy.taintName == original.taintName
    && copy.arguments == original.arguments && original.instance.identifier in instances
    && copy.instance == instances[original.instance.identifier]
    && SamePointers(original.sources, copy.sources, nodes)
    && SamePointers(original.destinations, copy.destinations, nodes)
  }

  ghost predicate SamePointers(olds: seq<B.DAGNode>, news: seq<Node?>, nodes: map<Id, Node>) {
    |news| == |olds|
    && forall k | 0 <= k < |olds| :: olds[k].identifier in nodes && news[k] == nodes[olds[k].identifier]
  }

  /** The objects are all those of the broker, each once, in whatever order the database returns them. */
  ghost predicate AllOf(broker: B.Broker, nodes: seq<B.DAGNode>, instances: seq<B.DAGInstance>)
    reads broker
  {
    && (forall i, j | 0 <= i < j < |nodes| :: nodes[i] != nodes[j])
    && (forall k | 0 <= k < |nodes| :: broker.Knows(nodes[k]))
    && (forall n | n in broker.nodes :: exists k :: 0 <= k < |nodes| && nodes[k] == broker.nodes[n])
    && (forall i, j | 0 <= i < j < |instances| :: instances[i] != instances[j])
    && (forall k | 0 <= k < |instances| :: broker.KnowsInstance(instances[k]))
    && forall i | i in broker.instances :: exists k :: 0 <= k < |instances| && instances[k] == broker.instances[i]
  }

  method WriteNodes(nodes: seq<B.DAGNode>) returns (rows: seq<Row>)
    ensures |rows| == |nodes| && forall k | 0 <= k < |nodes| ::
              rows[k].identifier == nodes[k].identifier && RowSays(rows[k], nodes[k].identifier, nodes[k].Abs())
  {
    hide RowOf, RowSays;
    rows := [];
    for k := 0 to |nodes|
      invariant |rows| == k && forall j | 0 <= j < k ::
        rows[j].identifier == nodes[j].identifier && RowSays(rows[j], nodes[j].identifier, nodes[j].Abs())
    {
      var row := ToRow(nodes[k]);
      rows := rows + [row];
    }
  }

  method WriteInstances(instances: seq<B.DAGInstance>) returns (rows: seq<InstanceRow>)
    ensures |rows| == |instances|
    ensures forall k | 0 <= k < |instances| :: rows[k] == InstanceRow(instances[k].identifier, instances[k].order)
  {
    rows := [];
    for k := 0 to |instances|
      invariant |rows| == k
      invariant forall j | 0 <= j < k :: rows[j] == InstanceRow(instances[j].identifier, instances[j].order)
    {
      rows := rows + [InstanceRow(instances[k].identifier, instances[k].order)];
    }
  }

  lemma WrittenIsSnapshot(broker: B.Broker, nodes: seq<B.DAGNode>, instances: seq<B.DAGInstance>, rows: seq<Row>,
                          instanceRows: seq<InstanceRow>)
    requires broker.Valid() && AllOf(broker, nodes, instances)
    requires |rows| == |nodes| && forall k | 0 <= k < |nodes| ::
               rows[k].identifier == nodes[k].identifier && RowSays(rows[k], nodes[k].identifier, nodes[k].Abs())
    requires |instanceRows| == |instances| && forall k | 0 <= k < |instances| ::
               instanceRows[k] == InstanceRow(instances[k].identifier, instances[k].order)
    ensures Snapshot(broker.state, instanceRows, rows)
  {
    hide B.Broker.Valid, RowSays, B.DAGNode.Abs;
    broker.StateValues();
  }

  /** What is written of a valid broker loads as the same graph, object by object and pointer by pointer. */
  method WriteAndLoad(broker: B.Broker, nodes: seq<B.DAGNode>, instances: seq<B.DAGInstance>)
    returns (loadedInstances: map<Id, Instance>, loaded: map<Id, Node>)
    requires broker.Valid() && AllOf(broker, nodes, instances)
    ensures loaded.Keys == broker.nodes.Keys && loadedInstances.Keys == broker.instances.Keys
    ensures forall n | n in loaded :: Copied(broker.nodes[n], loaded[n], loadedInstances, loaded)
    ensures forall i | i in loadedInstances ::
              loadedInstances[i].identifier == i && loadedInstances[i].order == broker.instances[i].order
  {
    hide B.Broker.Valid, Snapshot, Rebuilt, Copied, B.DAGNode.Abs, AllOf, RowSays, M.AllKnown;
    broker.NodeKeys();
    broker.PointersKnown();
    assert forall o | o in broker.Repr() :: allocated(o);
    var instanceRows := WriteInstances(instances);
    var rows := WriteNodes(nodes);
    WrittenIsSnapshot(broker, nodes, instances, rows, instanceRows);
    loadedInstances, loaded := Reload(broker.state, instanceRows, rows);
    broker.StateValues();
    AllCopied(broker, loadedInstances, loaded);
  }

  lemma AllCopied(broker: B.Broker, instances: map<Id, Instance>, nodes: map<Id, Node>)
    requires broker.Valid() && nodes.Keys == broker.state.nodes.Keys
    requires forall n | n in nodes :: Rebuilt(n, broker.state.nodes[n], nodes[n], instances, nodes)
    ensures nodes.Keys == broker.nodes.Keys
    ensures forall n | n in nodes :: Copied(broker.nodes[n], nodes[n], instances, nodes)
  {
    hide B.Broker.Valid, Rebuilt, Copied, B.DAGNode.Abs;
    broker.StateValues();
    forall n | n in nodes
      ensures Copied(broker.nodes[n], nodes[n], instances, nodes)
    {
      RebuiltIsCopied(broker.nodes[n], nodes[n], instances, nodes);
    }
  }

  lemma RebuiltIsCopied(node: B.DAGNode, copy: Node, instances: map<Id, Instance>, nodes: map<Id, Node>)
    requires Rebuilt(node.identifier, node.Abs(), copy, instances, nodes)
    ensures Copied(node, copy, instances, nodes)
  {
    assert forall k | 0 <= k < |node.sources| :: B.NodeIds(node.sources)[k] == node.sources[k].identifier;
    assert forall k | 0 <= k < |node.destinations| ::
        B.NodeIds(node.destinations)[k] == node.destinations[k].identifier;
  }

  const ONE_INSTANCE := [InstanceRow("i", 0)]
  const HALF_MISSING := Row("a", "", "", "", "", M.NO_VALUE, [], ["b", "x"], "i")
  const WHOLE := Row("b", "", "", "", "", M.NO_VALUE, ["a"], [], "i")

  lemma ExampleRows()
    ensures var rows := [HALF_MISSING, WHOLE];
      && Keyed(ONE_INSTANCE, rows) && Survives(ONE_INSTANCE, rows, WHOLE) && !Survives(ONE_INSTANCE, rows, HALF_MISSING)
      && !Dangles(ONE_INSTANCE, rows, HALF_MISSING) && !Dangles(ONE_INSTANCE, rows, WHOLE)
  {
    var rows := [HALF_MISSING, WHOLE];
    assert ONE_INSTANCE[0].identifier == "i" && rows[0] == HALF_MISSING && rows[1] == WHOLE;
    assert HasInstance(ONE_INSTANCE, HALF_MISSING) && HasInstance(ONE_INSTANCE, WHOLE);
    assert Made(ONE_INSTANCE, rows, "a");
    assert "x" in HALF_MISSING.destinationIdentifiers && !Made(ONE_INSTANCE, rows, "x");
  }

  /**
   * Without the whole graph a node that is kept can point to one that was dropped: here "a" is dropped because its
   * destination "x" is missing, and "b", whose source is "a", is kept with its slot filled.
   */
  method LoadWithAGap() returns (nodes: map<Id, Node>)
    ensures nodes.Keys == {"b"} && !Closed(nodes)
    ensures |nodes["b"].sources| == 1 && nodes["b"].sources[0] != null && nodes["b"].sources[0].identifier == "a"
  {
    hide Survives, Dangles, NamesResolve, Instances;
    var rows := [HALF_MISSING, WHOLE];
    ExampleRows();
    assert rows[0] == HALF_MISSING && rows[1] == WHOLE;
    var panic, instances;
    ghost var made;
    panic, instances, nodes, made := Load(ONE_INSTANCE, rows);
    assert Restored(WHOLE, nodes["b"], instances, made);
    assert nodes["b"].sources[0] in nodes["b"].sources;
  }
}
