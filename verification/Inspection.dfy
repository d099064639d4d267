/** dagorama/inspection.py: promises inside nested call arguments. */
module Inspection {
  import opened Basics

  type Id = string

  /** A promise; the copy that is sent to the broker keeps the identifier only. */
  datatype DAGPromise = DAGPromise(identifier: Id, functionName: Option<string>, arguments: Option<Obj>)

  /**
   * A Python value as map_promises sees it. Anything that is neither a container nor a promise is Raw. The items of
   * a set are listed in iteration order. They are hashable, so no promise (a dataclass with equality that is not
   * frozen) occurs in them: see HashableIsUntouched.
   */
  datatype Obj =
    | Raw(value: string)
    | Promised(promise: DAGPromise)
    | PyList(items: seq<Obj>)
    | PyTuple(items: seq<Obj>)
    | PySet(items: seq<Obj>)
    | PyDict(entries: seq<Entry>)

  datatype Entry = Entry(key: string, value: Obj)

  // ---------------------------------------------------------------- map_promises

  function MapPromises(o: Obj, f: DAGPromise -> Result<Obj>): Result<Obj>
    decreases o, 1
  {
    match o
    case Raw(_) => Ok(o)
    case Promised(p) => f(p)
    case PyList(items) => (match MapItems(items, f) case Ok(r) => Ok(PyList(r)) case Err(e) => Err(e))
    case PyTuple(items) => (match MapItems(items, f) case Ok(r) => Ok(PyTuple(r)) case Err(e) => Err(e))
    case PySet(items) => (match MapItems(items, f) case Ok(r) => Ok(PySet(r)) case Err(e) => Err(e))
    case PyDict(entries) => (match MapEntries(entries, f) case Ok(r) => Ok(PyDict(r)) case Err(e) => Err(e))
  }

  function MapItems(items: seq<Obj>, f: DAGPromise -> Result<Obj>): Result<seq<Obj>>
    decreases items, 0
  {
    if items == [] then Ok([])
    else
      match MapPromises(items[0], f)
      case Err(e) => Err(e)
      case Ok(head) => (match MapItems(items[1..], f) case Ok(tail) => Ok([head] + tail) case Err(e) => Err(e))
  }

  function MapEntries(entries: seq<Entry>, f: DAGPromise -> Result<Obj>): Result<seq<Entry>>
    decreases entries, 0
  {
    if entries == [] then Ok([])
    else
      match MapPromises(entries[0].value, f)
      case Err(e) => Err(e)
      case Ok(head) =>
        (match MapEntries(entries[1..], f)
         case Ok(tail) => Ok([Entry(entries[0].key, head)] + tail)
         case Err(e) => Err(e))
  }

  const UNEXPECTED := "Unexpected promise in resolved value"

  function ResolvePromises(o: Obj, resolved: map<Id, Obj>): Result<Obj> {
    MapPromises(o, Resolver(resolved))
  }

  function Resolver(resolved: map<Id, Obj>): DAGPromise -> Result<Obj> {
    (p: DAGPromise) => if p.identifier in resolved then Ok(resolved[p.identifier]) else Err(UNEXPECTED)
  }

  function Simplifier(): DAGPromise -> Result<Obj> {
    (p: DAGPromise) => Ok(Promised(DAGPromise(p.identifier, None, None)))
  }

  function ExtractPromiseIdentifiers(o: Obj): Result<Obj> {
    MapPromises(o, Simplifier())
  }

  // ---------------------------------------------------------------- find_promises

  /** The promises directly inside o, depth first, repetitions included. */
  function Promises(o: Obj): seq<DAGPromise>
    decreases o, 1
  {
    match o
    case Raw(_) => []
    case Promised(p) => [p]
    case PyList(items) => PromisesIn(items)
    case PyTuple(items) => PromisesIn(items)
    case PySet(items) => PromisesIn(items)
    case PyDict(entries) => PromisesUnder(entries)
  }

  function PromisesIn(items: seq<Obj>): seq<DAGPromise>
    decreases items, 0
  {
    if items == [] then [] else Promises(items[0]) + PromisesIn(items[1..])
  }

  function PromisesUnder(entries: seq<Entry>): seq<DAGPromise>
    decreases entries, 0
  {
    if entries == [] then [] else Promises(entries[0].value) + PromisesUnder(entries[1..])
  }

  function Ids(ps: seq<DAGPromise>): seq<Id> {
    seq(|ps|, i requires 0 <= i < |ps| => ps[i].identifier)
  }

  /** The traversal of find_promises: its callback appends every promise met to one shared list. */
  class Finder {
    var found: seq<DAGPromise>

    constructor ()
      ensures found == []
    {
      found := [];
    }

    method Visit(o: Obj)
      modifies this
      ensures found == old(found) + Promises(o)
      decreases o, 1
    {
      match o
      case Raw(_) =>
      case Promised(p) => found := found + [p];
      case PyList(items) => VisitItems(items);
      case PyTuple(items) => VisitItems(items);
      case PySet(items) => VisitItems(items);
      case PyDict(entries) => VisitEntries(entries);
    }

    method VisitItems(items: seq<Obj>)
      modifies this
      ensures found == old(found) + PromisesIn(items)
      decreases items, 0
    {
      for i := 0 to |items|
        invariant found + PromisesIn(items[i..]) == old(found) + PromisesIn(items)
      {
        assert items[i..][0] == items[i] && items[i..][1..] == items[i + 1..];
        Visit(items[i]);
      }
    }

    method VisitEntries(entries: seq<Entry>)
      modifies this
      ensures found == old(found) + PromisesUnder(entries)
      decreases entries, 0
    {
      for i := 0 to |entries|
        invariant found + PromisesUnder(entries[i..]) == old(found) + PromisesUnder(entries)
      {
        assert entries[i..][0] == entries[i] && entries[i..][1..] == entries[i + 1..];
        Visit(entries[i].value);
      }
    }
  }

  method FindPromises(o: Obj) returns (found: seq<DAGPromise>)
    ensures found == Promises(o)
  {
    var finder := new Finder();
    finder.Visit(o);
    found := finder.found;
  }

  // ---------------------------------------------------------------- plain substitution

  /** What calling the function in plain Python would pass: every promise replaced by its value. */
  function Substitute(o: Obj, value: Id -> Obj): Obj
    decreases o, 1
  {
    match o
    case Raw(_) => o
    case Promised(p) => value(p.identifier)
    case PyList(items) => PyList(SubstituteItems(items, value))
    case PyTuple(items) => PyTuple(SubstituteItems(items, value))
    case PySet(items) => PySet(SubstituteItems(items, value))
    case PyDict(entries) => PyDict(SubstituteEntries(entries, value))
  }

  function SubstituteItems(items: seq<Obj>, value: Id -> Obj): seq<Obj>
    decreases items, 0
  {
    if items == [] then [] else [Substitute(items[0], value)] + SubstituteItems(items[1..], value)
  }

  function SubstituteEntries(entries: seq<Entry>, value: Id -> Obj): seq<Entry>
    decreases entries, 0
  {
    if entries == [] then []
    else [Entry(entries[0].key, Substitute(entries[0].value, value))] + SubstituteEntries(entries[1..], value)
  }

  /** The map covers every promise of the list. */
  ghost predicate Covers(resolved: map<Id, Obj>, ps: seq<DAGPromise>) {
    forall p | p in ps :: p.identifier in resolved
  }

  /** The map read as a total function. */
  function Lookup(resolved: map<Id, Obj>): Id -> Obj {
    (i: Id) => if i in resolved then resolved[i] else Raw("")
  }

  /**
   * resolve_promises succeeds exactly when the map covers what find_promises finds, and then it is plain
   * substitution; otherwise it raises.
   */
  lemma {:induction false} ResolveIsSubstitution(o: Obj, m: map<Id, Obj>)
    ensures ResolvePromises(o, m)
         == if Covers(m, Promises(o)) then Ok(Substitute(o, Lookup(m))) else Err(UNEXPECTED)
    decreases o, 1
  {
    match o
    case Raw(_) =>
    case Promised(p) => assert p in Promises(o);
    case PyList(items) => ResolveItems(items, m);
    case PyTuple(items) => ResolveItems(items, m);
    case PySet(items) => ResolveItems(items, m);
    case PyDict(entries) => ResolveEntries(entries, m);
  }

  lemma {:induction false} ResolveItems(items: seq<Obj>, m: map<Id, Obj>)
    ensures MapItems(items, Resolver(m))
         == if Covers(m, PromisesIn(items)) then Ok(SubstituteItems(items, Lookup(m))) else Err(UNEXPECTED)
    decreases items, 0
  {
    if items != [] {
      ResolveIsSubstitution(items[0], m);
      ResolveItems(items[1..], m);
      CoversConcat(m, Promises(items[0]), PromisesIn(items[1..]));
    }
  }

  lemma {:induction false} ResolveEntries(entries: seq<Entry>, m: map<Id, Obj>)
    ensures MapEntries(entries, Resolver(m))
         == if Covers(m, PromisesUnder(entries)) then Ok(SubstituteEntries(entries, Lookup(m))) else Err(UNEXPECTED)
    decreases entries, 0
  {
    if entries != [] {
      ResolveIsSubstitution(entries[0].value, m);
      ResolveEntries(entries[1..], m);
      CoversConcat(m, Promises(entries[0].value), PromisesUnder(entries[1..]));
    }
  }

  lemma CoversConcat(m: map<Id, Obj>, ps: seq<DAGPromise>, qs: seq<DAGPromise>)
    ensures Covers(m, ps + qs) <==> Covers(m, ps) && Covers(m, qs)
  {
  }

  // ---------------------------------------------------------------- extraction

  /**
   * Reducing promises to their identifiers before sending never fails, keeps the sequence of identifiers, and
   * commutes with substitution.
   */
  lemma {:induction false} ExtractKeepsMeaning(o: Obj, value: Id -> Obj)
    ensures ExtractPromiseIdentifiers(o).Ok?
    ensures Ids(Promises(ExtractPromiseIdentifiers(o).value)) == Ids(Promises(o))
    ensures Substitute(ExtractPromiseIdentifiers(o).value, value) == Substitute(o, value)
    decreases o, 1
  {
    match o
    case Raw(_) =>
    case Promised(p) =>
    case PyList(items) => ExtractItems(items, value);
    case PyTuple(items) => ExtractItems(items, value);
    case PySet(items) => ExtractItems(items, value);
    case PyDict(entries) => ExtractEntries(entries, value);
  }

  lemma {:induction false} ExtractItems(items: seq<Obj>, value: Id -> Obj)
    ensures MapItems(items, Simplifier()).Ok?
    ensures Ids(PromisesIn(MapItems(items, Simplifier()).value)) == Ids(PromisesIn(items))
    ensures SubstituteItems(MapItems(items, Simplifier()).value, value) == SubstituteItems(items, value)
    decreases items, 0
  {
    if items != [] {
      ExtractKeepsMeaning(items[0], value);
      ExtractItems(items[1..], value);
      var head, tail := ExtractPromiseIdentifiers(items[0]).value, MapItems(items[1..], Simplifier()).value;
      assert ([head] + tail)[1..] == tail;
      IdsConcat(Promises(head), PromisesIn(tail));
      IdsConcat(Promises(items[0]), PromisesIn(items[1..]));
    }
  }

  lemma {:induction false} ExtractEntries(entries: seq<Entry>, value: Id -> Obj)
    ensures MapEntries(entries, Simplifier()).Ok?
    ensures Ids(PromisesUnder(MapEntries(entries, Simplifier()).value)) == Ids(PromisesUnder(entries))
    ensures SubstituteEntries(MapEntries(entries, Simplifier()).value, value) == SubstituteEntries(entries, value)
    decreases entries, 0
  {
    if entries != [] {
      ExtractKeepsMeaning(entries[0].value, value);
      ExtractEntries(entries[1..], value);
      var head := Entry(entries[0].key, ExtractPromiseIdentifiers(entries[0].value).value);
      var tail := MapEntries(entries[1..], Simplifier()).value;
      assert ([head] + tail)[1..] == tail;
      IdsConcat(Promises(head.value), PromisesUnder(tail));
      IdsConcat(Promises(entries[0].value), PromisesUnder(entries[1..]));
    }
  }

  lemma IdsConcat(ps: seq<DAGPromise>, qs: seq<DAGPromise>)
    ensures Ids(ps + qs) == Ids(ps) + Ids(qs)
  {
  }

  lemma IdsMember(ps: seq<DAGPromise>, i: Id)
    ensures i in Ids(ps) <==> exists p :: p in ps && p.identifier == i
  {
    if i in Ids(ps) {
      var k :| 0 <= k < |ps| && Ids(ps)[k] == i;
      assert ps[k] in ps;
    }
    if p :| p in ps && p.identifier == i {
      var k :| 0 <= k < |ps| && ps[k] == p;
      assert Ids(ps)[k] == i;
    }
  }

  /** The worker, who only sees the extracted arguments, resolves them to what the caller's own arguments mean. */
  lemma ResolveAfterExtract(o: Obj, m: map<Id, Obj>)
    ensures ExtractPromiseIdentifiers(o).Ok?
    ensures ResolvePromises(ExtractPromiseIdentifiers(o).value, m) == ResolvePromises(o, m)
  {
    ExtractKeepsMeaning(o, Lookup(m));
    var x := ExtractPromiseIdentifiers(o).value;
    ResolveIsSubstitution(o, m);
    ResolveIsSubstitution(x, m);
    CoversByIds(m, Promises(o));
    CoversByIds(m, Promises(x));
  }

  lemma CoversByIds(m: map<Id, Obj>, ps: seq<DAGPromise>)
    ensures Covers(m, ps) <==> forall i | i in Ids(ps) :: i in m
  {
    if Covers(m, ps) {
      forall i | i in Ids(ps) ensures i in m { IdsMember(ps, i); }
    }
    if forall i | i in Ids(ps) :: i in m {
      forall p | p in ps ensures p.identifier in m { IdsMember(ps, p.identifier); }
    }
  }

  /** A hashable value: the only kind a Python set can hold. */
  ghost predicate Hashable(o: Obj) {
    o.Raw? || (o.PyTuple? && forall x | x in o.items :: Hashable(x))
  }

  /** No mapper can change, or fail on, a hashable value, so rebuilding a set never merges two of its items. */
  lemma {:induction false} HashableIsUntouched(o: Obj, f: DAGPromise -> Result<Obj>)
    requires Hashable(o)
    ensures MapPromises(o, f) == Ok(o) && Promises(o) == []
    decreases o, 1
  {
    if o.PyTuple? {
      HashableItems(o.items, f);
    }
  }

  lemma {:induction false} HashableItems(items: seq<Obj>, f: DAGPromise -> Result<Obj>)
    requires forall x | x in items :: Hashable(x)
    ensures MapItems(items, f) == Ok(items) && PromisesIn(items) == []
    decreases items, 0
  {
    if items != [] {
      HashableIsUntouched(items[0], f);
      HashableItems(items[1..], f);
      assert items == [items[0]] + items[1..];
    }
  }
}
