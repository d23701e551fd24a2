/**
 * `stableJsonValue`: copying a JavaScript value graph into a canonical JSON tree.
 *
 * A heap maps object identities to arrays, objects and proxies, so values may share
 * nodes and may be cyclic. Strings are sequences of code units.
 */
module CanonicalJson {
  import opened Sequences
  import opened Sorting
  import Aliases

  datatype Value =
    | Null
    | Bool(flag: bool)
    | Str(text: string)
    | Num(number: real)
    | NegativeZero
    | NonFinite
    | Unstable           // undefined, bigint, function, symbol
    | Ref(at: nat)

  datatype Slot = Data(value: Value) | Accessor | Hidden
  datatype Field = Field(key: string, slot: Slot)

  datatype Node =
    | ArrayNode(foreignPrototype: bool, irregular: bool, items: seq<Value>)
    | ObjectNode(foreignPrototype: bool, symbolKeys: bool, fields: seq<Field>)
    | ProxyNode

  type Heap = map<nat, Node>

  datatype Json =
    | JNull
    | JBool(flag: bool)
    | JStr(text: string)
    | JNum(number: real)
    | JArray(items: seq<Json>)
    | JObject(members: seq<Member>)

  datatype Member = Member(key: string, value: Json)

  datatype Error = Cycle | Refused
  datatype Result<T> = Ok(value: T) | Err(error: Error)

  // ----- key order

  predicate FieldLe(a: Field, b: Field) { TextLe(a.key, b.key) }
  predicate MemberLe(a: Member, b: Member) { TextLe(a.key, b.key) }

  function Digits(s: string): Option<nat> {
    if s == "" then Some(0)
    else
      var c := s[|s| - 1];
      match Digits(s[..|s| - 1])
      case None => None
      case Some(n) => if '0' <= c <= '9' then Some(10 * n + (c as int - '0' as int)) else None
  }

  /** The number a key writes when JavaScript treats it as an array index. */
  function ArrayIndex(key: string): Option<nat> {
    if key == "" || (key[0] == '0' && |key| > 1) then None
    else match Digits(key)
      case Some(n) => if n < 0xFFFF_FFFF then Some(n) else None
      case None => None
  }

  /** Objects enumerate index keys by value, then the others in creation order. */
  predicate EnumeratesBefore(a: Member, b: Member) {
    match (ArrayIndex(a.key), ArrayIndex(b.key))
    case (Some(m), Some(n)) => m <= n
    case (_, None) => true
    case (None, Some(_)) => false
  }

  /** Keys inserted in text order, then listed as `JSON.stringify` lists them. */
  function Listed(members: seq<Member>): seq<Member> {
    Sort(EnumeratesBefore, Sort(MemberLe, members))
  }

  // ----- canonicalization

  function Canon(heap: Heap, v: Value, ancestors: set<nat>): Result<Json>
    decreases |heap.Keys - ancestors|, 0
  {
    match v
    case Null => Ok(JNull)
    case Bool(flag) => Ok(JBool(flag))
    case Str(text) => Ok(JStr(text))
    case Num(number) => Ok(JNum(number))
    case NegativeZero => Ok(JNum(0.0))
    case NonFinite => Err(Refused)
    case Unstable => Err(Refused)
    case Ref(at) =>
      if at !in heap then Err(Refused)
      else match heap[at]
        case ProxyNode => Err(Refused)
        case ArrayNode(foreignPrototype, irregular, items) =>
          if foreignPrototype then Err(Refused)
          else if at in ancestors then Err(Cycle)
          else if irregular then Err(Refused)
          else
            Descends(heap, ancestors, at);
            (match CanonItems(heap, items, ancestors + {at}, |items|)
            case Err(e) => Err(e)
            case Ok(list) => Ok(JArray(list)))
        case ObjectNode(foreignPrototype, symbolKeys, fields) =>
          if at in ancestors then Err(Cycle)
          else if foreignPrototype || symbolKeys then Err(Refused)
          else
            Descends(heap, ancestors, at);
            (match CanonFields(heap, Sort(FieldLe, fields), ancestors + {at}, |Sort(FieldLe, fields)|)
            case Err(e) => Err(e)
            case Ok(list) => Ok(JObject(Sort(EnumeratesBefore, list))))
  }

  function CanonItems(heap: Heap, items: seq<Value>, ancestors: set<nat>, n: nat): Result<seq<Json>>
    requires n <= |items|
    decreases |heap.Keys - ancestors|, n + 1
  {
    if n == 0 then Ok([])
    else match CanonItems(heap, items, ancestors, n - 1)
      case Err(e) => Err(e)
      case Ok(list) =>
        match Canon(heap, items[n - 1], ancestors)
        case Err(e) => Err(e)
        case Ok(j) => Ok(list + [j])
  }

  function CanonSlot(heap: Heap, slot: Slot, ancestors: set<nat>): Result<Json>
    decreases |heap.Keys - ancestors|, 1
  {
    if slot.Data? then Canon(heap, slot.value, ancestors) else Err(Refused)
  }

  function CanonFields(heap: Heap, fields: seq<Field>, ancestors: set<nat>, n: nat): Result<seq<Member>>
    requires n <= |fields|
    decreases |heap.Keys - ancestors|, n + 2
  {
    if n == 0 then Ok([])
    else match CanonFields(heap, fields, ancestors, n - 1)
      case Err(e) => Err(e)
      case Ok(list) =>
        match CanonSlot(heap, fields[n - 1].slot, ancestors)
        case Err(e) => Err(e)
        case Ok(j) => Ok(list + [Member(fields[n - 1].key, j)])
  }

  lemma Descends(heap: Heap, ancestors: set<nat>, at: nat)
    requires at in heap && at !in ancestors
    ensures |heap.Keys - (ancestors + {at})| < |heap.Keys - ancestors|
  {
    assert heap.Keys - ancestors == (heap.Keys - (ancestors + {at})) + {at};
  }

  /** The mutable set that the recursion shares. */
  class Ancestors {
    var members: set<nat>
    constructor ()
      ensures members == {}
    {
      members := {};
    }
  }

  /** Lines 910 to 1010. A copy that succeeds leaves the ancestor set as it found it. */
  method StableJsonValue(heap: Heap, v: Value, ancestors: Ancestors) returns (r: Result<Json>)
    modifies ancestors
    ensures r == Canon(heap, v, old(ancestors.members))
    ensures r.Ok? ==> ancestors.members == old(ancestors.members)
    decreases |heap.Keys - ancestors.members|, 1
  {
    match v
    case Null => return Ok(JNull);
    case Bool(flag) => return Ok(JBool(flag));
    case Str(text) => return Ok(JStr(text));
    case Num(number) => return Ok(JNum(number));
    case NegativeZero => return Ok(JNum(0.0));
    case NonFinite => return Err(Refused);
    case Unstable => return Err(Refused);
    case Ref(at) =>
      if at !in heap || heap[at].ProxyNode? { return Err(Refused); }
      if heap[at].ArrayNode? {
        r := StableArray(heap, at, ancestors);
      } else {
        r := StableObject(heap, at, ancestors);
      }
  }

  /** Lines 927 to 968. */
  method StableArray(heap: Heap, at: nat, ancestors: Ancestors) returns (r: Result<Json>)
    requires at in heap && heap[at].ArrayNode?
    modifies ancestors
    ensures r == Canon(heap, Ref(at), old(ancestors.members))
    ensures r.Ok? ==> ancestors.members == old(ancestors.members)
    decreases |heap.Keys - ancestors.members|, 0
  {
    var ArrayNode(foreignPrototype, irregular, items) := heap[at];
    if foreignPrototype { return Err(Refused); }
    if at in ancestors.members { return Err(Cycle); }
    if irregular { return Err(Refused); }
    Descends(heap, ancestors.members, at);
    ancestors.members := ancestors.members + {at};
    var list: seq<Json> := [];
    for i := 0 to |items|
      invariant ancestors.members == old(ancestors.members) + {at}
      invariant CanonItems(heap, items, ancestors.members, i) == Ok(list)
    {
      var item := StableJsonValue(heap, items[i], ancestors);
      if item.Err? {
        FailedItems(heap, items, old(ancestors.members) + {at}, i);
        return Err(item.error);
      }
      list := list + [item.value];
    }
    ancestors.members := ancestors.members - {at};
    return Ok(JArray(list));
  }

  /** Lines 969 to 1007. */
  method StableObject(heap: Heap, at: nat, ancestors: Ancestors) returns (r: Result<Json>)
    requires at in heap && heap[at].ObjectNode?
    modifies ancestors
    ensures r == Canon(heap, Ref(at), old(ancestors.members))
    ensures r.Ok? ==> ancestors.members == old(ancestors.members)
    decreases |heap.Keys - ancestors.members|, 0
  {
    var ObjectNode(foreignPrototype, symbolKeys, fields) := heap[at];
    if at in ancestors.members { return Err(Cycle); }
    if foreignPrototype { return Err(Refused); }
    Descends(heap, ancestors.members, at);
    ancestors.members := ancestors.members + {at};
    if symbolKeys { return Err(Refused); }
    var sorted := Sort(FieldLe, fields);
    var list: seq<Member> := [];
    for i := 0 to |sorted|
      invariant ancestors.members == old(ancestors.members) + {at}
      invariant CanonFields(heap, sorted, ancestors.members, i) == Ok(list)
    {
      if !sorted[i].slot.Data? {
        FailedFields(heap, sorted, old(ancestors.members) + {at}, i);
        return Err(Refused);
      }
      var entry := StableJsonValue(heap, sorted[i].slot.value, ancestors);
      if entry.Err? {
        FailedFields(heap, sorted, old(ancestors.members) + {at}, i);
        return Err(entry.error);
      }
      list := list + [Member(sorted[i].key, entry.value)];
    }
    ancestors.members := ancestors.members - {at};
    return Ok(JObject(Sort(EnumeratesBefore, list)));
  }

  /** The first item that fails decides the result of the whole list. */
  lemma {:induction false} FailedItemsRest(heap: Heap, items: seq<Value>, ancestors: set<nat>, i: nat, n: nat)
    requires i <= n <= |items| && CanonItems(heap, items, ancestors, i).Err?
    ensures CanonItems(heap, items, ancestors, n) == CanonItems(heap, items, ancestors, i)
    decreases n
  {
    if i < n { FailedItemsRest(heap, items, ancestors, i, n - 1); }
  }

  lemma FailedItems(heap: Heap, items: seq<Value>, ancestors: set<nat>, i: nat)
    requires i < |items| && CanonItems(heap, items, ancestors, i).Ok? && Canon(heap, items[i], ancestors).Err?
    ensures CanonItems(heap, items, ancestors, |items|) == Err(Canon(heap, items[i], ancestors).error)
  {
    FailedItemsRest(heap, items, ancestors, i + 1, |items|);
  }

  lemma {:induction false} FailedFieldsRest(heap: Heap, fields: seq<Field>, ancestors: set<nat>, i: nat, n: nat)
    requires i <= n <= |fields| && CanonFields(heap, fields, ancestors, i).Err?
    ensures CanonFields(heap, fields, ancestors, n) == CanonFields(heap, fields, ancestors, i)
    decreases n
  {
    if i < n { FailedFieldsRest(heap, fields, ancestors, i, n - 1); }
  }

  lemma FailedFields(heap: Heap, fields: seq<Field>, ancestors: set<nat>, i: nat)
    requires i < |fields| && CanonFields(heap, fields, ancestors, i).Ok? && CanonSlot(heap, fields[i].slot, ancestors).Err?
    ensures CanonFields(heap, fields, ancestors, |fields|) == Err(CanonSlot(heap, fields[i].slot, ancestors).error)
  {
    FailedFieldsRest(heap, fields, ancestors, i + 1, |fields|);
  }

  // ----- cycles

  /** `b` is a value held directly by node `a`. */
  ghost predicate Child(heap: Heap, a: nat, b: Value) {
    && a in heap
    && match heap[a]
       case ArrayNode(_, _, items) => b in items
       case ObjectNode(_, _, fields) => exists i :: 0 <= i < |fields| && fields[i].slot == Data(b)
       case ProxyNode => false
  }

  ghost predicate Path(heap: Heap, p: seq<nat>) {
    p != [] && forall i :: 0 < i < |p| ==> Child(heap, p[i - 1], Ref(p[i]))
  }

  /** A path from `v` that comes back to a node it has already visited. */
  ghost predicate CyclicPath(heap: Heap, v: Value, p: seq<nat>) {
    && Path(heap, p)
    && v == Ref(p[0])
    && Returns(p)
  }

  ghost predicate Returns(p: seq<nat>) {
    exists i :: 0 <= i < |p| - 1 && p[i] == p[|p| - 1]
  }

  ghost predicate PlainValue(heap: Heap, v: Value) {
    !v.NonFinite? && !v.Unstable? && (v.Ref? ==> v.at in heap)
  }

  /** Arrays, plain objects and scalars only. */
  ghost predicate PlainNode(heap: Heap, a: nat)
    requires a in heap
  {
    match heap[a]
    case ArrayNode(foreignPrototype, irregular, items) =>
      !foreignPrototype && !irregular && forall i :: 0 <= i < |items| ==> PlainValue(heap, items[i])
    case ObjectNode(foreignPrototype, symbolKeys, fields) =>
      !foreignPrototype && !symbolKeys &&
      forall i :: 0 <= i < |fields| ==> fields[i].slot.Data? && PlainValue(heap, fields[i].slot.value)
    case ProxyNode => false
  }

  ghost predicate PathFrom(heap: Heap, v: Value, p: seq<nat>) { Path(heap, p) && v == Ref(p[0]) }

  ghost predicate Reaches(heap: Heap, v: Value, a: nat) {
    exists p :: PathFrom(heap, v, p) && p[|p| - 1] == a
  }

  /** Nothing but arrays, plain objects and scalars can be reached. */
  ghost predicate PlainFrom(heap: Heap, v: Value) {
    PlainValue(heap, v) && forall a :: Reaches(heap, v, a) ==> a in heap && PlainNode(heap, a)
  }

  lemma {:induction false} EveryItemOk(heap: Heap, items: seq<Value>, ancestors: set<nat>, n: nat, i: nat)
    requires i < n <= |items| && CanonItems(heap, items, ancestors, n).Ok?
    ensures Canon(heap, items[i], ancestors).Ok?
    decreases n
  {
    if i < n - 1 { EveryItemOk(heap, items, ancestors, n - 1, i); }
  }

  lemma {:induction false} EveryFieldOk(heap: Heap, fields: seq<Field>, ancestors: set<nat>, n: nat, i: nat)
    requires i < n <= |fields| && CanonFields(heap, fields, ancestors, n).Ok?
    ensures CanonSlot(heap, fields[i].slot, ancestors).Ok?
    decreases n
  {
    if i < n - 1 { EveryFieldOk(heap, fields, ancestors, n - 1, i); }
  }

  lemma ChildOk(heap: Heap, a: nat, b: Value, ancestors: set<nat>)
    requires Canon(heap, Ref(a), ancestors).Ok? && Child(heap, a, b)
    ensures a !in ancestors && Canon(heap, b, ancestors + {a}).Ok?
  {
    match heap[a]
    case ArrayNode(_, _, items) =>
      var i :| 0 <= i < |items| && items[i] == b;
      EveryItemOk(heap, items, ancestors + {a}, |items|, i);
    case ObjectNode(_, _, fields) =>
      var i :| 0 <= i < |fields| && fields[i].slot == Data(b);
      SortPermutes(FieldLe, fields);
      assert fields[i] in Sort(FieldLe, fields);
      var j :| 0 <= j < |Sort(FieldLe, fields)| && Sort(FieldLe, fields)[j] == fields[i];
      EveryFieldOk(heap, Sort(FieldLe, fields), ancestors + {a}, |Sort(FieldLe, fields)|, j);
    case ProxyNode =>
  }

  /** A value that is accepted has no path through an ancestor or back to itself. */
  lemma {:induction false} AcceptedPathsAreSimple(heap: Heap, v: Value, ancestors: set<nat>, p: seq<nat>)
    requires Canon(heap, v, ancestors).Ok? && Path(heap, p) && v == Ref(p[0])
    ensures forall i :: 0 <= i < |p| ==> p[i] !in ancestors
    ensures Distinct(p)
    decreases |p|
  {
    if |p| > 1 {
      assert Child(heap, p[0], Ref(p[1]));
      ChildOk(heap, p[0], Ref(p[1]), ancestors);
      var q := p[1..];
      assert Path(heap, q) by {
        forall i | 0 < i < |q| ensures Child(heap, q[i - 1], Ref(q[i])) {
          assert q[i] == p[i + 1] && q[i - 1] == p[i];
        }
      }
      AcceptedPathsAreSimple(heap, Ref(p[1]), ancestors + {p[0]}, q);
      forall i | 0 < i < |p| ensures p[i] !in ancestors + {p[0]} { assert p[i] == q[i - 1]; }
      forall i, j | 0 <= i < j < |p| ensures p[i] != p[j] {
        if i > 0 { assert q[i - 1] != q[j - 1]; }
      }
    }
  }

  lemma {:induction false} SomeItemFails(heap: Heap, items: seq<Value>, ancestors: set<nat>, n: nat) returns (i: nat)
    requires n <= |items| && CanonItems(heap, items, ancestors, n).Err?
    ensures i < n && Canon(heap, items[i], ancestors) == Err(CanonItems(heap, items, ancestors, n).error)
  {
    if CanonItems(heap, items, ancestors, n - 1).Err? {
      i := SomeItemFails(heap, items, ancestors, n - 1);
    } else {
      i := n - 1;
    }
  }

  lemma {:induction false} SomeFieldFails(heap: Heap, fields: seq<Field>, ancestors: set<nat>, n: nat) returns (i: nat)
    requires n <= |fields| && CanonFields(heap, fields, ancestors, n).Err?
    ensures i < n && CanonSlot(heap, fields[i].slot, ancestors) == Err(CanonFields(heap, fields, ancestors, n).error)
  {
    if CanonFields(heap, fields, ancestors, n - 1).Err? {
      i := SomeFieldFails(heap, fields, ancestors, n - 1);
    } else {
      i := n - 1;
    }
  }

  /** A failure below a new plain node comes from one of its children. */
  lemma FailingChild(heap: Heap, a: nat, ancestors: set<nat>) returns (b: Value)
    requires a in heap && PlainNode(heap, a) && a !in ancestors && Canon(heap, Ref(a), ancestors).Err?
    ensures Child(heap, a, b) && PlainValue(heap, b)
    ensures Canon(heap, b, ancestors + {a}) == Err(Canon(heap, Ref(a), ancestors).error)
  {
    match heap[a]
    case ArrayNode(_, _, items) =>
      var i := SomeItemFails(heap, items, ancestors + {a}, |items|);
      b := items[i];
    case ObjectNode(_, _, fields) =>
      var sorted := Sort(FieldLe, fields);
      var i := SomeFieldFails(heap, sorted, ancestors + {a}, |sorted|);
      SortPermutes(FieldLe, fields);
      assert sorted[i] in fields;
      var j :| 0 <= j < |fields| && fields[j] == sorted[i];
      b := fields[j].slot.value;
  }

  lemma PlainFailure(heap: Heap, v: Value, ancestors: set<nat>)
    requires PlainValue(heap, v) && Canon(heap, v, ancestors).Err? && (v.Ref? ==> PlainNode(heap, v.at))
    ensures v.Ref? && v.at in heap
    ensures v.at in ancestors ==> Canon(heap, v, ancestors) == Err(Cycle)
  {
  }

  /** Where a walk from `start` stands after `trail`. */
  ghost predicate Walked(heap: Heap, start: Value, trail: seq<nat>, v: Value) {
    if trail == [] then v == start else PathFrom(heap, start, trail) && Child(heap, trail[|trail| - 1], v)
  }

  lemma WalkedIsPlain(heap: Heap, start: Value, trail: seq<nat>, a: nat)
    requires PlainFrom(heap, start) && Walked(heap, start, trail, Ref(a))
    ensures PathFrom(heap, start, trail + [a])
    ensures a in heap && PlainNode(heap, a)
  {
    var p := trail + [a];
    assert PathFrom(heap, start, p) && p[|p| - 1] == a;
    assert Reaches(heap, start, a);
  }

  lemma ReturnsTo(trail: seq<nat>, a: nat)
    requires a in trail
    ensures Returns(trail + [a])
  {
    var longer := trail + [a];
    var i :| 0 <= i < |trail| && trail[i] == a;
    assert longer[i] == longer[|longer| - 1];
  }

  /** From a plain start the only failure is a cycle, and the way to it can be walked. */
  lemma {:induction false} FailureHasCyclicPath(heap: Heap, start: Value, v: Value, trail: seq<nat>, ancestors: set<nat>)
    returns (p: seq<nat>)
    requires PlainFrom(heap, start) && PlainValue(heap, v) && Canon(heap, v, ancestors).Err?
    requires Walked(heap, start, trail, v) && ancestors == Elements(trail)
    ensures Canon(heap, v, ancestors) == Err(Cycle)
    ensures CyclicPath(heap, start, p)
    decreases |heap.Keys - ancestors|
  {
    if v.Ref? { WalkedIsPlain(heap, start, trail, v.at); }
    PlainFailure(heap, v, ancestors);
    p := trail + [v.at];
    if v.at in ancestors {
      ReturnsTo(trail, v.at);
    } else {
      assert Elements(p) == ancestors + {v.at};
      var b := FailingChild(heap, v.at, ancestors);
      assert Walked(heap, start, p, b);
      Descends(heap, ancestors, v.at);
      p := FailureHasCyclicPath(heap, start, b, p, ancestors + {v.at});
    }
  }

  ghost predicate CycleIsReachable(heap: Heap, v: Value) { exists p :: CyclicPath(heap, v, p) }

  /** A plain graph is refused exactly when a cycle can be reached; sharing alone is accepted. */
  lemma RefusedIffCyclic(heap: Heap, v: Value)
    requires PlainFrom(heap, v)
    ensures Canon(heap, v, {}).Err? <==> CycleIsReachable(heap, v)
    ensures Canon(heap, v, {}).Err? ==> Canon(heap, v, {}).error == Cycle
  {
    assert Elements<nat>([]) == {};
    if Canon(heap, v, {}).Err? {
      var p := FailureHasCyclicPath(heap, v, v, [], {});
    } else if p :| CyclicPath(heap, v, p) {
      AcceptedPathsAreSimple(heap, v, {}, p);
      assert false;
    }
  }

  lemma AcceptedItemsArePlain(heap: Heap, items: seq<Value>, ancestors: set<nat>)
    requires CanonItems(heap, items, ancestors, |items|).Ok?
    ensures forall i :: 0 <= i < |items| ==> PlainValue(heap, items[i])
  {
    forall i | 0 <= i < |items| ensures PlainValue(heap, items[i]) { EveryItemOk(heap, items, ancestors, |items|, i); }
  }

  lemma AcceptedNodeIsPlain(heap: Heap, a: nat, ancestors: set<nat>)
    requires Canon(heap, Ref(a), ancestors).Ok?
    ensures a in heap && PlainNode(heap, a)
  {
    match heap[a]
    case ArrayNode(_, _, items) => AcceptedItemsArePlain(heap, items, ancestors + {a});
    case ObjectNode(_, _, fields) =>
      forall i | 0 <= i < |fields| ensures fields[i].slot.Data? && PlainValue(heap, fields[i].slot.value) {
        AcceptedField(heap, a, ancestors, i);
      }
    case ProxyNode =>
  }

  lemma {:induction false} AcceptedAlongPath(heap: Heap, p: seq<nat>, ancestors: set<nat>)
    requires Path(heap, p) && Canon(heap, Ref(p[0]), ancestors).Ok?
    ensures p[|p| - 1] in heap && PlainNode(heap, p[|p| - 1])
    decreases |p|
  {
    if |p| == 1 {
      AcceptedNodeIsPlain(heap, p[0], ancestors);
    } else {
      assert Child(heap, p[0], Ref(p[1]));
      ChildOk(heap, p[0], Ref(p[1]), ancestors);
      PathTail(heap, p, 1);
      AcceptedAlongPath(heap, p[1..], ancestors + {p[0]});
    }
  }

  lemma AcceptedIsPlain(heap: Heap, v: Value)
    requires Canon(heap, v, {}).Ok?
    ensures PlainFrom(heap, v)
  {
    forall a | Reaches(heap, v, a) ensures a in heap && PlainNode(heap, a) {
      var p :| PathFrom(heap, v, p) && p[|p| - 1] == a;
      AcceptedAlongPath(heap, p, {});
    }
  }

  /** Whatever else the heap holds: accepted exactly when only plain things, and no cycle, can be reached. */
  lemma AcceptedIff(heap: Heap, v: Value)
    ensures Canon(heap, v, {}).Ok? <==> PlainFrom(heap, v) && !CycleIsReachable(heap, v)
  {
    if Canon(heap, v, {}).Ok? { AcceptedIsPlain(heap, v); }
    if PlainFrom(heap, v) { RefusedIffCyclic(heap, v); }
  }

  // ----- what the copy means

  function Normal(t: Json): Json {
    match t
    case JArray(items) => JArray(seq(|items|, i requires 0 <= i < |items| => Normal(items[i])))
    case JObject(members) =>
      JObject(Listed(seq(|members|, i requires 0 <= i < |members| => Member(members[i].key, Normal(members[i].value)))))
    case _ => t
  }

  function NormalMembers(members: seq<Member>): seq<Member> {
    seq(|members|, i requires 0 <= i < |members| => Member(members[i].key, Normal(members[i].value)))
  }

  /** `t` is the tree that a reader sees who follows all references from `v`, keys in their own order. */
  ghost predicate Denotes(heap: Heap, v: Value, t: Json)
    decreases t
  {
    match t
    case JNull => v == Null
    case JBool(flag) => v == Bool(flag)
    case JStr(text) => v == Str(text)
    case JNum(number) => v == Num(number) || (v == NegativeZero && number == 0.0)
    case JArray(list) =>
      v.Ref? && v.at in heap && heap[v.at].ArrayNode? && |heap[v.at].items| == |list| &&
      forall i :: 0 <= i < |list| ==> Denotes(heap, heap[v.at].items[i], list[i])
    case JObject(members) =>
      v.Ref? && v.at in heap && heap[v.at].ObjectNode? && |heap[v.at].fields| == |members| &&
      forall i :: 0 <= i < |members| ==>
        heap[v.at].fields[i].key == members[i].key && heap[v.at].fields[i].slot.Data? &&
        Denotes(heap, heap[v.at].fields[i].slot.value, members[i].value)
  }

  /** Whatever is accepted denotes a finite tree. */
  lemma {:induction false} AcceptedDenotes(heap: Heap, v: Value, ancestors: set<nat>) returns (t: Json)
    requires Canon(heap, v, ancestors).Ok?
    ensures Denotes(heap, v, t)
    decreases |heap.Keys - ancestors|
  {
    match v
    case Null => t := JNull;
    case Bool(flag) => t := JBool(flag);
    case Str(text) => t := JStr(text);
    case Num(number) => t := JNum(number);
    case NegativeZero => t := JNum(0.0);
    case Ref(at) =>
      Descends(heap, ancestors, at);
      if heap[at].ArrayNode? {
        var items := heap[at].items;
        var list: seq<Json> := [];
        while |list| < |items|
          invariant |list| <= |items| && forall i :: 0 <= i < |list| ==> Denotes(heap, items[i], list[i])
        {
          EveryItemOk(heap, items, ancestors + {at}, |items|, |list|);
          var u := AcceptedDenotes(heap, items[|list|], ancestors + {at});
          list := list + [u];
        }
        t := JArray(list);
      } else {
        t := AcceptedObjectDenotes(heap, at, ancestors);
      }
  }

  lemma {:induction false} AcceptedObjectDenotes(heap: Heap, at: nat, ancestors: set<nat>) returns (t: Json)
    requires at in heap && heap[at].ObjectNode? && Canon(heap, Ref(at), ancestors).Ok?
    ensures Denotes(heap, Ref(at), t)
    decreases |heap.Keys - ancestors|, 0
  {
    Descends(heap, ancestors, at);
    var fields := heap[at].fields;
    var members: seq<Member> := [];
    while |members| < |fields|
      invariant |members| <= |fields|
      invariant forall i :: 0 <= i < |members| ==>
        members[i].key == fields[i].key && fields[i].slot.Data? && Denotes(heap, fields[i].slot.value, members[i].value)
    {
      var field := fields[|members|];
      AcceptedField(heap, at, ancestors, |members|);
      var u := AcceptedDenotes(heap, field.slot.value, ancestors + {at});
      members := members + [Member(field.key, u)];
    }
    t := JObject(members);
  }

  lemma AcceptedField(heap: Heap, at: nat, ancestors: set<nat>, i: nat)
    requires at in heap && heap[at].ObjectNode? && Canon(heap, Ref(at), ancestors).Ok? && i < |heap[at].fields|
    ensures CanonSlot(heap, heap[at].fields[i].slot, ancestors + {at}).Ok?
  {
    var fields := heap[at].fields;
    var sorted := Sort(FieldLe, fields);
    SortPermutes(FieldLe, fields);
    assert fields[i] in sorted;
    var j :| 0 <= j < |sorted| && sorted[j] == fields[i];
    EveryFieldOk(heap, sorted, ancestors + {at}, |sorted|, j);
  }

  lemma {:induction false} ItemValues(heap: Heap, items: seq<Value>, ancestors: set<nat>, n: nat)
    requires n <= |items| && CanonItems(heap, items, ancestors, n).Ok?
    ensures var list := CanonItems(heap, items, ancestors, n).value;
            |list| == n && forall i :: 0 <= i < n ==> Canon(heap, items[i], ancestors) == Ok(list[i])
  {
    if n > 0 { ItemValues(heap, items, ancestors, n - 1); }
  }

  ghost function FieldMember(heap: Heap, ancestors: set<nat>, f: Field): Member {
    Member(f.key, match CanonSlot(heap, f.slot, ancestors) case Ok(j) => j case Err(_) => JNull)
  }

  lemma {:induction false} FieldValues(heap: Heap, fields: seq<Field>, ancestors: set<nat>, n: nat)
    requires n <= |fields| && CanonFields(heap, fields, ancestors, n).Ok?
    ensures var list := CanonFields(heap, fields, ancestors, n).value;
            |list| == n && forall i :: 0 <= i < n ==>
              CanonSlot(heap, fields[i].slot, ancestors).Ok? && list[i] == FieldMember(heap, ancestors, fields[i])
  {
    if n > 0 { FieldValues(heap, fields, ancestors, n - 1); }
  }

  /** The copy is the normal form of the tree that the graph denotes. */
  lemma {:induction false} CopyIsNormalForm(heap: Heap, v: Value, ancestors: set<nat>, t: Json)
    requires Denotes(heap, v, t) && Canon(heap, v, ancestors).Ok?
    ensures Canon(heap, v, ancestors).value == Normal(t)
    decreases t
  {
    match t
    case JArray(list) =>
      var items := heap[v.at].items;
      var below := ancestors + {v.at};
      ItemValues(heap, items, below, |items|);
      forall i | 0 <= i < |list| ensures CanonItems(heap, items, below, |items|).value[i] == Normal(list[i]) {
        CopyIsNormalForm(heap, items[i], below, list[i]);
      }
    case JObject(members) =>
      ObjectIsNormalForm(heap, v.at, ancestors, members);
    case _ =>
  }

  lemma {:induction false} ObjectIsNormalForm(heap: Heap, at: nat, ancestors: set<nat>, members: seq<Member>)
    requires Denotes(heap, Ref(at), JObject(members)) && Canon(heap, Ref(at), ancestors).Ok?
    ensures Canon(heap, Ref(at), ancestors).value == Normal(JObject(members))
    decreases members
  {
    var fields, below := heap[at].fields, ancestors + {at};
    var sorted := Sort(FieldLe, fields);
    var f := (x: Field) => FieldMember(heap, below, x);
    FieldValues(heap, sorted, below, |sorted|);
    assert CanonFields(heap, sorted, below, |sorted|).value == Map(f, sorted);
    SortCommutes(FieldLe, MemberLe, f, fields);
    forall i | 0 <= i < |fields| ensures f(fields[i]) == NormalMembers(members)[i] {
      ChildOk(heap, at, fields[i].slot.value, ancestors);
      CopyIsNormalForm(heap, fields[i].slot.value, below, members[i].value);
    }
    assert Map(f, fields) == NormalMembers(members);
  }

  // ----- the normal form

  ghost predicate Keyed(t: Json) {
    match t
    case JArray(items) => forall i :: 0 <= i < |items| ==> Keyed(items[i])
    case JObject(members) =>
      && (forall i, j :: 0 <= i < j < |members| ==> members[i].key != members[j].key)
      && (forall i :: 0 <= i < |members| ==> Keyed(members[i].value))
    case _ => true
  }

  /** Equal up to the order of keys, at every depth. */
  ghost predicate SameJson(t: Json, u: Json) {
    match (t, u)
    case (JArray(a), JArray(b)) => |a| == |b| && forall i :: 0 <= i < |a| ==> SameJson(a[i], b[i])
    case (JObject(a), JObject(b)) =>
      |a| == |b| && forall i :: 0 <= i < |a| ==>
        exists j :: 0 <= j < |b| && b[j].key == a[i].key && SameJson(a[i].value, b[j].value)
    case _ => t == u
  }

  lemma MemberLeIsTotal()
    ensures TotalPreorder(MemberLe)
  {
    TextLeIsTotalOrder();
  }

  lemma {:induction false} ListedIgnoresOrder(a: seq<Member>, b: seq<Member>)
    requires forall i, j :: 0 <= i < j < |a| ==> a[i].key != a[j].key
    requires multiset(a) == multiset(b)
    ensures Listed(a) == Listed(b)
  {
    MemberLeIsTotal();
    TextLeIsTotalOrder();
    assert Antisymmetric(MemberLe, a);
    SortIgnoresOrder(MemberLe, a, b);
  }

  lemma ListedContents(a: seq<Member>)
    ensures multiset(Listed(a)) == multiset(a)
  {
    SortPermutes(MemberLe, a);
    SortPermutes(EnumeratesBefore, Sort(MemberLe, a));
  }

  lemma {:induction false} SameImpliesEqualNormal(t: Json, u: Json)
    requires Keyed(t) && SameJson(t, u)
    ensures Normal(t) == Normal(u)
    decreases t
  {
    match (t, u)
    case (JArray(a), JArray(b)) =>
      forall i | 0 <= i < |a| ensures Normal(a[i]) == Normal(b[i]) { SameImpliesEqualNormal(a[i], b[i]); }
    case (JObject(a), JObject(b)) =>
      var na, nb := NormalMembers(a), NormalMembers(b);
      forall i | 0 <= i < |na| ensures na[i] in nb {
        var j :| 0 <= j < |b| && b[j].key == a[i].key && SameJson(a[i].value, b[j].value);
        SameImpliesEqualNormal(a[i].value, b[j].value);
        assert nb[j] == na[i];
      }
      SameContents(na, nb);
      ListedIgnoresOrder(na, nb);
    case _ =>
  }

  lemma {:induction false} EqualNormalImpliesSame(t: Json, u: Json)
    requires Normal(t) == Normal(u)
    ensures SameJson(t, u)
    decreases t
  {
    if t.JArray? && u.JArray? {
      forall i | 0 <= i < |t.items| ensures SameJson(t.items[i], u.items[i]) {
        assert Normal(t.items[i]) == Normal(t).items[i] == Normal(u).items[i] == Normal(u.items[i]);
        EqualNormalImpliesSame(t.items[i], u.items[i]);
      }
    } else if t.JObject? && u.JObject? {
      var a, b := t.members, u.members;
      forall i | 0 <= i < |a|
        ensures exists j :: 0 <= j < |b| && b[j].key == a[i].key && SameJson(a[i].value, b[j].value)
      {
        var j := MatchingMember(a, b, i);
        EqualNormalImpliesSame(a[i].value, b[j].value);
      }
      ListedContents(NormalMembers(a));
      ListedContents(NormalMembers(b));
      SameMultiset(NormalMembers(a), NormalMembers(b));
    }
  }

  lemma MatchingMember(a: seq<Member>, b: seq<Member>, i: nat) returns (j: nat)
    requires Listed(NormalMembers(a)) == Listed(NormalMembers(b)) && i < |a|
    ensures j < |b| && b[j].key == a[i].key && Normal(b[j].value) == Normal(a[i].value)
  {
    var na, nb := NormalMembers(a), NormalMembers(b);
    ListedContents(na);
    ListedContents(nb);
    SameMultiset(na, nb);
    assert na[i] in nb;
    j :| 0 <= j < |nb| && nb[j] == na[i];
  }

  /** Two trees have the same normal form exactly when they are equal up to the order of keys. */
  lemma NormalFormIff(t: Json, u: Json)
    requires Keyed(t)
    ensures Normal(t) == Normal(u) <==> SameJson(t, u)
  {
    if Normal(t) == Normal(u) { EqualNormalImpliesSame(t, u); }
    if SameJson(t, u) { SameImpliesEqualNormal(t, u); }
  }

  /** Canonicalizing a canonical tree changes nothing. */
  lemma {:induction false} NormalIsFixedPoint(t: Json)
    requires Keyed(t)
    ensures Normal(Normal(t)) == Normal(t)
    decreases t
  {
    match t
    case JArray(items) =>
      forall i | 0 <= i < |items| ensures Normal(Normal(items[i])) == Normal(items[i]) { NormalIsFixedPoint(items[i]); }
    case JObject(members) =>
      var na := NormalMembers(members);
      var listed := Listed(na);
      ListedContents(na);
      SameMultiset(listed, na);
      forall i | 0 <= i < |listed| ensures NormalMembers(listed)[i] == listed[i] {
        assert listed[i] in na;
        var k :| 0 <= k < |na| && na[k] == listed[i];
        NormalIsFixedPoint(members[k].value);
      }
      assert NormalMembers(listed) == listed;
      ListedIgnoresOrder(na, listed);
    case _ =>
  }

  // ----- what denotes a tree is accepted

  function Size(t: Json): nat {
    match t
    case JArray(items) => 1 + ItemsSize(items)
    case JObject(members) => 1 + MembersSize(members)
    case _ => 1
  }

  function ItemsSize(items: seq<Json>): nat {
    if items == [] then 0 else Size(items[0]) + ItemsSize(items[1..])
  }

  function MembersSize(members: seq<Member>): nat {
    if members == [] then 0 else Size(members[0].value) + MembersSize(members[1..])
  }

  lemma {:induction false} ItemIsSmaller(items: seq<Json>, i: nat)
    requires i < |items|
    ensures Size(items[i]) <= ItemsSize(items)
  {
    if i > 0 { ItemIsSmaller(items[1..], i - 1); }
  }

  lemma {:induction false} MemberIsSmaller(members: seq<Member>, i: nat)
    requires i < |members|
    ensures Size(members[i].value) <= MembersSize(members)
  {
    if i > 0 { MemberIsSmaller(members[1..], i - 1); }
  }

  /** A value denotes one tree at most. */
  lemma {:induction false} DenotesOneTree(heap: Heap, v: Value, t: Json, u: Json)
    requires Denotes(heap, v, t) && Denotes(heap, v, u)
    ensures t == u
    decreases t
  {
    match t
    case JArray(list) =>
      forall i | 0 <= i < |list| ensures list[i] == u.items[i] {
        DenotesOneTree(heap, heap[v.at].items[i], list[i], u.items[i]);
      }
      assert list == u.items;
    case JObject(members) =>
      forall i | 0 <= i < |members| ensures members[i] == u.members[i] {
        DenotesOneTree(heap, heap[v.at].fields[i].slot.value, members[i].value, u.members[i].value);
      }
      assert members == u.members;
    case _ =>
  }

  /** A child denotes a smaller tree. */
  lemma ChildDenotes(heap: Heap, a: nat, b: Value, t: Json) returns (u: Json)
    requires Denotes(heap, Ref(a), t) && Child(heap, a, b)
    ensures Denotes(heap, b, u) && Size(u) < Size(t)
  {
    if t.JArray? {
      var i :| 0 <= i < |heap[a].items| && heap[a].items[i] == b;
      ItemIsSmaller(t.items, i);
      u := t.items[i];
    } else {
      var i :| 0 <= i < |heap[a].fields| && heap[a].fields[i].slot == Data(b);
      MemberIsSmaller(t.members, i);
      u := t.members[i].value;
    }
  }

  lemma {:induction false} PathDenotes(heap: Heap, p: seq<nat>, t: Json) returns (u: Json)
    requires Path(heap, p) && Denotes(heap, Ref(p[0]), t)
    ensures Denotes(heap, Ref(p[|p| - 1]), u)
    ensures Size(u) + |p| <= Size(t) + 1
    decreases |p|
  {
    u := t;
    if |p| > 1 {
      assert Child(heap, p[0], Ref(p[1]));
      var below := ChildDenotes(heap, p[0], Ref(p[1]), t);
      PathTail(heap, p, 1);
      u := PathDenotes(heap, p[1..], below);
    }
  }

  lemma PathTail(heap: Heap, p: seq<nat>, i: nat)
    requires Path(heap, p) && i < |p|
    ensures Path(heap, p[i..]) && Path(heap, p[..i + 1])
  {
    forall k | 0 < k < |p[i..]| ensures Child(heap, p[i..][k - 1], Ref(p[i..][k])) {
      assert p[i..][k] == p[i + k] && p[i..][k - 1] == p[i + k - 1];
    }
  }

  /** A graph that can be read as a finite tree has no way back. */
  lemma DenotedHasNoCycle(heap: Heap, v: Value, t: Json, p: seq<nat>)
    requires Denotes(heap, v, t)
    ensures !CyclicPath(heap, v, p)
  {
    if CyclicPath(heap, v, p) {
      var i :| 0 <= i < |p| - 1 && p[i] == p[|p| - 1];
      PathTail(heap, p, i);
      var here := PathDenotes(heap, p[..i + 1], t);
      var again := PathDenotes(heap, p[i..], here);
      DenotesOneTree(heap, Ref(p[i]), here, again);
    }
  }

  lemma DenotedIsAccepted(heap: Heap, v: Value, t: Json)
    requires PlainFrom(heap, v) && Denotes(heap, v, t)
    ensures Canon(heap, v, {}).Ok?
  {
    RefusedIffCyclic(heap, v);
    if p :| CyclicPath(heap, v, p) { DenotedHasNoCycle(heap, v, t, p); }
  }

  ghost predicate DenotesSomeTree(heap: Heap, v: Value) { exists t :: Denotes(heap, v, t) }

  /** Accepted exactly when only plain things can be reached and they denote a finite tree. */
  lemma AcceptedIffDenoting(heap: Heap, v: Value)
    ensures Canon(heap, v, {}).Ok? <==> PlainFrom(heap, v) && DenotesSomeTree(heap, v)
  {
    if Canon(heap, v, {}).Ok? {
      AcceptedIsPlain(heap, v);
      var t := AcceptedDenotes(heap, v, {});
    }
    if PlainFrom(heap, v) && DenotesSomeTree(heap, v) {
      var t :| Denotes(heap, v, t);
      DenotedIsAccepted(heap, v, t);
    }
  }

  /** A plain graph that denotes an earlier copy is accepted, and copied to that same tree. */
  lemma CopyIsFixedPoint(heap: Heap, v: Value, t: Json, heap': Heap, v': Value)
    requires Denotes(heap, v, t) && Keyed(t) && Canon(heap, v, {}).Ok?
    requires PlainFrom(heap', v') && Denotes(heap', v', Canon(heap, v, {}).value)
    ensures Canon(heap', v', {}) == Canon(heap, v, {})
  {
    DenotedIsAccepted(heap', v', Canon(heap, v, {}).value);
    CopyIsNormalForm(heap, v, {}, t);
    CopyIsNormalForm(heap', v', {}, Normal(t));
    NormalIsFixedPoint(t);
  }

  /** Two graphs are copied to the same tree exactly when what they denote is equal up to the order of keys. */
  lemma EqualCopiesIff(heap: Heap, v: Value, t: Json, heap': Heap, v': Value, t': Json)
    requires Denotes(heap, v, t) && Keyed(t) && Canon(heap, v, {}).Ok?
    requires Denotes(heap', v', t') && Canon(heap', v', {}).Ok?
    ensures Canon(heap, v, {}) == Canon(heap', v', {}) <==> SameJson(t, t')
  {
    CopyIsNormalForm(heap, v, {}, t);
    CopyIsNormalForm(heap', v', {}, t');
    NormalFormIff(t, t');
  }

  // ----- "recursively sort object keys"

  lemma EnumerationIsTotal()
    ensures TotalPreorder(EnumeratesBefore)
  {
  }

  /** Wherever text order puts one key before another, enumeration does not put it after. */
  ghost predicate TextOrderIsKept(members: seq<Member>) {
    forall i, j :: 0 <= i < |members| && 0 <= j < |members| && TextLess(members[i].key, members[j].key) ==>
      EnumeratesBefore(members[i], members[j])
  }

  ghost predicate DistinctMembers(members: seq<Member>) {
    DistinctKeys((m: Member) => m.key, members)
  }

  lemma KeptOrderIsSorted(members: seq<Member>)
    requires TextOrderIsKept(members)
    ensures Sorted(MemberLe, Listed(members))
  {
    var sorted := Sort(MemberLe, members);
    MemberLeIsTotal();
    SortSorts(MemberLe, members);
    SortPermutes(MemberLe, members);
    forall i, j | 0 <= i < j < |sorted| ensures EnumeratesBefore(sorted[i], sorted[j]) {
      assert sorted[i] in members && sorted[j] in members;
      assert MemberLe(sorted[i], sorted[j]);
    }
    SortOfSorted(EnumeratesBefore, sorted);
  }

  lemma AntisymmetricMembers(members: seq<Member>)
    requires DistinctMembers(members)
    ensures Antisymmetric(MemberLe, members)
  {
    TextLeIsTotalOrder();
  }

  lemma SortedMeansKeptOrder(members: seq<Member>)
    requires DistinctMembers(members) && Sorted(MemberLe, Listed(members))
    ensures TextOrderIsKept(members)
  {
    var sorted := Sort(MemberLe, members);
    MemberLeIsTotal();
    EnumerationIsTotal();
    SortSorts(MemberLe, members);
    SortPermutes(MemberLe, members);
    SortSorts(EnumeratesBefore, sorted);
    SortPermutes(EnumeratesBefore, sorted);
    DistinctKeysContents((m: Member) => m.key, members, sorted);
    AntisymmetricMembers(sorted);
    SortedUnique(MemberLe, sorted, Listed(members));
    forall i, j | 0 <= i < |members| && 0 <= j < |members| && TextLess(members[i].key, members[j].key)
      ensures EnumeratesBefore(members[i], members[j])
    {
      BeforeInSorted(sorted, members[i], members[j]);
    }
  }

  lemma BeforeInSorted(sorted: seq<Member>, a: Member, b: Member)
    requires Sorted(MemberLe, sorted) && Sorted(EnumeratesBefore, sorted) && a in sorted && b in sorted
    requires TextLess(a.key, b.key)
    ensures EnumeratesBefore(a, b)
  {
    var k :| 0 <= k < |sorted| && sorted[k] == a;
    var l :| 0 <= l < |sorted| && sorted[l] == b;
    TextTrichotomy(a.key, b.key);
  }

  predicate IsIndex(key: string) { ArrayIndex(key).Some? }

  lemma {:induction false} DigitsBelow(s: string)
    requires Digits(s).Some?
    ensures Digits(s).value < Aliases.TenTo(|s|)
  {
    if s != "" { DigitsBelow(s[..|s| - 1]); }
  }

  /** A numeral without a leading zero is at least the power of ten of its length. */
  lemma {:induction false} DigitsAtLeast(s: string)
    requires s != "" && s[0] != '0' && Digits(s).Some?
    ensures Digits(s).value >= Aliases.TenTo(|s| - 1)
  {
    if |s| > 1 { DigitsAtLeast(s[..|s| - 1]); } else { assert s[..0] == ""; }
  }

  lemma {:induction false} TenToGrows(m: nat, n: nat)
    requires m <= n
    ensures Aliases.TenTo(m) <= Aliases.TenTo(n)
  {
    if m < n { TenToGrows(m, n - 1); }
  }

  lemma LongerIsLarger(a: string, b: string)
    requires IsIndex(a) && IsIndex(b) && |a| < |b|
    ensures ArrayIndex(a).value < ArrayIndex(b).value
  {
    DigitsBelow(a);
    DigitsAtLeast(b);
    TenToGrows(|a|, |b| - 1);
  }

  /** The order of the last characters decides only between equal heads. */
  lemma {:induction false} LessByHead(a: string, b: string, x: char, y: char)
    requires |a| == |b|
    ensures TextLess(a + [x], b + [y]) <==> TextLess(a, b) || (a == b && x < y)
  {
    if a != "" {
      assert (a + [x])[1..] == a[1..] + [x] && (b + [y])[1..] == b[1..] + [y];
      LessByHead(a[1..], b[1..], x, y);
      assert a == [a[0]] + a[1..] && b == [b[0]] + b[1..];
    } else {
      assert a + [x] == [x] && b + [y] == [y];
    }
  }

  /** Numerals of one length compare as their texts do. */
  lemma {:induction false} SameLengthCompares(a: string, b: string)
    requires |a| == |b| && Digits(a).Some? && Digits(b).Some?
    ensures TextLess(a, b) <==> Digits(a).value < Digits(b).value
    ensures a == b <==> Digits(a).value == Digits(b).value
  {
    if a != "" {
      var n := |a| - 1;
      SameLengthCompares(a[..n], b[..n]);
      LessByHead(a[..n], b[..n], a[n], b[n]);
      assert a == a[..n] + [a[n]] && b == b[..n] + [b[n]];
    }
  }

  /** Numerals compare by length and then by text. */
  lemma IndicesCompare(a: string, b: string)
    requires IsIndex(a) && IsIndex(b)
    ensures ArrayIndex(a).value <= ArrayIndex(b).value <==> |a| < |b| || (|a| == |b| && TextLe(a, b))
  {
    if |a| < |b| {
      LongerIsLarger(a, b);
    } else if |b| < |a| {
      LongerIsLarger(b, a);
    } else {
      SameLengthCompares(a, b);
    }
  }

  /** A pair of keys that comes out against text order: a name before an index, or a longer index before a shorter one. */
  predicate OutOfOrder(a: string, b: string) {
    TextLess(a, b) && IsIndex(b) && (!IsIndex(a) || |a| > |b|)
  }

  lemma EnumerationOfPair(a: Member, b: Member)
    requires TextLess(a.key, b.key)
    ensures EnumeratesBefore(a, b) <==> !OutOfOrder(a.key, b.key)
  {
    if IsIndex(a.key) && IsIndex(b.key) { IndicesCompare(a.key, b.key); }
  }

  ghost predicate NoPairOutOfOrder(members: seq<Member>) {
    forall i, j :: 0 <= i < |members| && 0 <= j < |members| ==> !OutOfOrder(members[i].key, members[j].key)
  }

  /**
   * An object's keys come out in text order exactly when no array index stands, in text
   * order, behind a key that is none or behind a longer array index.
   */
  lemma KeysComeOutSortedIff(members: seq<Member>)
    requires DistinctMembers(members)
    ensures Sorted(MemberLe, Listed(members)) <==> NoPairOutOfOrder(members)
  {
    if NoPairOutOfOrder(members) {
      forall i, j | 0 <= i < |members| && 0 <= j < |members| && TextLess(members[i].key, members[j].key)
        ensures EnumeratesBefore(members[i], members[j])
      {
        EnumerationOfPair(members[i], members[j]);
      }
      KeptOrderIsSorted(members);
    }
    if Sorted(MemberLe, Listed(members)) {
      SortedMeansKeptOrder(members);
      forall i, j | 0 <= i < |members| && 0 <= j < |members| ensures !OutOfOrder(members[i].key, members[j].key) {
        if TextLess(members[i].key, members[j].key) { EnumerationOfPair(members[i], members[j]); }
      }
    }
  }

  /** Two numeric keys come out by value, not in text order. */
  lemma NumericKeysAreNotSorted(x: Json, y: Json)
    ensures Listed([Member("10", x), Member("9", y)]) == [Member("9", y), Member("10", x)]
    ensures TextLess("10", "9")
  {
    assert Digits("1") == Some(1) by { assert "1"[..0] == ""; }
    assert Digits("10") == Some(10) by { assert "10"[..1] == "1"; }
    assert Digits("9") == Some(9) by { assert "9"[..0] == ""; }
    var a, b := Member("10", x), Member("9", y);
    assert [a, b][1..] == [b] && [b][1..] == [] && [b, a][1..] == [a];
    assert Sort(MemberLe, [b]) == [b];
    assert Sort(MemberLe, [a, b]) == [a, b];
    assert Sort(EnumeratesBefore, [b]) == [b];
    assert Insert(EnumeratesBefore, a, [b]) == [b, a];
  }
}
