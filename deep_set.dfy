/**
 * `Ember.Resource.deepSet(target, path, value)`: write `value` at a dotted path
 * inside a plain JavaScript object, creating empty objects at missing
 * intermediate keys. An object value is stored as a structural copy made of new
 * objects, so the target never shares an object with the caller's value.
 */
module DeepSet {
  import Path

  /** A JavaScript value as the assigner sees it: a scalar or a reference to a plain object. */
  datatype Value = Str(s: string) | Num(n: int) | Ref(obj: Obj)

  /** A plain JavaScript object: its own enumerable properties. */
  class Obj {
    var fields: map<string, Value>

    constructor (fields: map<string, Value>)
      ensures this.fields == fields
    {
      this.fields := fields;
    }
  }

  /** The JSON value that a `Value` denotes once its references are followed. */
  datatype Json = JStr(s: string) | JNum(n: int) | JObject(members: map<string, Json>)

  /** True when `fields[key]` holds an object, i.e. the walk can descend there. */
  predicate HoldsObject(fields: map<string, Value>, key: string) {
    key in fields && fields[key].Ref?
  }

  /**
   * The objects of `rank` form a closed, acyclic graph: every reference held by
   * one of them leads to another one of them of strictly smaller rank.
   */
  ghost predicate Ranked(rank: map<Obj, nat>)
    reads rank.Keys
  {
    forall o, k :: o in rank && HoldsObject(o.fields, k) ==>
      o.fields[k].obj in rank && rank[o.fields[k].obj] < rank[o]
  }

  /** `Ranked`, stated of a snapshot `before` of the fields of the objects of `rank`. */
  ghost predicate RankedSnapshot(before: map<Obj, map<string, Value>>, rank: map<Obj, nat>) {
    && before.Keys == rank.Keys
    && forall o, k :: o in before && HoldsObject(before[o], k) ==>
         before[o][k].obj in rank && rank[before[o][k].obj] < rank[o]
  }

  /** `v` is a scalar or refers to one of the objects of `rank`. */
  ghost predicate Within(v: Value, rank: map<Obj, nat>) {
    v.Ref? ==> v.obj in rank
  }

  ghost function Height(v: Value, rank: map<Obj, nat>): nat
    requires Within(v, rank)
  {
    if v.Ref? then rank[v.obj] + 1 else 0
  }

  /** The JSON tree that `v` denotes in the current heap. */
  ghost function Unfold(v: Value, rank: map<Obj, nat>): Json
    requires Ranked(rank) && Within(v, rank)
    reads rank.Keys
    decreases Height(v, rank)
  {
    match v
    case Str(s) => JStr(s)
    case Num(n) => JNum(n)
    case Ref(o) => JObject(map k | k in o.fields :: Unfold(o.fields[k], rank))
  }

  /** Adding objects to a ranking does not change what a value denotes. */
  lemma {:induction false} UnfoldWider(v: Value, rank: map<Obj, nat>, wider: map<Obj, nat>)
    requires Ranked(rank) && Ranked(wider) && Within(v, rank)
    requires rank.Keys <= wider.Keys
    ensures Unfold(v, wider) == Unfold(v, rank)
    decreases Height(v, rank)
  {
    if v.Ref? {
      forall k | k in v.obj.fields
        ensures Unfold(v.obj.fields[k], wider) == Unfold(v.obj.fields[k], rank)
      {
        UnfoldWider(v.obj.fields[k], rank, wider);
      }
    }
  }

  /** Two rankings over disjoint objects combine into one. */
  lemma RankedUnion(a: map<Obj, nat>, b: map<Obj, nat>)
    requires Ranked(a) && Ranked(b) && a.Keys !! b.Keys
    ensures Ranked(a + b)
  {
    forall o, k | o in a + b && HoldsObject(o.fields, k)
      ensures o.fields[k].obj in a + b && (a + b)[o.fields[k].obj] < (a + b)[o]
    {
      if o in a {
        assert o.fields[k].obj in a;
      } else {
        assert o.fields[k].obj in b;
      }
    }
  }

  /** A new object whose members lie in a ranking ranks above them. */
  lemma RankedAddRoot(acc: map<Obj, nat>, n: Obj, r: nat)
    requires Ranked(acc) && n !in acc
    requires forall k :: HoldsObject(n.fields, k) ==> n.fields[k].obj in acc && acc[n.fields[k].obj] < r
    ensures Ranked(acc[n := r])
  {
  }

  /** Widening a ranking preserves what every member of `m` denotes. */
  lemma WidenMembers(m: map<string, Value>, acc: map<Obj, nat>, wider: map<Obj, nat>)
    requires Ranked(acc) && Ranked(wider) && acc.Keys <= wider.Keys
    requires forall k :: k in m ==> Within(m[k], acc)
    ensures forall k :: k in m ==> Within(m[k], wider) && Unfold(m[k], wider) == Unfold(m[k], acc)
  {
    forall k | k in m
      ensures Within(m[k], wider) && Unfold(m[k], wider) == Unfold(m[k], acc)
    {
      UnfoldWider(m[k], acc, wider);
    }
  }

  /** Objects with the same keys whose members denote the same trees denote the same tree. */
  lemma UnfoldSameMembers(a: Obj, arank: map<Obj, nat>, b: Obj, brank: map<Obj, nat>)
    requires Ranked(arank) && Ranked(brank) && a in arank && b in brank
    requires a.fields.Keys == b.fields.Keys
    requires forall k :: k in a.fields ==> Unfold(a.fields[k], arank) == Unfold(b.fields[k], brank)
    ensures Unfold(Ref(a), arank) == Unfold(Ref(b), brank)
  {
  }

  /** The members of `m` are copies, ranked by `acc`, of the same members of `o`. */
  ghost predicate CopiedMembers(o: Obj, rank: map<Obj, nat>, m: map<string, Value>, acc: map<Obj, nat>)
    requires Ranked(rank) && o in rank
    reads rank.Keys, acc.Keys
  {
    && Ranked(acc)
    && m.Keys <= o.fields.Keys
    && (forall x :: x in acc ==> acc[x] < rank[o])
    && (forall k :: k in m ==> Within(m[k], acc))
    && (forall k :: k in m ==> Unfold(m[k], acc) == Unfold(o.fields[k], rank))
  }

  /** One more member copied, with its own new objects, keeps `CopiedMembers`. */
  lemma AddCopiedMember(o: Obj, rank: map<Obj, nat>, m: map<string, Value>, acc: map<Obj, nat>,
                        k: string, ck: Value, kr: map<Obj, nat>)
    requires Ranked(rank) && o in rank && k in o.fields
    requires CopiedMembers(o, rank, m, acc)
    requires Ranked(kr) && Within(ck, kr) && acc.Keys !! kr.Keys
    requires forall x :: x in kr ==> kr[x] < Height(o.fields[k], rank)
    requires Unfold(ck, kr) == Unfold(o.fields[k], rank)
    ensures CopiedMembers(o, rank, m[k := ck], acc + kr)
  {
    RankedUnion(acc, kr);
    WidenMembers(m, acc, acc + kr);
    UnfoldWider(ck, kr, acc + kr);
  }

  /**
   * A deep copy of `v`: a scalar is returned as it is, an object is rebuilt key by
   * key from new objects. The copy denotes the same JSON tree and every object in
   * it is new, so it shares no object with `v`.
   */
  method Copy(v: Value, ghost rank: map<Obj, nat>) returns (c: Value, ghost crank: map<Obj, nat>)
    requires Ranked(rank) && Within(v, rank)
    ensures Ranked(crank) && Within(c, crank) && fresh(crank.Keys)
    ensures forall x :: x in crank ==> crank[x] < Height(v, rank)
    ensures Unfold(c, crank) == Unfold(v, rank)
    ensures !v.Ref? ==> c == v
    decreases Height(v, rank), 1
  {
    if v.Ref? {
      var n;
      n, crank := CopyObject(v.obj, rank);
      c := Ref(n);
    } else {
      c, crank := v, map[];
    }
  }

  /** The object case of `Copy`: a new object whose members are copies of `o`'s. */
  method CopyObject(o: Obj, ghost rank: map<Obj, nat>) returns (n: Obj, ghost crank: map<Obj, nat>)
    requires Ranked(rank) && o in rank
    ensures Ranked(crank) && n in crank && fresh(crank.Keys)
    ensures forall x :: x in crank ==> crank[x] <= rank[o]
    ensures Unfold(Ref(n), crank) == Unfold(Ref(o), rank)
    decreases rank[o] + 1, 0
  {
    var m: map<string, Value> := map[];
    ghost var acc: map<Obj, nat> := map[];
    var todo := o.fields.Keys;
    while todo != {}
      invariant todo <= o.fields.Keys
      invariant m.Keys == o.fields.Keys - todo
      invariant fresh(acc.Keys) && CopiedMembers(o, rank, m, acc)
      decreases todo
    {
      var k :| k in todo;
      var ck, kr := Copy(o.fields[k], rank);
      assert acc.Keys !! kr.Keys;
      AddCopiedMember(o, rank, m, acc, k, ck, kr);
      acc := acc + kr;
      m := m[k := ck];
      todo := todo - {k};
    }
    n := new Obj(m);
    RankedAddRoot(acc, n, rank[o]);
    crank := acc[n := rank[o]];
    WidenMembers(m, acc, crank);
    UnfoldSameMembers(n, crank, o, rank);
  }

  /** The fields an object had before the walk: none, for an object the walk created. */
  function Before(before: map<Obj, map<string, Value>>, o: Obj): map<string, Value> {
    if o in before then before[o] else map[]
  }

  /**
   * How the walk chose `next` from the fields `b` an object had before: the
   * object held at `key` when there is one, and otherwise an object that did
   * not exist before.
   */
  ghost predicate Reused(b: map<string, Value>, key: string, next: Obj, before: map<Obj, map<string, Value>>) {
    if HoldsObject(b, key) then next == b[key].obj else next !in before
  }

  /**
   * One step of the walk: descend from `cur` into `key`, reusing the object held
   * there, or storing a new empty object when the key is missing or holds a scalar.
   */
  method Descend(cur: Obj, key: string) returns (next: Obj)
    modifies cur
    ensures cur.fields == old(cur.fields)[key := Ref(next)]
    ensures if HoldsObject(old(cur.fields), key) then next == old(cur.fields)[key].obj
            else fresh(next) && next.fields == map[]
  {
    if HoldsObject(cur.fields, key) {
      next := cur.fields[key].obj;
      assert cur.fields == cur.fields[key := Ref(next)];
    } else {
      next := new Obj(map[]);
      cur.fields := cur.fields[key := Ref(next)];
    }
  }

  /**
   * The walk of `deepSet` down every key but the last. `nodes` are the objects
   * visited, one per key, starting at `target` and ending at `last`: each node's
   * key now holds the next node, reused when it was an object and new otherwise.
   * The nodes are pairwise distinct, and no other object of `rank` changes.
   */
  method Walk(target: Obj, keys: seq<string>, ghost rank: map<Obj, nat>, ghost before: map<Obj, map<string, Value>>)
      returns (last: Obj, ghost nodes: seq<Obj>)
    requires |keys| >= 1 && target in rank && RankedSnapshot(before, rank)
    requires forall o :: o in rank ==> o.fields == before[o]
    modifies rank.Keys
    ensures |nodes| == |keys| && nodes[0] == target && nodes[|keys| - 1] == last
    ensures forall j :: 0 <= j < |nodes| ==> nodes[j] in rank || fresh(nodes[j])
    ensures forall j :: 0 <= j < |nodes| - 1 ==> nodes[j] != last
    ensures forall a, b :: 0 <= a < b < |nodes| ==> nodes[a] != nodes[b]
    ensures forall j :: 0 <= j < |nodes| - 1 ==>
      nodes[j].fields == Before(before, nodes[j])[keys[j] := Ref(nodes[j + 1])]
    ensures forall j :: 0 <= j < |nodes| - 1 ==>
      if HoldsObject(Before(before, nodes[j]), keys[j]) then nodes[j + 1] == Before(before, nodes[j])[keys[j]].obj
      else fresh(nodes[j + 1])
    ensures last.fields == Before(before, last)
    ensures forall o :: o in rank && o !in nodes ==> o.fields == before[o]
  {
    last := target;
    nodes := [target];
    var i := 0;
    while i < |keys| - 1
      invariant 0 <= i < |keys| && |nodes| == i + 1
      invariant nodes[0] == target && nodes[i] == last
      invariant forall j :: 0 <= j < i ==> nodes[j] != last
      invariant forall a, b :: 0 <= a < b <= i ==> nodes[a] != nodes[b]
      invariant forall j :: 0 <= j <= i ==> nodes[j] in rank || fresh(nodes[j])
      invariant last in rank ==> forall j :: 0 <= j <= i ==> nodes[j] in rank && rank[last] <= rank[nodes[j]]
      invariant last.fields == Before(before, last)
      invariant forall j :: 0 <= j < i ==>
        nodes[j].fields == Before(before, nodes[j])[keys[j] := Ref(nodes[j + 1])]
      invariant forall j :: 0 <= j < i ==> Reused(Before(before, nodes[j]), keys[j], nodes[j + 1], before)
      invariant forall o :: o in rank && o !in nodes ==> o.fields == before[o]
    {
      var next := Descend(last, keys[i]);
      nodes := nodes + [next];
      last := next;
      i := i + 1;
    }
  }

  /**
   * `deepSet(target, path, value)`. `keys` is the split path and `before` the
   * fields every object of `rank` had on entry. `nodes` are the objects walked,
   * as `Walk` describes them; the last node's last key holds `stored`, a copy of
   * `value` made of new objects that denotes the same JSON tree. No other object
   * changes.
   */
  method DeepSet(target: Obj, path: string, value: Value, ghost rank: map<Obj, nat>)
      returns (ghost keys: seq<string>, ghost before: map<Obj, map<string, Value>>,
               ghost nodes: seq<Obj>, ghost stored: Value, ghost srank: map<Obj, nat>)
    requires Ranked(rank) && target in rank && Within(value, rank)
    modifies rank.Keys
    ensures keys == Path.Split(path)
    ensures before.Keys == rank.Keys && forall o :: o in rank ==> before[o] == old(o.fields)
    ensures |nodes| == |keys| && nodes[0] == target
    ensures forall j :: 0 <= j < |nodes| ==> nodes[j] in rank || fresh(nodes[j])
    ensures forall j :: 0 <= j < |nodes| - 1 ==>
      nodes[j].fields == Before(before, nodes[j])[keys[j] := Ref(nodes[j + 1])]
    ensures forall j :: 0 <= j < |nodes| - 1 ==>
      if HoldsObject(Before(before, nodes[j]), keys[j]) then nodes[j + 1] == Before(before, nodes[j])[keys[j]].obj
      else fresh(nodes[j + 1])
    ensures nodes[|nodes| - 1].fields == Before(before, nodes[|nodes| - 1])[keys[|nodes| - 1] := stored]
    ensures Ranked(srank) && Within(stored, srank) && fresh(srank.Keys)
    ensures Unfold(stored, srank) == old(Unfold(value, rank))
    ensures !value.Ref? ==> stored == value
    ensures forall o :: o in rank && o !in nodes ==> o.fields == before[o]
  {
    before := map o | o in rank :: o.fields;
    var copy;
    copy, srank := Copy(value, rank);
    stored := copy;
    var ks := Path.Split(path);
    keys := ks;
    var last;
    last, nodes := Walk(target, ks, rank, before);
    last.fields := last.fields[ks[|ks| - 1] := copy];
  }

  // ---------------------------------------------------------------------------
  // The scenarios of the assigner's tests.

  /** The paths of the tests: a single key, and three keys. */
  lemma SplitTestPaths()
    ensures Path.Split("a") == ["a"]
    ensures Path.Split("a.b.c") == ["a", "b", "c"]
  {
    assert Path.DotFree("a") && Path.DotFree("b") && Path.DotFree("c");
    Path.SplitDotFree("a");
    assert "a.b.c" == "a" + "." + "b.c" && "b.c" == "b" + "." + "c";
    Path.SplitAfterKey("a", "b.c");
    Path.SplitAfterKey("b", "c");
    Path.SplitDotFree("c");
  }

  /** Setting a top-level key of an empty object. */
  method SetAtPath() returns (a: Value)
    ensures a == Str("foo")
  {
    var obj := new Obj(map[]);
    SplitTestPaths();
    var _, _, _, _, _ := DeepSet(obj, "a", Str("foo"), map[obj := 0]);
    a := obj.fields["a"];
  }

  /** Setting a key that already holds a value replaces it. */
  method OverwriteAtPath() returns (a: Value)
    ensures a == Str("bar")
  {
    var obj := new Obj(map["a" := Str("foo")]);
    SplitTestPaths();
    var _, _, _, _, _ := DeepSet(obj, "a", Str("bar"), map[obj := 0]);
    a := obj.fields["a"];
  }

  /** Setting `a.b.c` in an empty object creates `a` and `a.b` as objects. */
  method CreateMissingNodes() returns (a: Value, b: Value, c: Value)
    ensures a.Ref? && b.Ref? && c == Str("foo")
  {
    var obj := new Obj(map[]);
    SplitTestPaths();
    ghost var keys, before, nodes, stored, srank := DeepSet(obj, "a.b.c", Str("foo"), map[obj := 0]);
    assert obj.fields == Before(before, nodes[0])[keys[0] := Ref(nodes[1])];
    assert nodes[1].fields == Before(before, nodes[1])[keys[1] := Ref(nodes[2])];
    assert nodes[2].fields == Before(before, nodes[2])[keys[2] := stored];
    a := obj.fields["a"];
    b := a.obj.fields["b"];
    c := b.obj.fields["c"];
  }

  /** What a value denoting an object holds at `k`: a member denoting the same tree. */
  lemma UnfoldMember(v: Value, rank: map<Obj, nat>, k: string)
    requires Ranked(rank) && Within(v, rank)
    requires Unfold(v, rank).JObject? && k in Unfold(v, rank).members
    ensures v.Ref? && k in v.obj.fields
    ensures Unfold(v.obj.fields[k], rank) == Unfold(v, rank).members[k]
  {
  }

  /** A value that denotes a scalar is that scalar. */
  lemma UnfoldScalar(v: Value, rank: map<Obj, nat>)
    requires Ranked(rank) && Within(v, rank)
    ensures Unfold(v, rank).JStr? ==> v == Str(Unfold(v, rank).s)
    ensures Unfold(v, rank).JNum? ==> v == Num(Unfold(v, rank).n)
  {
  }

  /** Builds the ticket `{data: {group: {id: 1, name: 'Support'}}}` and the group data `{id: 2, name: 'Development'}`. */
  method NewTicketAndGroup() returns (ticket: Obj, ticketData: Obj, groupData: Obj, ghost rank: map<Obj, nat>)
    ensures fresh(ticket) && fresh(ticketData) && fresh(groupData)
    ensures ticket.fields == map["data" := Ref(ticketData)]
    ensures groupData.fields == map["id" := Num(2), "name" := Str("Development")]
    ensures Ranked(rank) && ticket in rank && ticketData in rank && groupData in rank && fresh(rank.Keys)
    ensures groupData != ticket && groupData != ticketData
  {
    var support := new Obj(map["id" := Num(1), "name" := Str("Support")]);
    ticketData := new Obj(map["group" := Ref(support)]);
    ticket := new Obj(map["data" := Ref(ticketData)]);
    groupData := new Obj(map["id" := Num(2), "name" := Str("Development")]);
    rank := map[support := 0, ticketData := 1, ticket := 2, groupData := 0];
  }

  /** The path of the copy-on-assign test names two keys. */
  lemma SplitDataGroup()
    ensures Path.Split("data.group") == ["data", "group"]
  {
    assert "data.group" == "data" + "." + "group";
    assert Path.DotFree("data") && Path.DotFree("group");
    Path.SplitAfterKey("data", "group");
    Path.SplitDotFree("group");
  }

  /** The group data of the copy-on-assign test denotes `{id: 2, name: 'Development'}`. */
  lemma GroupDataDenotes(groupData: Obj, rank: map<Obj, nat>)
    requires Ranked(rank) && groupData in rank
    requires groupData.fields == map["id" := Num(2), "name" := Str("Development")]
    ensures Unfold(Ref(groupData), rank).JObject?
    ensures "id" in Unfold(Ref(groupData), rank).members && "name" in Unfold(Ref(groupData), rank).members
    ensures Unfold(Ref(groupData), rank).members["id"] == JNum(2)
    ensures Unfold(Ref(groupData), rank).members["name"] == JStr("Development")
  {
  }

  /** `deepSet(ticket, 'data.group', groupData)`: seen from the ticket, the new group denotes the group data. */
  method StoreGroup(ticket: Obj, ticketData: Obj, groupData: Obj, ghost rank: map<Obj, nat>)
      returns (ghost srank: map<Obj, nat>)
    requires ticket.fields == map["data" := Ref(ticketData)]
    requires groupData.fields == map["id" := Num(2), "name" := Str("Development")]
    requires Ranked(rank) && ticket in rank && ticketData in rank && groupData in rank
    requires groupData != ticket && groupData != ticketData
    modifies rank.Keys
    ensures groupData.fields == old(groupData.fields)
    ensures "data" in ticket.fields && ticket.fields["data"] == Ref(ticketData) && "group" in ticketData.fields
    ensures Ranked(srank) && Within(ticketData.fields["group"], srank) && fresh(srank.Keys)
    ensures Unfold(ticketData.fields["group"], srank).JObject?
    ensures "id" in Unfold(ticketData.fields["group"], srank).members
    ensures "name" in Unfold(ticketData.fields["group"], srank).members
    ensures Unfold(ticketData.fields["group"], srank).members["id"] == JNum(2)
    ensures Unfold(ticketData.fields["group"], srank).members["name"] == JStr("Development")
  {
    SplitDataGroup();
    GroupDataDenotes(groupData, rank);
    ghost var want := Unfold(Ref(groupData), rank);
    ghost var keys, before, nodes, stored;
    keys, before, nodes, stored, srank := DeepSet(ticket, "data.group", Ref(groupData), rank);
    assert nodes[0] == ticket;
    assert HoldsObject(Before(before, nodes[0]), keys[0]);
    assert ticketData.fields == Before(before, nodes[1])[keys[1] := stored];
    assert Unfold(ticketData.fields["group"], srank) == want;
  }

  /**
   * Assigning another object's data stores a copy: read after the call, the
   * stored object's `id` and `name` equal those of the caller's object, which
   * still holds them, and the stored object is a different object.
   */
  method CopyOnAssign() returns (id: Value, name: Value, sourceId: Value, sourceName: Value, aliased: bool)
    ensures id == sourceId && name == sourceName && !aliased
    ensures sourceId == Num(2) && sourceName == Str("Development")
  {
    var ticket, ticketData, groupData, rank := NewTicketAndGroup();
    ghost var srank := StoreGroup(ticket, ticketData, groupData, rank);
    var g := ticket.fields["data"].obj.fields["group"];
    UnfoldMember(g, srank, "id");
    UnfoldMember(g, srank, "name");
    id := g.obj.fields["id"];
    name := g.obj.fields["name"];
    UnfoldScalar(id, srank);
    UnfoldScalar(name, srank);
    sourceId := groupData.fields["id"];
    sourceName := groupData.fields["name"];
    aliased := g.obj == groupData;
  }
}
