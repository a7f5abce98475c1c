/** The user-defined functions of a native database handle: heap nodes on a linked list, with global references. */
module NativeRegistry {
  import opened Wrappers
  import opened Sequences

  type Ref = nat

  // ---- ownership

  ghost function Elements<T>(s: seq<T>): set<T> { set x | x in s }

  ghost predicate Distinct<T>(s: seq<T>) { forall i, j :: 0 <= i < j < |s| ==> s[i] != s[j] }

  /** Everything ever made is either live, once, or gone, once. */
  ghost predicate Owned<T>(live: seq<T>, gone: seq<T>, all: set<T>) {
    && Distinct(live) && Distinct(gone)
    && (forall x :: x in live ==> x !in gone)
    && (forall x :: x in all ==> x in live || x in gone)
    && (forall x :: x in live ==> x in all)
    && (forall x :: x in gone ==> x in all)
  }

  lemma OwnedPush<T>(live: seq<T>, gone: seq<T>, all: set<T>, x: T)
    requires Owned(live, gone, all) && x !in all
    ensures Owned([x] + live, gone, all + {x})
  {
  }

  lemma OwnedPop<T>(live: seq<T>, gone: seq<T>, all: set<T>)
    requires Owned(live, gone, all) && live != []
    ensures Owned(live[1..], gone + [live[0]], all)
    ensures live[0] !in live[1..] && live[0] !in gone && live[0] in all
  {
    assert live == [live[0]] + live[1..];
    forall i | 0 <= i < |gone| ensures gone[i] != live[0] {
      assert gone[i] in gone;
    }
    forall x | x in live[1..] ensures x != live[0] {
      var i :| 0 <= i < |live| - 1 && live[1..][i] == x;
      assert x == live[i + 1];
    }
  }

  lemma AllGone<T>(gone: seq<T>, all: set<T>)
    requires Owned([], gone, all)
    ensures Distinct(gone) && Elements(gone) == all
  {
  }

  // ---- the list

  class UDFData {
    var func: Option<Ref>
    var next: UDFData?

    constructor ()
      ensures func == None && next == null
    {
      func, next := None, null;
    }
  }

  /** The nodes from one to the end of its list, and their references: a list so described has no cycle. */
  ghost predicate Linked(head: UDFData?, nodes: seq<UDFData>, funcs: seq<Option<Ref>>)
    reads nodes
  {
    && |nodes| == |funcs|
    && (if nodes == [] then head == null else head == nodes[0] && nodes[|nodes| - 1].next == null)
    && (forall i :: 0 <= i < |nodes| ==> nodes[i].func == funcs[i])
    && (forall i :: 0 <= i < |nodes| - 1 ==> nodes[i].next == nodes[i + 1])
  }

  lemma LinkedTail(head: UDFData?, nodes: seq<UDFData>, funcs: seq<Option<Ref>>)
    requires Linked(head, nodes, funcs) && head != null
    ensures head == nodes[0] && head.func == funcs[0] && Linked(head.next, nodes[1..], funcs[1..])
  {
  }

  lemma LinkedPush(udf: UDFData, head: UDFData?, nodes: seq<UDFData>, funcs: seq<Option<Ref>>)
    requires Linked(head, nodes, funcs) && udf.next == head
    ensures Linked(udf, [udf] + nodes, [udf.func] + funcs)
  {
  }

  /** The references that are not null: creating one may fail unnoticed, and deleting null does nothing. */
  function Refs(funcs: seq<Option<Ref>>): seq<Ref> {
    if funcs == [] then [] else (if funcs[0].Some? then [funcs[0].value] else []) + Refs(funcs[1..])
  }

  /** What deleting the reference of the first node does to those of the list. */
  lemma RefsPop(funcs: seq<Option<Ref>>, gone: seq<Ref>, all: set<Ref>)
    requires funcs != [] && Owned(Refs(funcs), gone, all)
    ensures funcs[0].Some? ==>
              && funcs[0].value in all && funcs[0].value !in gone
              && Owned(Refs(funcs[1..]), gone + [funcs[0].value], all)
              && gone + [funcs[0].value] + Refs(funcs[1..]) == gone + Refs(funcs)
    ensures funcs[0].None? ==> Refs(funcs) == Refs(funcs[1..])
  {
    if funcs[0].Some? {
      assert Refs(funcs)[1..] == Refs(funcs[1..]);
      OwnedPop(Refs(funcs), gone, all);
      MoveFirst(gone, Refs(funcs));
    }
  }

  // ---- the handle

  /** What the outside world answers to a call: whether memory is left, the global reference if one could be made, the
      converted name if it could be, and the code SQLite returns. */
  datatype Answers = Answers(memory: bool, ref: Option<Ref>, name: Option<string>, code: int)

  datatype Return = Code(code: int) | OutOfMemory

  class NativeDB {
    var udfdatalist: UDFData?
    /** The functions SQLite knows, with the node each is called back with. */
    var registered: map<string, UDFData>
    /** The nodes on the list and their references, and everything ever allocated, freed, referenced, released. */
    ghost var nodes: seq<UDFData>
    ghost var funcs: seq<Option<Ref>>
    ghost var mallocs: set<UDFData>
    ghost var freed: seq<UDFData>
    ghost var refsMade: set<Ref>
    ghost var refsDeleted: seq<Ref>

    ghost predicate Valid()
      reads this, nodes
    {
      && Linked(udfdatalist, nodes, funcs)
      && Owned(nodes, freed, mallocs)
      && Owned(Refs(funcs), refsDeleted, refsMade)
    }

    /** SQLite calls back only with nodes that are not freed. */
    ghost predicate CallbacksAreLive()
      reads this
    {
      forall name :: name in registered ==> registered[name] in nodes
    }

    constructor ()
      ensures Valid() && CallbacksAreLive() && udfdatalist == null && registered == map[]
      ensures nodes == [] && freed == [] && mallocs == {} && refsMade == {}
    {
      udfdatalist, registered := null, map[];
      nodes, funcs, mallocs, freed, refsMade, refsDeleted := [], [], {}, [], {}, [];
    }

    /** The new node goes in front, with its reference. */
    method Link(udf: UDFData)
      requires Valid() && udf.next == udfdatalist && udf !in mallocs && (udf.func.Some? ==> udf.func.value !in refsMade)
      modifies this`udfdatalist, this`nodes, this`funcs, this`mallocs, this`refsMade
      ensures Valid() && udfdatalist == udf && nodes == [udf] + old(nodes) && mallocs == old(mallocs) + {udf}
      ensures refsMade == if udf.func.Some? then old(refsMade) + {udf.func.value} else old(refsMade)
    {
      hide Linked, Owned;
      LinkedPush(udf, udfdatalist, nodes, funcs);
      OwnedPush(nodes, freed, mallocs, udf);
      if udf.func.Some? {
        OwnedPush(Refs(funcs), refsDeleted, refsMade, udf.func.value);
        refsMade := refsMade + {udf.func.value};
      }
      assert ([udf.func] + funcs)[1..] == funcs && [] + Refs(funcs) == Refs(funcs);
      assert Refs([udf.func] + funcs) == (if udf.func.Some? then [udf.func.value] else []) + Refs(funcs);
      nodes, funcs, mallocs := [udf] + nodes, [udf.func] + funcs, mallocs + {udf};
      udfdatalist := udf;
    }

    /** The node is linked before the name is converted: it stays on the list when that fails. */
    method CreateFunction(a: Answers) returns (r: Return)
      requires Valid() && CallbacksAreLive() && (a.ref.Some? ==> a.ref.value !in refsMade)
      modifies this
      ensures Valid() && CallbacksAreLive() && freed == old(freed) && refsDeleted == old(refsDeleted)
      ensures !a.memory ==> r == OutOfMemory && registered == old(registered)
      ensures !a.memory ==> nodes == old(nodes) && mallocs == old(mallocs) && refsMade == old(refsMade)
      ensures a.memory ==>
                && udfdatalist != null && fresh(udfdatalist)
                && mallocs == old(mallocs) + {udfdatalist} && nodes == [udfdatalist] + old(nodes)
                && refsMade == (if a.ref.Some? then old(refsMade) + {a.ref.value} else old(refsMade))
      ensures a.memory && a.name.None? ==> r == OutOfMemory && registered == old(registered)
      ensures a.memory && a.name.Some? ==>
                && r == Code(a.code)
                && registered == if a.code == 0 then old(registered)[a.name.value := udfdatalist] else old(registered)
    {
      hide Linked, Owned, Refs;
      if !a.memory {
        return OutOfMemory;
      }
      var udf := new UDFData();
      udf.func := a.ref;
      udf.next := udfdatalist;
      Link(udf);
      if a.name.None? {
        return OutOfMemory;
      }
      if a.code == 0 {
        registered := registered[a.name.value := udf];
      }
      return Code(a.code);
    }

    /** SQLite forgets the function; its node stays. */
    method DestroyFunction(a: Answers) returns (r: Return)
      requires Valid() && CallbacksAreLive()
      modifies this`registered
      ensures Valid() && CallbacksAreLive()
      ensures r == if a.name.None? then OutOfMemory else Code(a.code)
      ensures registered == if a.name.Some? && a.code == 0 then old(registered) - {a.name.value} else old(registered)
    {
      hide Linked, Owned, Refs;
      if a.name.None? {
        return OutOfMemory;
      }
      if a.code == 0 {
        registered := registered - {a.name.value};
      }
      return Code(a.code);
    }

    method DeleteGlobalRef(ref: Option<Ref>)
      requires ref.Some? ==> ref.value in refsMade && ref.value !in refsDeleted
      modifies this`refsDeleted
      ensures refsDeleted == if ref.Some? then old(refsDeleted) + [ref.value] else old(refsDeleted)
    {
      refsDeleted := if ref.Some? then refsDeleted + [ref.value] else refsDeleted;
    }

    /** What was in freed memory is lost. */
    method Free(udf: UDFData)
      requires udf in mallocs && udf !in freed
      modifies this`freed, udf
      ensures freed == old(freed) + [udf]
    {
      freed := freed + [udf];
      udf.next := *;
      udf.func := *;
    }

    /** All nodes are freed and all references deleted, in the order of the list. */
    method FreeFunctions()
      requires Valid()
      modifies this, nodes
      ensures Valid() && udfdatalist == null && registered == old(registered)
      ensures mallocs == old(mallocs) && refsMade == old(refsMade)
      ensures freed == old(freed) + old(nodes) && refsDeleted == old(refsDeleted) + Refs(old(funcs))
      ensures Owned([], freed, mallocs) && Owned([], refsDeleted, refsMade)
      ensures CallbacksAreLive() <==> registered == map[]
    {
      hide Owned;
      var udf := udfdatalist;
      ghost var rest, restFuncs := nodes, funcs;
      udfdatalist, nodes, funcs := null, [], [];
      while udf != null
        invariant Linked(udf, rest, restFuncs)
        invariant Owned(rest, freed, mallocs) && Owned(Refs(restFuncs), refsDeleted, refsMade)
        invariant forall x :: x in rest ==> x in old(nodes)
        invariant freed + rest == old(freed) + old(nodes)
        invariant refsDeleted + Refs(restFuncs) == old(refsDeleted) + Refs(old(funcs))
        invariant udfdatalist == null && nodes == [] && funcs == [] && registered == old(registered)
        invariant mallocs == old(mallocs) && refsMade == old(refsMade)
        decreases |rest|
      {
        LinkedTail(udf, rest, restFuncs);
        assert udf in rest;
        var udfpass := udf.next;
        FreeNode(udf, rest, restFuncs);
        udf := udfpass;
        rest, restFuncs := rest[1..], restFuncs[1..];
      }
    }

    method FreeNode(udf: UDFData, ghost rest: seq<UDFData>, ghost restFuncs: seq<Option<Ref>>)
      requires Linked(udf, rest, restFuncs)
      requires Owned(rest, freed, mallocs) && Owned(Refs(restFuncs), refsDeleted, refsMade)
      modifies this`refsDeleted, this`freed, udf
      ensures Linked(old(udf.next), rest[1..], restFuncs[1..])
      ensures Owned(rest[1..], freed, mallocs) && Owned(Refs(restFuncs[1..]), refsDeleted, refsMade)
      ensures freed + rest[1..] == old(freed) + rest
      ensures refsDeleted + Refs(restFuncs[1..]) == old(refsDeleted) + Refs(restFuncs)
    {
      hide Owned, Refs;
      LinkedTail(udf, rest, restFuncs);
      OwnedPop(rest, freed, mallocs);
      MoveFirst(freed, rest);
      RefsPop(restFuncs, refsDeleted, refsMade);
      DeleteGlobalRef(udf.func);
      Free(udf);
    }
  }

  // ---- a whole session

  datatype Call = Create | Destroy

  /** How many nodes the first n calls allocate: one for each registration that finds memory. */
  function Allocations(calls: seq<Call>, answers: seq<Answers>, n: nat): nat
    requires n <= |calls| == |answers|
  {
    if n == 0 then 0
    else Allocations(calls, answers, n - 1) + if calls[n - 1].Create? && answers[n - 1].memory then 1 else 0
  }

  /** The references handed out in the first n calls. */
  function RefsAnswered(calls: seq<Call>, answers: seq<Answers>, n: nat): set<Ref>
    requires n <= |calls| == |answers|
  {
    if n == 0 then {}
    else
      RefsAnswered(calls, answers, n - 1) +
      if calls[n - 1].Create? && answers[n - 1].memory && answers[n - 1].ref.Some? then {answers[n - 1].ref.value}
      else {}
  }

  method Perform(db: NativeDB, call: Call, a: Answers)
    requires db.Valid() && db.CallbacksAreLive() && (a.ref.Some? ==> a.ref.value !in db.refsMade)
    modifies db
    ensures db.Valid() && db.CallbacksAreLive() && db.freed == old(db.freed)
    ensures |db.nodes| == |old(db.nodes)| + if call.Create? && a.memory then 1 else 0
    ensures db.refsMade == old(db.refsMade) + if call.Create? && a.memory && a.ref.Some? then {a.ref.value} else {}
    ensures fresh(set x | x in db.nodes && x !in old(db.nodes))
  {
    hide Linked, Owned, Refs, Elements;
    match call {
      case Create => var _ := db.CreateFunction(a);
      case Destroy => var _ := db.DestroyFunction(a);
    }
  }

  /** Any calls, whatever the outside world answers, then the final clean-up: as many nodes are freed as registrations
      found memory, no node twice, and the references deleted are exactly those handed out, none twice. */
  method Session(calls: seq<Call>, answers: seq<Answers>) returns (db: NativeDB)
    requires |answers| == |calls|
    requires forall i, j :: 0 <= i < j < |answers| && answers[i].ref.Some? ==> answers[i].ref != answers[j].ref
    ensures fresh(db) && db.Valid() && db.udfdatalist == null
    ensures |db.freed| == Allocations(calls, answers, |calls|)
    ensures Distinct(db.freed) && Elements(db.freed) == db.mallocs
    ensures db.refsMade == RefsAnswered(calls, answers, |calls|)
    ensures Distinct(db.refsDeleted) && Elements(db.refsDeleted) == db.refsMade
  {
    hide Linked, Owned, Distinct, Refs, Elements;
    db := new NativeDB();
    var i := 0;
    while i < |calls|
      invariant 0 <= i <= |calls|
      invariant fresh(db) && db.Valid() && db.CallbacksAreLive() && fresh(db.nodes)
      invariant db.freed == [] && |db.nodes| == Allocations(calls, answers, i)
      invariant db.refsMade == RefsAnswered(calls, answers, i)
      invariant forall j :: i <= j < |answers| && answers[j].ref.Some? ==> answers[j].ref.value !in db.refsMade
    {
      Perform(db, calls[i], answers[i]);
      i := i + 1;
    }
    db.FreeFunctions();
    AllGone(db.freed, db.mallocs);
    AllGone(db.refsDeleted, db.refsMade);
  }
}
