/** The generic entity pool of base/base.go (`myPool`): a FIFO container of idle
    entities plus a map from entity id to "idle?". */
module EntityPool {
  import opened Common

  /** Stands for the `reflect.Type` of an entity; `name` is what `%v` prints. */
  datatype Kind = Kind(name: string)

  /** A pooled worker: its id and its dynamic type. */
  datatype Entity = Entity(id: uint32, kind: Kind)

  const ReturnNilMsg: string := "The return entity is nil"
  const TypeMismatchMsg: string := "Type is not match!"
  const AlreadyInPoolMsg: string := "Entity  is already in the pool!"
  const IllegalIdMsg: string := "Entity id is illegal!!"
  const TotalZeroMsg: string := "Pool Total can not be initialized by 0\n"

  function WrongTypeMsg(entityType: Kind): string
  {
    "The Type of given is not real type -> " + entityType.name + "\n"
  }

  /** What the i-th call of the generator produced fits the pool's type (a nil entity does not). */
  predicate FitsType(e: Option<Entity>, entityType: Kind)
  {
    e.Some? && e.value.kind == entityType
  }

  /** The ids of the first `n` generated entities are pairwise distinct. */
  predicate DistinctIds(gen: nat -> Option<Entity>, n: nat)
  {
    forall i, j :: 0 <= i < j < n && gen(i).Some? && gen(j).Some? ==> gen(i).value.id != gen(j).value.id
  }

  class Pool {
    const total: uint32
    const etype: Kind
    var container: seq<Entity>
    var idContainer: map<uint32, bool>

    /** Ids recorded as checked out. */
    ghost function CheckedOut(): set<uint32>
      reads this
    {
      set id | id in idContainer && !idContainer[id]
    }

    /** Ids of the entities currently waiting in the container. */
    ghost function IdleIds(): set<uint32>
      reads this
    {
      set e | e in container :: e.id
    }

    /** What every reachable pool satisfies, even if the generator repeated an id:
        idle entities have the pool's type and a recorded id, and the container never
        outgrows the capacity left by the checked-out ids. */
    ghost predicate Valid()
      reads this
    {
      && 1 <= total
      && (forall e :: e in container ==> e.kind == etype && e.id in idContainer)
      && |container| + |CheckedOut()| <= total
    }

    /** The identity invariant that holds when every entity has its own id: each idle
        entity is marked idle, each id marked idle belongs to an idle entity, and
        idle plus checked-out entities number exactly `total`. */
    ghost predicate Exact()
      reads this
    {
      && Valid()
      && (forall i, j :: 0 <= i < j < |container| ==> container[i].id != container[j].id)
      && (forall i :: 0 <= i < |container| ==> idContainer[container[i].id])
      && (forall id :: id in idContainer && idContainer[id] ==> id in IdleIds())
      && |container| + |CheckedOut()| == total
    }

    constructor Make(total: uint32, etype: Kind, container: seq<Entity>, idContainer: map<uint32, bool>)
      ensures this.total == total && this.etype == etype
      ensures this.container == container && this.idContainer == idContainer
    {
      this.total := total;
      this.etype := etype;
      this.container := container;
      this.idContainer := idContainer;
    }

    /** The capacity fixed at construction, at least 1 in any reachable pool. */
    function Total(): (r: uint32)
      reads this
      ensures r == total
      ensures Valid() ==> r >= 1
    {
      total
    }

    /** The number of entities waiting in the container, i.e. the idle ones, not the
        checked-out ones: together with those it never exceeds the total. */
    function Used(): (r: uint32)
      reads this
      requires Valid()
      ensures r as int == |container|
      ensures r as int + |CheckedOut()| <= total as int
    {
      |container|
    }

    /** Pops the front entity and marks its id checked out. Receiving from an empty
        container blocks in the source, so the model requires an idle entity. */
    method Take() returns (e: Entity)
      requires Valid() && |container| > 0
      modifies this
      ensures Valid()
      ensures e == old(container[0]) && container == old(container[1..])
      ensures idContainer == old(idContainer)[e.id := false]
      ensures old(Exact()) ==> Exact()
    {
      ghost var was := CheckedOut();
      ghost var wasExact := Exact();
      e := container[0];
      container := container[1..];
      idContainer := idContainer[e.id := false];
      assert CheckedOut() == was + {e.id};
      if wasExact {
        forall id | id in idContainer && idContainer[id] ensures id in IdleIds() {
          assert id != e.id && id in old(IdleIds());
          var x :| x in old(container) && x.id == id;
          assert x != old(container[0]);
          assert x in container by {
            var k :| 0 <= k < |old(container)| && old(container)[k] == x;
            assert k != 0;
            assert container[k - 1] == x;
          }
        }
        assert e.id !in was;
      }
    }

    /** The compare-and-set on the id map: -1 if `eid` is unknown, 0 if its mark is
        not `oldValue`, otherwise sets it to `newValue` and returns 1. */
    method OptIdContainer(eid: uint32, oldValue: bool, newValue: bool) returns (r: int)
      modifies this
      ensures container == old(container)
      ensures r == -1 <==> eid !in old(idContainer)
      ensures r == 0 <==> eid in old(idContainer) && old(idContainer)[eid] != oldValue
      ensures r == 1 <==> eid in old(idContainer) && old(idContainer)[eid] == oldValue
      ensures idContainer == if r == 1 then old(idContainer)[eid := newValue] else old(idContainer)
    {
      if eid !in idContainer {
        return -1;
      }
      if idContainer[eid] != oldValue {
        return 0;
      }
      idContainer := idContainer[eid := newValue];
      return 1;
    }

    /** Hands an entity back: rejects nil, a foreign type, an unknown id and an id
        already marked idle; otherwise marks it idle and appends it to the container. */
    method Return(e: Option<Entity>) returns (err: Option<Error>)
      requires Valid()
      modifies this
      ensures Valid()
      ensures e.None? ==> err == Some(Error(ReturnNilMsg))
      ensures e.Some? && e.value.kind != etype ==> err == Some(Error(TypeMismatchMsg))
      ensures e.Some? && e.value.kind == etype && e.value.id !in old(idContainer) ==> err == Some(Error(IllegalIdMsg))
      ensures e.Some? && e.value.kind == etype && e.value.id in old(idContainer) && old(idContainer)[e.value.id] ==>
                err == Some(Error(AlreadyInPoolMsg))
      ensures err.Some? ==> container == old(container) && idContainer == old(idContainer)
      ensures err.None? <==> e.Some? && e.value.kind == etype && e.value.id in old(CheckedOut())
      ensures err.None? ==> container == old(container) + [e.value] && idContainer == old(idContainer)[e.value.id := true]
      ensures old(Exact()) ==> Exact()
    {
      if e.None? {
        return Some(Error(ReturnNilMsg));
      }
      if e.value.kind != etype {
        return Some(Error(TypeMismatchMsg));
      }
      var eid := e.value.id;
      ghost var was := CheckedOut();
      ghost var wasExact := Exact();
      var caseResult := OptIdContainer(eid, false, true);
      if caseResult == 1 {
        assert CheckedOut() == was - {eid};
        // A checked-out id leaves room: the send on the container cannot block.
        assert |container| < total;
        container := container + [e.value];
        if wasExact {
          forall i, j | 0 <= i < j < |container| ensures container[i].id != container[j].id {
            if j == |container| - 1 {
              assert old(idContainer)[container[i].id];
            }
          }
          forall id | id in idContainer && idContainer[id] ensures id in IdleIds() {
            if id != eid {
              var x :| x in old(container) && x.id == id;
              assert x in container;
            } else {
              assert e.value in container;
            }
          }
        }
        return None;
      } else if caseResult == 0 {
        return Some(Error(AlreadyInPoolMsg));
      } else {
        return Some(Error(IllegalIdMsg));
      }
    }
  }

  /** `NewPool`: calls the generator `total` times (`genEntity(i)` is what the i-th call
      returns), filling the container and marking every id idle; fails on a zero total
      or on the first entity whose type is not `entityType`. */
  method NewPool(total: uint32, entityType: Kind, genEntity: nat -> Option<Entity>)
    returns (pool: Pool?, err: Option<Error>)
    ensures err.None? <==> 1 <= total && forall i :: 0 <= i < total ==> FitsType(genEntity(i), entityType)
    ensures total < 1 ==> err == Some(Error(TotalZeroMsg))
    ensures 1 <= total && err.Some? ==> err == Some(Error(WrongTypeMsg(entityType)))
    ensures err.Some? <==> pool == null
    ensures pool != null ==> fresh(pool) && pool.Valid()
    ensures pool != null ==> pool.total == total && pool.etype == entityType
    ensures pool != null ==> |pool.container| == total
    ensures pool != null ==> forall i :: 0 <= i < total ==> pool.container[i] == genEntity(i).value
    ensures pool != null ==> forall id :: id in pool.idContainer ==> pool.idContainer[id]
    ensures pool != null ==> pool.idContainer.Keys == pool.IdleIds()
    ensures pool != null ==> (pool.Exact() <==> DistinctIds(genEntity, total))
  {
    if total < 1 {
      return null, Some(Error(TotalZeroMsg));
    }
    var container: seq<Entity> := [];
    var idContainer: map<uint32, bool> := map[];
    var i := 0;
    while i < total
      invariant 0 <= i <= total
      invariant |container| == i
      invariant forall k :: 0 <= k < i ==> FitsType(genEntity(k), entityType) && container[k] == genEntity(k).value
      invariant forall id :: id in idContainer ==> idContainer[id]
      invariant idContainer.Keys == set e | e in container :: e.id
    {
      var newEntity := genEntity(i);
      if !FitsType(newEntity, entityType) {
        return null, Some(Error(WrongTypeMsg(entityType)));
      }
      container := container + [newEntity.value];
      idContainer := idContainer[newEntity.value.id := true];
      i := i + 1;
    }
    pool := new Pool.Make(total, entityType, container, idContainer);
    assert pool.CheckedOut() == {};
    err := None;
    if DistinctIds(genEntity, total) {
      forall id | id in pool.idContainer && pool.idContainer[id] ensures id in pool.IdleIds() {
      }
    }
  }

  /** `Used()` reports the idle entities: with distinct ids, it and the checked-out
      count add up to `Total()`, so a fresh pool reports `Used() == Total()`. */
  lemma UsedIsIdleCount(p: Pool)
    requires p.Exact()
    ensures p.Used() as int + |p.CheckedOut()| == p.Total() as int
    ensures p.Used() == p.Total() <==> p.CheckedOut() == {}
  {
  }

  /** Taking an entity and handing it straight back restores the pool: the same
      entities idle (now with the taken one at the back) and the same id map. */
  method TakeThenReturn(p: Pool) returns (e: Entity, err: Option<Error>)
    requires p.Exact() && |p.container| > 0
    modifies p
    ensures err.None? && p.Exact()
    ensures multiset(p.container) == old(multiset(p.container))
    ensures p.container == old(p.container[1..]) + [old(p.container[0])]
    ensures p.idContainer == old(p.idContainer)
  {
    ghost var m := p.idContainer;
    ghost var c := p.container;
    assert m[c[0].id];
    e := p.Take();
    assert e.id in p.CheckedOut() && e.kind == p.etype;
    err := p.Return(Some(e));
    assert p.idContainer == m;
    calc {
      multiset(p.container);
      multiset(c[1..] + [c[0]]);
      multiset(c[1..]) + multiset([c[0]]);
      multiset([c[0]] + c[1..]);
      { assert [c[0]] + c[1..] == c; }
      multiset(c);
    }
  }

  /** A second `Return` of the same entity reports that it is already in the pool. */
  method ReturnTwice(p: Pool, e: Entity) returns (first: Option<Error>, second: Option<Error>)
    requires p.Valid() && e.kind == p.etype && e.id in p.CheckedOut()
    modifies p
    ensures first.None? && second == Some(Error(AlreadyInPoolMsg))
  {
    first := p.Return(Some(e));
    second := p.Return(Some(e));
  }
}
