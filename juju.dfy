/** What the relation libraries see of a Juju model: the relations of one endpoint, each
    with the bags of this application, this unit and the remote application, and the
    helpers of the shared data-interfaces library that read and write them. */
module Juju {
  import opened Wrappers
  import opened DiffEngine

  datatype Unit = Unit(name: string, app: string)

  /** One relation as this unit sees it. `app` is the remote application, absent while the
      remote side is not known; `units` are the relation's units in iteration order. */
  datatype Relation = Relation(
    app: Option<string>,
    units: seq<Unit>,
    localApp: Bag,
    localUnit: Bag,
    remoteApp: Bag)

  /** Which of this side's bags a diff keeps its snapshot in. */
  datatype Bucket = LocalApp | LocalUnit

  function BucketOf(r: Relation, b: Bucket): Bag
  {
    match b
    case LocalApp => r.localApp
    case LocalUnit => r.localUnit
  }

  function WithBucket(r: Relation, b: Bucket, bag: Bag): (r': Relation)
    ensures BucketOf(r', b) == bag
    ensures r'.app == r.app && r'.units == r.units && r'.remoteApp == r.remoteApp
  {
    match b
    case LocalApp => r.(localApp := bag)
    case LocalUnit => r.(localUnit := bag)
  }

  /** What a diff reads as the remote side: the remote application's bag when the event
      names an application, nothing otherwise. */
  function RemoteView(r: Relation, eventApp: Option<string>): Option<Bag>
  {
    if eventApp.Some? then Some(r.remoteApp) else None
  }

  /** A relation-joined, -changed or -broken notification; `app` and `unit` are the remote
      application and unit the event names. */
  datatype RelationEvent = RelationEvent(relationId: int, app: Option<string>, unit: Option<Unit>)

  datatype EventKind = CredentialsRequested | CredentialsChanged | CredentialsGone

  /** An event the libraries emit to the charm, with the relation, app and unit it carries. */
  datatype Emitted = Emitted(kind: EventKind, relationId: int, app: Option<string>, unit: Option<Unit>)

  function EmittedFor(kind: EventKind, ev: RelationEvent): Emitted
  {
    Emitted(kind, ev.relationId, ev.app, ev.unit)
  }

  /** Index of the first of `ids` whose relation has a remote application. */
  function FirstWithApp(ids: seq<int>, rels: map<int, Relation>): (k: Option<nat>)
    requires forall i :: 0 <= i < |ids| ==> ids[i] in rels
    ensures k.Some? ==> k.value < |ids| && rels[ids[k.value]].app.Some?
    ensures k.Some? ==> forall j :: 0 <= j < k.value ==> rels[ids[j]].app.None?
    ensures k.None? ==> forall j :: 0 <= j < |ids| ==> rels[ids[j]].app.None?
    decreases |ids|
  {
    if ids == [] then None
    else if rels[ids[0]].app.Some? then Some(0)
    else match FirstWithApp(ids[1..], rels)
      case None => None
      case Some(k) => Some(k + 1)
  }

  /** The remote application data of the first relation that has a remote application,
      or the empty map when none has one. */
  function FirstRemoteAppData(ids: seq<int>, rels: map<int, Relation>): Bag
    requires forall i :: 0 <= i < |ids| ==> ids[i] in rels
  {
    match FirstWithApp(ids, rels)
    case None => map[]
    case Some(k) => rels[ids[k]].remoteApp
  }

  /** `relation.data[local_app].update(bag)` on relation `id`: that relation's application
      bag takes every given pair and keeps its other keys; nothing else changes, and a
      relation that is not there is left alone. */
  function MergedAt(rels: map<int, Relation>, id: int, bag: Bag): (r: map<int, Relation>)
    ensures r.Keys == rels.Keys
    ensures forall other :: other in rels && other != id ==> r[other] == rels[other]
    ensures id in rels ==> r[id].(localApp := rels[id].localApp) == rels[id]
    ensures id in rels ==> r[id].localApp.Keys == rels[id].localApp.Keys + bag.Keys
    ensures id in rels ==> forall k :: k in bag ==> r[id].localApp[k] == bag[k]
    ensures id in rels ==> forall k :: k in rels[id].localApp && k !in bag ==> r[id].localApp[k] == rels[id].localApp[k]
  {
    if id in rels then rels[id := rels[id].(localApp := rels[id].localApp + bag)] else rels
  }

  /** Every relation's application bag takes every pair of `update` and keeps its other
      keys; no relation appears or disappears and nothing else of a relation changes. */
  function MergeIntoEvery(rels: map<int, Relation>, update: Bag): (r: map<int, Relation>)
    ensures r.Keys == rels.Keys
    ensures forall id :: id in rels ==> r[id].(localApp := rels[id].localApp) == rels[id]
    ensures forall id :: id in rels ==> r[id].localApp.Keys == rels[id].localApp.Keys + update.Keys
    ensures forall id, k :: id in rels && k in update ==> r[id].localApp[k] == update[k]
    ensures forall id, k :: id in rels && k in rels[id].localApp && k !in update ==>
              r[id].localApp[k] == rels[id].localApp[k]
  {
    map id | id in rels :: rels[id].(localApp := rels[id].localApp + update)
  }

  /** The relations whose ids are listed have `update` merged into their application bag;
      the others are as they were. */
  function MergeIntoListed(rels: map<int, Relation>, ids: seq<int>, update: Bag): map<int, Relation>
  {
    map id | id in rels :: if id in ids then rels[id].(localApp := rels[id].localApp + update) else rels[id]
  }

  /** Merging into one more listed relation is one more merge; a relation listed twice is
      merged once, since a merge is idempotent. */
  lemma MergeIntoListedStep(rels: map<int, Relation>, ids: seq<int>, x: int, update: Bag)
    requires x in rels
    ensures MergeIntoListed(rels, ids + [x], update) == MergedAt(MergeIntoListed(rels, ids, update), x, update)
  {
    var m := MergeIntoListed(rels, ids, update);
    var bigger := MergeIntoListed(rels, ids + [x], update);
    var stepped := MergedAt(m, x, update);
    assert x in m;
    if x in ids {
      assert rels[x].localApp + update + update == rels[x].localApp + update;
    }
    forall id | id in rels ensures bigger[id] == stepped[id] {
      assert id in ids + [x] <==> id in ids || id == x;
    }
    assert bigger.Keys == stepped.Keys;
  }

  /** The relations of one endpoint (`model.relations[relation_name]`) and the helpers of
      the data-interfaces library over them. */
  class Endpoint {
    /** Relation ids in the order the model lists them. */
    var relations: seq<int>
    /** Each relation, by id. */
    var data: map<int, Relation>
    /** Record of the secret-registration calls: relation id and the added keys. */
    var secretRegistrations: seq<(int, set<string>)>

    ghost predicate Valid()
      reads this
    {
      && (forall i :: 0 <= i < |relations| ==> relations[i] in data)
      && (forall id :: id in data ==> id in relations)
    }

    constructor (relations: seq<int>, data: map<int, Relation>)
      requires forall i :: 0 <= i < |relations| ==> relations[i] in data
      requires forall id :: id in data ==> id in relations
      ensures Valid()
      ensures this.relations == relations && this.data == data && secretRegistrations == []
    {
      this.relations := relations;
      this.data := data;
      secretRegistrations := [];
    }

    /** The loop `for relation in self.relations: if relation.app: ...` of the requirers. */
    method FindFirstWithApp() returns (k: Option<nat>)
      requires Valid()
      ensures k == FirstWithApp(relations, data)
      ensures k.Some? ==> k.value < |relations| && data[relations[k.value]].app.Some?
    {
      var i := 0;
      while i < |relations|
        invariant 0 <= i <= |relations|
        invariant forall j :: 0 <= j < i ==> data[relations[j]].app.None?
      {
        if data[relations[i]].app.Some? {
          return Some(i);
        }
        i := i + 1;
      }
      return None;
    }

    /** `relation.data[local_app].update(bag)`: the transport's merge into this
        application's bag of one relation. */
    method Merge(id: int, bag: Bag)
      requires Valid() && id in data
      modifies this
      ensures Valid() && relations == old(relations) && secretRegistrations == old(secretRegistrations)
      ensures data == MergedAt(old(data), id, bag)
    {
      data := data[id := data[id].(localApp := data[id].localApp + bag)];
    }

    /** `update_relation_data` of the data-interfaces library: leader only, and a relation
        that is no longer there is left alone. */
    method UpdateRelationData(leader: bool, id: int, bag: Bag)
      requires Valid()
      modifies this
      ensures Valid() && relations == old(relations) && secretRegistrations == old(secretRegistrations)
      ensures data == if leader then MergedAt(old(data), id, bag) else old(data)
    {
      if leader && id in data {
        Merge(id, bag);
      }
    }

    /** `update_relation_data(relation.id, bag)` for every relation in turn, as the
        integrator charm does on a leader. */
    method UpdateEveryRelation(leader: bool, bag: Bag)
      requires Valid()
      modifies this
      ensures Valid() && relations == old(relations) && secretRegistrations == old(secretRegistrations)
      ensures data == if leader then MergeIntoEvery(old(data), bag) else old(data)
    {
      if !leader {
        return;
      }
      for i := 0 to |relations|
        invariant Valid() && relations == old(relations) && secretRegistrations == old(secretRegistrations)
        invariant data == MergeIntoListed(old(data), relations[..i], bag)
      {
        var id := relations[i];
        assert relations[..i + 1] == relations[..i] + [id];
        MergeIntoListedStep(old(data), relations[..i], id, bag);
        UpdateRelationData(leader, id, bag);
      }
      assert relations[..|relations|] == relations;
      var merged := MergeIntoEvery(old(data), bag);
      forall id | id in data ensures data[id] == merged[id] {
        assert id in relations;
      }
    }

    /** `_register_secrets_to_relation` of the data-interfaces library, recorded as a call. */
    method RegisterSecrets(id: int, keys: set<string>)
      requires Valid()
      modifies this
      ensures Valid() && relations == old(relations) && data == old(data)
      ensures secretRegistrations == old(secretRegistrations) + [(id, keys)]
    {
      secretRegistrations := secretRegistrations + [(id, keys)];
    }

    /** The diff of a relation-changed event: reads the prior snapshot from `bucket`, the
        remote application's bag as the current one, and stores the current snapshot. */
    method Diff(ev: RelationEvent, bucket: Bucket, codec: Codec) returns (d: Option<Diff>)
      requires Valid() && ev.relationId in data
      modifies this
      ensures Valid() && relations == old(relations) && secretRegistrations == old(secretRegistrations)
      ensures var r := old(data)[ev.relationId];
              match DiffStep(codec, BucketOf(r, bucket), RemoteView(r, ev.app))
              case None => d.None? && data == old(data)
              case Some(step) =>
                d == Some(step.0) && data == old(data)[ev.relationId := WithBucket(r, bucket, step.1)]
    {
      var r := data[ev.relationId];
      var local := BucketOf(r, bucket);
      var prior := PriorSnapshot(codec, local);
      if prior.None? {
        return None;
      }
      var current := CurrentSnapshot(RemoteView(r, ev.app));
      d := Some(ComputeDiff(prior.value, current));
      data := data[ev.relationId := WithBucket(r, bucket, local[SnapshotKey := codec.dumps(current)])];
    }
  }
}
