/** The relation library `azure` bundled with the test charm: a provider that asks for
    credentials when the requirer names its container, and a requirer that loads the
    provider's data, picks a default container and reports changes. */
module AzureTestLib {
  import opened Wrappers
  import opened DiffEngine
  import opened Juju
  import opened Completeness
  import opened ContainerNaming

  /** The fields a requirer checks for before reporting credentials. */
  const RequiredOptions: seq<string> := ["container", "storage-account", "secret-key"]

  /** The key whose first appearance in the requirer's bag asks for credentials. */
  const TriggerKey: string := "az-container-name"

  /** The container named by a credentials-changed event: the remote application's
      `container` value, or nothing when there is no remote application or no such key. */
  function ChangedEventContainer(r: Relation): (c: Option<string>)
    ensures c.Some? <==> r.app.Some? && "container" in r.remoteApp
    ensures c.Some? ==> c.value == r.remoteApp["container"]
  {
    if r.app.None? then None
    else if "container" in r.remoteApp then Some(r.remoteApp["container"])
    else None
  }

  /** A value of the loaded relation data: decoded JSON, or the raw text when it is not JSON. */
  datatype Loaded<J> = Decoded(value: J) | Verbatim(text: string)

  /** The loaded view of a bag, as `_load_relation_data` builds it. */
  function LoadedView<J>(raw: Bag, decode: string -> Option<J>): map<string, Loaded<J>>
  {
    map k | k in raw :: match decode(raw[k]) case Some(v) => Decoded(v) case None => Verbatim(raw[k])
  }

  /** `update_connection_info`, shared by the provider and the requirer of this library:
      leader only, nothing for a relation that is gone, otherwise the given pairs are copied
      one by one and merged into this application's bag. */
  method WriteConnectionInfo(ep: Endpoint, leader: bool, id: int, connection: Bag)
    requires ep.Valid()
    modifies ep
    ensures ep.Valid() && ep.relations == old(ep.relations)
    ensures ep.secretRegistrations == old(ep.secretRegistrations)
    ensures ep.data == if leader then MergedAt(old(ep.data), id, connection) else old(ep.data)
  {
    if !leader {
      return;
    }
    if id !in ep.data {
      return;
    }
    var updated: Bag := map[];
    var pending := connection.Keys;
    while pending != {}
      invariant pending <= connection.Keys
      invariant updated.Keys == connection.Keys - pending
      invariant forall k :: k in updated ==> updated[k] == connection[k]
      decreases pending
    {
      var k :| k in pending;
      updated := updated[k := connection[k]];
      pending := pending - {k};
    }
    assert updated == connection;
    ep.Merge(id, updated);
  }

  class AzureStorageProvider {
    const relationData: Endpoint
    var emitted: seq<Emitted>

    ghost predicate Valid()
      reads this, relationData
    {
      relationData.Valid()
    }

    constructor (relationData: Endpoint)
      requires relationData.Valid()
      ensures Valid() && this.relationData == relationData && emitted == []
    {
      this.relationData := relationData;
      emitted := [];
    }

    /** Relation-changed: a non-leader does nothing; the leader diffs the requirer's bag
        against its snapshot (kept in this application's bag) and asks for credentials when
        the trigger key has just appeared. */
    method OnRelationChanged(leader: bool, ev: RelationEvent, codec: Codec) returns (raised: bool)
      requires Valid() && ev.relationId in relationData.data
      modifies this, relationData
      ensures Valid() && relationData.relations == old(relationData.relations)
      ensures relationData.secretRegistrations == old(relationData.secretRegistrations)
      ensures !leader ==> !raised && emitted == old(emitted) && relationData.data == old(relationData.data)
      ensures leader ==>
                var r := old(relationData.data)[ev.relationId];
                match DiffStep(codec, r.localApp, RemoteView(r, ev.app))
                case None =>
                  raised && emitted == old(emitted) && relationData.data == old(relationData.data)
                case Some(step) =>
                  && !raised
                  && relationData.data == old(relationData.data)[ev.relationId := r.(localApp := step.1)]
                  && emitted == old(emitted) +
                       (if TriggerKey in step.0.added then [EmittedFor(CredentialsRequested, ev)] else [])
    {
      if !leader {
        return false;
      }
      var diff := relationData.Diff(ev, LocalApp, codec);
      if diff.None? {
        return true;
      }
      raised := false;
      if TriggerKey in diff.value.added {
        emitted := emitted + [EmittedFor(CredentialsRequested, ev)];
      }
    }

    method UpdateConnectionInfo(leader: bool, id: int, connection: Bag)
      requires Valid()
      modifies relationData
      ensures Valid() && relationData.relations == old(relationData.relations)
      ensures relationData.secretRegistrations == old(relationData.secretRegistrations)
      ensures relationData.data ==
                if leader then MergedAt(old(relationData.data), id, connection) else old(relationData.data)
    {
      WriteConnectionInfo(relationData, leader, id, connection);
    }

    /** Writes the one key `secret-key`. */
    method SetSecretKey(leader: bool, id: int, secretKey: string)
      requires Valid()
      modifies relationData
      ensures Valid() && relationData.relations == old(relationData.relations)
      ensures relationData.secretRegistrations == old(relationData.secretRegistrations)
      ensures relationData.data ==
                if leader then MergedAt(old(relationData.data), id, map["secret-key" := secretKey]) else old(relationData.data)
    {
      UpdateConnectionInfo(leader, id, map["secret-key" := secretKey]);
    }
  }

  class AzureStorageRequirer {
    const relationData: Endpoint
    /** The container name, given at construction or generated on the first join. */
    var container: Option<string>
    var emitted: seq<Emitted>

    ghost predicate Valid()
      reads this, relationData
    {
      relationData.Valid()
    }

    constructor (relationData: Endpoint, containerName: Option<string>)
      requires relationData.Valid()
      ensures Valid() && this.relationData == relationData
      ensures container == containerName && emitted == []
    {
      this.relationData := relationData;
      container := containerName;
      emitted := [];
    }

    /** `_load_relation_data`: the same keys, each value decoded when it is JSON and kept
        as it is otherwise. */
    method LoadRelationData<J>(raw: Bag, decode: string -> Option<J>) returns (loaded: map<string, Loaded<J>>)
      ensures loaded.Keys == raw.Keys
      ensures forall k :: k in raw && decode(raw[k]).Some? ==> loaded[k] == Decoded(decode(raw[k]).value)
      ensures forall k :: k in raw && decode(raw[k]).None? ==> loaded[k] == Verbatim(raw[k])
    {
      loaded := map[];
      var pending := raw.Keys;
      while pending != {}
        invariant pending <= raw.Keys
        invariant loaded.Keys == raw.Keys - pending
        invariant forall k :: k in loaded && decode(raw[k]).Some? ==> loaded[k] == Decoded(decode(raw[k]).value)
        invariant forall k :: k in loaded && decode(raw[k]).None? ==> loaded[k] == Verbatim(raw[k])
        decreases pending
      {
        var k :| k in pending;
        match decode(raw[k]) {
          case Some(v) => loaded := loaded[k := Decoded(v)];
          case None => loaded := loaded[k := Verbatim(raw[k])];
        }
        pending := pending - {k};
      }
    }

    /** The loaded data of the first relation that has a remote application, or the empty
        map when none has. */
    method GetAzureConnectionInfo<J>(decode: string -> Option<J>) returns (info: map<string, Loaded<J>>)
      requires Valid()
      ensures info == LoadedView(FirstRemoteAppData(relationData.relations, relationData.data), decode)
    {
      var k := relationData.FindFirstWithApp();
      if k.None? {
        return map[];
      }
      info := LoadRelationData(relationData.data[relationData.relations[k.value]].remoteApp, decode);
    }

    /** Relation-changed: collects the missing required fields and emits
        credentials-changed whether or not any is missing. */
    method OnRelationChanged<J>(ev: RelationEvent, decode: string -> Option<J>) returns (missing: seq<string>)
      requires Valid()
      modifies this
      ensures Valid() && container == old(container)
      ensures missing == Missing(RequiredOptions, FirstRemoteAppData(relationData.relations, relationData.data).Keys)
      ensures emitted == old(emitted) + [EmittedFor(CredentialsChanged, ev)]
    {
      var credentials := GetAzureConnectionInfo(decode);
      var complete;
      assert credentials.Keys == FirstRemoteAppData(relationData.relations, relationData.data).Keys;
      missing, complete := CollectMissing(RequiredOptions, credentials.Keys);
      emitted := emitted + [EmittedFor(CredentialsChanged, ev)];
    }

    /** Relation-joined: a missing container name becomes `relation-<id>` and is kept; the
        container is then written to this application's bag of the relation. */
    method OnRelationJoined(leader: bool, ev: RelationEvent)
      requires Valid()
      modifies this, relationData
      ensures Valid() && relationData.relations == old(relationData.relations)
      ensures relationData.secretRegistrations == old(relationData.secretRegistrations)
      ensures container == if old(container).None? then Some(DefaultContainerName(ev.relationId)) else old(container)
      ensures emitted == old(emitted)
      ensures var id := ev.relationId;
              relationData.data ==
                if leader then MergedAt(old(relationData.data), id, map["container" := container.value]) else old(relationData.data)
    {
      if container.None? {
        container := Some(DefaultContainerName(ev.relationId));
      }
      UpdateConnectionInfo(leader, ev.relationId, map["container" := container.value]);
    }

    /** Relation-broken: credentials-gone, always. */
    method OnRelationBroken(ev: RelationEvent)
      modifies this
      ensures container == old(container)
      ensures emitted == old(emitted) + [EmittedFor(CredentialsGone, ev)]
    {
      emitted := emitted + [EmittedFor(CredentialsGone, ev)];
    }

    method UpdateConnectionInfo(leader: bool, id: int, connection: Bag)
      requires Valid()
      modifies relationData
      ensures Valid() && relationData.relations == old(relationData.relations)
      ensures relationData.secretRegistrations == old(relationData.secretRegistrations)
      ensures relationData.data ==
                if leader then MergedAt(old(relationData.data), id, connection) else old(relationData.data)
    {
      WriteConnectionInfo(relationData, leader, id, connection);
    }
  }
}
