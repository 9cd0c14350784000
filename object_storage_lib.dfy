/** The relation library `object_storage` shipped with the integrator charm: the provider
    asks for credentials when the requirer names a container; the requirer names one on
    join and reports credentials only once they are complete. */
module ObjectStorageLib {
  import opened Wrappers
  import opened DiffEngine
  import opened Juju
  import opened Completeness
  import opened ContainerNaming

  /** The fields a requirer checks for before reporting credentials. */
  const RequiredOptions: seq<string> := ["container", "storage-account", "secret-key"]

  /** The fields the requirer receives through secrets. */
  const SecretFields: seq<string> := ["secret-key"]

  /** The key whose first appearance in the requirer's bag asks for credentials. */
  const TriggerKey: string := "container"

  /** `ContainerEvent.container`: nothing without a remote application, otherwise its
      `container` value, or the empty string when it has none. */
  function EventContainer(r: Relation): (c: Option<string>)
    ensures c.None? <==> r.app.None?
    ensures c.Some? && "container" in r.remoteApp ==> c.value == r.remoteApp["container"]
    ensures c.Some? && "container" !in r.remoteApp ==> c.value == ""
  {
    if r.app.None? then None
    else Some(if "container" in r.remoteApp then r.remoteApp["container"] else "")
  }

  /** Whether some added key is a secret field. */
  predicate AddsSecretField(added: set<string>)
  {
    exists k | k in added :: k in SecretFields
  }

  /** The only secret field is `secret-key`: secrets are registered exactly when the diff
      adds it. */
  lemma AddsSecretFieldIff(added: set<string>)
    ensures AddsSecretField(added) <==> "secret-key" in added
  {
    if "secret-key" in added {
      assert "secret-key" in SecretFields;
    }
  }

  class AzureStorageRequires {
    const relationData: Endpoint
    /** The container name, given at construction or generated on the first join. */
    var container: Option<string>
    var emitted: seq<Emitted>

    ghost predicate Valid()
      reads this, relationData
    {
      relationData.Valid()
    }

    constructor (relationData: Endpoint, container: Option<string>)
      requires relationData.Valid()
      ensures Valid() && this.relationData == relationData
      ensures this.container == container && emitted == []
    {
      this.relationData := relationData;
      this.container := container;
      emitted := [];
    }

    /** Relation-joined: a missing container name becomes `relation-<id>` and is kept; a
        configured one is never replaced. Exactly `{"container": container}` is written. */
    method OnRelationJoined(leader: bool, ev: RelationEvent)
      requires Valid()
      modifies this, relationData
      ensures Valid() && relationData.relations == old(relationData.relations)
      ensures relationData.secretRegistrations == old(relationData.secretRegistrations)
      ensures container == if old(container).None? then Some(DefaultContainerName(ev.relationId)) else old(container)
      ensures emitted == old(emitted)
      ensures var id := ev.relationId;
              relationData.data ==
                if leader then MergedAt(old(relationData.data), id, map["container" := container.value]) else old(relationData.data)
    {
      if container.None? {
        container := Some(DefaultContainerName(ev.relationId));
      }
      relationData.UpdateRelationData(leader, ev.relationId, map["container" := container.value]);
    }

    /** The fetched data of the first relation that has a remote application, or the empty
        map when none has. */
    method GetAzureConnectionInfo() returns (info: Bag)
      requires Valid()
      ensures info == FirstRemoteAppData(relationData.relations, relationData.data)
    {
      var k := relationData.FindFirstWithApp();
      if k.None? {
        return map[];
      }
      info := relationData.data[relationData.relations[k.value]].remoteApp;
    }

    /** Relation-changed: diff (snapshot in this unit's bag), register secrets when a
        secret field was added, and emit credentials-changed only when every required field
        is present. A stored snapshot that does not decode raises. */
    method OnRelationChanged(ev: RelationEvent, codec: Codec) returns (raised: bool)
      requires Valid() && ev.relationId in relationData.data
      modifies this, relationData
      ensures Valid() && relationData.relations == old(relationData.relations)
      ensures container == old(container)
      ensures var r := old(relationData.data)[ev.relationId];
              match DiffStep(codec, r.localUnit, RemoteView(r, ev.app))
              case None =>
                && raised && emitted == old(emitted)
                && relationData.data == old(relationData.data)
                && relationData.secretRegistrations == old(relationData.secretRegistrations)
              case Some(step) =>
                && !raised
                && relationData.data == old(relationData.data)[ev.relationId := WithBucket(r, LocalUnit, step.1)]
                && relationData.secretRegistrations == old(relationData.secretRegistrations) +
                     (if AddsSecretField(step.0.added) then [(ev.relationId, step.0.added)] else [])
                && emitted == old(emitted) +
                     (if Complete(RequiredOptions, FirstRemoteAppData(relationData.relations, relationData.data).Keys)
                      then [EmittedFor(CredentialsChanged, ev)] else [])
    {
      var diff := relationData.Diff(ev, LocalUnit, codec);
      if diff.None? {
        return true;
      }
      raised := false;
      if AddsSecretField(diff.value.added) {
        relationData.RegisterSecrets(ev.relationId, diff.value.added);
      }
      var credentials := GetAzureConnectionInfo();
      var missing, complete := CollectMissing(RequiredOptions, credentials.Keys);
      if complete {
        emitted := emitted + [EmittedFor(CredentialsChanged, ev)];
      }
    }

    /** Relation-broken: credentials-gone, with no completeness check. */
    method OnRelationBroken(ev: RelationEvent)
      modifies this
      ensures container == old(container)
      ensures emitted == old(emitted) + [EmittedFor(CredentialsGone, ev)]
    {
      emitted := emitted + [EmittedFor(CredentialsGone, ev)];
    }
  }

  class AzureStorageProvides {
    const relationData: Endpoint
    var emitted: seq<Emitted>

    ghost predicate Valid()
      reads this, relationData
    {
      relationData.Valid()
    }

    constructor (relationData: Endpoint)
      requires relationData.Valid()
      ensures Valid() && this.relationData == relationData && emitted == []
    {
      this.relationData := relationData;
      emitted := [];
    }

    /** Writes the one key `container`. */
    method SetContainer(leader: bool, id: int, container: string)
      requires Valid()
      modifies relationData
      ensures Valid() && relationData.relations == old(relationData.relations)
      ensures relationData.secretRegistrations == old(relationData.secretRegistrations)
      ensures relationData.data ==
                if leader then MergedAt(old(relationData.data), id, map["container" := container]) else old(relationData.data)
    {
      relationData.UpdateRelationData(leader, id, map["container" := container]);
    }

    /** Writes the one key `secret-key`. */
    method SetSecretKey(leader: bool, id: int, secretKey: string)
      requires Valid()
      modifies relationData
      ensures Valid() && relationData.relations == old(relationData.relations)
      ensures relationData.secretRegistrations == old(relationData.secretRegistrations)
      ensures relationData.data ==
                if leader then MergedAt(old(relationData.data), id, map["secret-key" := secretKey]) else old(relationData.data)
    {
      relationData.UpdateRelationData(leader, id, map["secret-key" := secretKey]);
    }

    /** Relation-changed: a non-leader does nothing; the leader diffs (snapshot in this
        application's bag) and asks for credentials when `container` has just appeared. */
    method OnRelationChanged(leader: bool, ev: RelationEvent, codec: Codec) returns (raised: bool)
      requires Valid() && ev.relationId in relationData.data
      modifies this, relationData
      ensures Valid() && relationData.relations == old(relationData.relations)
      ensures relationData.secretRegistrations == old(relationData.secretRegistrations)
      ensures !leader ==> !raised && emitted == old(emitted) && relationData.data == old(relationData.data)
      ensures leader ==>
                var r := old(relationData.data)[ev.relationId];
                match DiffStep(codec, r.localApp, RemoteView(r, ev.app))
                case None =>
                  raised && emitted == old(emitted) && relationData.data == old(relationData.data)
                case Some(step) =>
                  && !raised
                  && relationData.data == old(relationData.data)[ev.relationId := r.(localApp := step.1)]
                  && emitted == old(emitted) +
                       (if TriggerKey in step.0.added then [EmittedFor(CredentialsRequested, ev)] else [])
    {
      if !leader {
        return false;
      }
      var diff := relationData.Diff(ev, LocalApp, codec);
      if diff.None? {
        return true;
      }
      raised := false;
      if TriggerKey in diff.value.added {
        emitted := emitted + [EmittedFor(CredentialsRequested, ev)];
      }
    }
  }
}
