/** The snapshot diff engine of the relation libraries: compares the snapshot of the
    remote application's bag stored by the previous call with the bag as it is now, and
    stores the current one for the next call. */
module DiffEngine {
  import opened Wrappers

  /** A relation data bag: string keys to string values. */
  type Bag = map<string, string>

  /** The reserved key under which the previous snapshot is stored in the local bag. */
  const SnapshotKey: string := "data"

  /** Keys that appeared, keys whose value changed, and keys that disappeared. */
  datatype Diff = Diff(added: set<string>, changed: set<string>, deleted: set<string>)

  const NoChange: Diff := Diff({}, {}, {})

  function ComputeDiff(prior: Bag, current: Bag): (d: Diff)
    ensures d.added !! d.changed && d.added !! d.deleted && d.changed !! d.deleted
    ensures d.added + d.changed <= current.Keys && d.changed + d.deleted <= prior.Keys
    ensures d.added !! prior.Keys && d.deleted !! current.Keys
    ensures forall k :: k in d.changed ==> prior[k] != current[k]
    ensures forall k :: k in prior && k in current && prior[k] == current[k] ==>
              k !in d.added && k !in d.changed && k !in d.deleted
  {
    var changed := set k | k in prior && k in current && prior[k] != current[k];
    Diff(current.Keys - prior.Keys, changed, prior.Keys - current.Keys)
  }

  /** Replays a diff on the prior snapshot, taking the values of added and changed keys
      from `current`: the reference against which ComputeDiff is checked. */
  function ApplyDiff(prior: Bag, d: Diff, current: Bag): Bag
    requires d.added + d.changed <= current.Keys
  {
    map k | k in (prior.Keys - d.deleted) + d.added + d.changed ::
      if k in d.added + d.changed then current[k] else prior[k]
  }

  /** Replaying the computed diff on the prior snapshot yields the current one. */
  lemma DiffReconstructs(prior: Bag, current: Bag)
    ensures ApplyDiff(prior, ComputeDiff(prior, current), current) == current
  {
    var d := ComputeDiff(prior, current);
    var r := ApplyDiff(prior, d, current);
    assert r.Keys == current.Keys;
    forall k | k in current ensures r[k] == current[k] {
      if k !in d.added && k !in d.changed {
        assert k in prior && prior[k] == current[k];
      }
    }
  }

  /** A key is reported added exactly when it is current and was not in the prior
      snapshot: a key that only changes value is never added. */
  lemma AddedIff(prior: Bag, current: Bag, k: string)
    ensures k in ComputeDiff(prior, current).added <==> k in current && k !in prior
  {
  }

  /** The contract of ComputeDiff, together with reconstruction, leaves no other choice:
      any diff with those properties is the computed one. */
  lemma {:induction false} DiffDetermined(prior: Bag, current: Bag, d: Diff)
    requires d.added !! d.changed && d.added !! d.deleted && d.changed !! d.deleted
    requires d.added + d.changed <= current.Keys && d.changed + d.deleted <= prior.Keys
    requires d.added !! prior.Keys && d.deleted !! current.Keys
    requires forall k :: k in d.changed ==> prior[k] != current[k]
    requires ApplyDiff(prior, d, current) == current
    ensures d == ComputeDiff(prior, current)
  {
    var c := ComputeDiff(prior, current);
    var r := ApplyDiff(prior, d, current);
    forall k | k in current && k !in prior ensures k in d.added {
      assert k in r;
    }
    forall k | k in prior && k !in current ensures k in d.deleted {
      assert k !in r;
    }
    forall k | k in prior && k in current && prior[k] != current[k] ensures k in d.changed {
      assert r[k] == current[k];
    }
    assert d.added == c.added;
    assert d.deleted == c.deleted;
    assert d.changed == c.changed;
  }

  /** A diff is empty exactly when nothing moved. */
  lemma DiffEmptyIffEqual(prior: Bag, current: Bag)
    ensures ComputeDiff(prior, current) == NoChange <==> prior == current
  {
    var d := ComputeDiff(prior, current);
    if d == NoChange {
      assert prior.Keys == current.Keys by {
        forall k | k in current ensures k in prior { assert k !in d.added; }
        forall k | k in prior ensures k in current { assert k !in d.deleted; }
      }
      forall k | k in prior ensures prior[k] == current[k] { assert k !in d.changed; }
    }
  }

  /** First observation: with no prior snapshot every current key is added. */
  lemma FirstObservation(current: Bag)
    ensures ComputeDiff(map[], current) == Diff(current.Keys, {}, {})
  {
  }

  /** A remote side that shows nothing makes every previously seen key deleted. */
  lemma EverythingDeleted(prior: Bag)
    ensures ComputeDiff(prior, map[]) == Diff({}, {}, prior.Keys)
  {
  }

  /** The snapshot taken of the remote application's bag: all of it but the reserved
      key, or nothing when the event carries no remote application. */
  function CurrentSnapshot(remote: Option<Bag>): (s: Bag)
    ensures SnapshotKey !in s
    ensures remote.None? ==> s == map[]
    ensures remote.Some? ==> forall k :: k != SnapshotKey ==>
              (k in s <==> k in remote.value) && (k in s ==> s[k] == remote.value[k])
  {
    if remote.Some? then remote.value - {SnapshotKey} else map[]
  }

  /** The JSON encoder and decoder of snapshots. `loads` answers None for text that is not
      JSON or whose JSON is not an object, where the diff raises. A JSON object whose values
      are not all strings has no `Bag` to decode to. */
  datatype Codec = Codec(dumps: Bag -> string, loads: string -> Option<Bag>)

  /** The one law assumed of the codec: decoding an encoding gives the map back. */
  ghost predicate RoundTrips(codec: Codec)
  {
    forall m :: codec.loads(codec.dumps(m)) == Some(m)
  }

  /** The prior snapshot read from the local bag; an absent key reads as `"{}"`. */
  function PriorSnapshot(codec: Codec, local: Bag): Option<Bag>
  {
    if SnapshotKey in local then codec.loads(local[SnapshotKey]) else Some(map[])
  }

  /** One call of the diff: the diff and the local bag with the new snapshot stored, or
      None when the stored snapshot does not decode (the call raises, nothing is written). */
  function DiffStep(codec: Codec, local: Bag, remote: Option<Bag>): (r: Option<(Diff, Bag)>)
    ensures r.None? <==> PriorSnapshot(codec, local).None?
    ensures r.Some? ==> r.value.0 == ComputeDiff(PriorSnapshot(codec, local).value, CurrentSnapshot(remote))
    ensures r.Some? ==>
              && r.value.1.Keys == local.Keys + {SnapshotKey}
              && (forall k :: k in local && k != SnapshotKey ==> r.value.1[k] == local[k])
              && r.value.1[SnapshotKey] == codec.dumps(CurrentSnapshot(remote))
  {
    match PriorSnapshot(codec, local)
    case None => None
    case Some(prior) =>
      var current := CurrentSnapshot(remote);
      Some((ComputeDiff(prior, current), local[SnapshotKey := codec.dumps(current)]))
  }

  /** Without a stored snapshot, every key of the remote bag except the reserved one is
      added, and nothing is changed or deleted. */
  lemma DiffStepWithoutSnapshot(codec: Codec, local: Bag, remote: Bag)
    requires SnapshotKey !in local
    ensures DiffStep(codec, local, Some(remote)).Some?
    ensures DiffStep(codec, local, Some(remote)).value.0 == Diff(remote.Keys - {SnapshotKey}, {}, {})
  {
    FirstObservation(CurrentSnapshot(Some(remote)));
  }

  /** Without a remote application every key of the stored snapshot is deleted. */
  lemma DiffStepWithoutApp(codec: Codec, local: Bag)
    requires PriorSnapshot(codec, local).Some?
    ensures DiffStep(codec, local, None).Some?
    ensures DiffStep(codec, local, None).value.0 == Diff({}, {}, PriorSnapshot(codec, local).value.Keys)
  {
    EverythingDeleted(PriorSnapshot(codec, local).value);
  }

  /** Idempotence: a second diff with no remote change in between reports nothing and
      leaves the local bag as the first one left it. */
  lemma DiffStepTwice(codec: Codec, local: Bag, remote: Option<Bag>)
    requires RoundTrips(codec)
    requires DiffStep(codec, local, remote).Some?
    ensures var after := DiffStep(codec, local, remote).value.1;
            DiffStep(codec, after, remote) == Some((NoChange, after))
  {
    var current := CurrentSnapshot(remote);
    var after := DiffStep(codec, local, remote).value.1;
    assert codec.loads(codec.dumps(current)) == Some(current);
    assert PriorSnapshot(codec, after) == Some(current);
    DiffEmptyIffEqual(current, current);
    assert after[SnapshotKey := codec.dumps(current)] == after;
  }
}
