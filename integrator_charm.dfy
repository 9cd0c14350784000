/** The object-storage integrator charm: validates its configuration, resolves the
    credentials secret into a `secret-key`, and publishes one payload to every relation
    (or to the one that asked), and reports the configuration through an action. */
module IntegratorCharm {
  import opened Wrappers
  import opened DiffEngine
  import opened Juju
  import opened Completeness
  import ObjectStorageLib

  /** Every configuration option the charm publishes, in order. */
  const AzureOptions: seq<string> := ["container", "storage-account", "credentials", "path", "connection-protocol"]

  /** The options without which the charm is blocked, in order. */
  const AzureMandatoryOptions: seq<string> := ["container", "storage-account", "credentials", "connection-protocol"]

  /** The option that holds the URI of the secret with the storage key. */
  const CredentialsOption: string := "credentials"

  /** The relation field (and secret content field) that carries the storage key. */
  const SecretKeyField: string := "secret-key"

  const PermissionDeniedText: string := "permission denied"

  /** The charm's configuration: option name to value; an option without a value is absent. */
  type Config = map<string, string>

  /** The options that are set: present and not empty (Python's truthiness). */
  function SetOptions(config: Config): set<string>
  {
    set o | o in config && config[o] != ""
  }

  /** What the secret store answers for a secret id: its content, no such secret, or some
      other model error with its message. */
  datatype SecretLookup = Found(content: map<string, string>) | NoSuchSecret | ModelFailure(message: string)

  type SecretStore = string -> SecretLookup

  /** The errors `decode_secret_key` raises. */
  datatype SecretError = SecretNotFound | PermissionNotGranted | ModelError(message: string)

  predicate OccursAt(s: string, pattern: string, i: nat)
  {
    i + |pattern| <= |s| && s[i..i + |pattern|] == pattern
  }

  /** Python's `pattern in s` for strings. */
  function Contains(s: string, pattern: string): bool
    decreases |s|
  {
    if |s| < |pattern| then false
    else if s[..|pattern|] == pattern then true
    else Contains(s[1..], pattern)
  }

  lemma {:induction false} ContainsIff(s: string, pattern: string)
    ensures Contains(s, pattern) <==> exists i: nat :: OccursAt(s, pattern, i)
    decreases |s|
  {
    if |s| < |pattern| {
      forall i: nat ensures !OccursAt(s, pattern, i) { }
    } else if s[..|pattern|] == pattern {
      assert OccursAt(s, pattern, 0);
    } else {
      ContainsIff(s[1..], pattern);
      if Contains(s[1..], pattern) {
        var i: nat :| OccursAt(s[1..], pattern, i);
        assert s[i + 1..i + 1 + |pattern|] == s[1..][i..i + |pattern|];
        assert OccursAt(s, pattern, i + 1);
      } else {
        forall i: nat | OccursAt(s, pattern, i) ensures false {
          assert i != 0;
          assert s[1..][i - 1..i - 1 + |pattern|] == s[i..i + |pattern|];
          assert OccursAt(s[1..], pattern, i - 1);
        }
      }
    }
  }

  /** `decode_secret_key`: the non-empty `secret-key` of the secret's content; a missing
      secret or a content without a non-empty `secret-key` is SecretNotFound, a
      permission-denied model error is PermissionNotGranted, any other model error passes. */
  function DecodeSecretKey(secrets: SecretStore, secretId: string): (r: Result<string, SecretError>)
    ensures r.Ok? <==> && secrets(secretId).Found?
                       && SecretKeyField in secrets(secretId).content
                       && secrets(secretId).content[SecretKeyField] != ""
    ensures r.Ok? ==> r.value == secrets(secretId).content[SecretKeyField] && r.value != ""
    ensures r.Err? && !secrets(secretId).ModelFailure? ==> r.error == SecretNotFound
    ensures secrets(secretId).ModelFailure? ==>
              r == Err(if Contains(secrets(secretId).message, PermissionDeniedText)
                       then PermissionNotGranted
                       else ModelError(secrets(secretId).message))
  {
    match secrets(secretId)
    case NoSuchSecret => Err(SecretNotFound)
    case ModelFailure(message) =>
      if Contains(message, PermissionDeniedText) then Err(PermissionNotGranted) else Err(ModelError(message))
    case Found(content) =>
      if SecretKeyField !in content || content[SecretKeyField] == "" then Err(SecretNotFound)
      else Ok(content[SecretKeyField])
  }

  /** Why the charm is blocked. */
  datatype BlockReason = MissingParameters(options: seq<string>) | SecretUnusable(error: SecretError)

  /** The unit status, as far as the charm sets it; `Other` is any status it did not set. */
  datatype Status = Active | Blocked(reason: BlockReason) | Other(name: string)

  /** `check_and_set_status`: blocked on missing mandatory options (naming them in order),
      then blocked when the credentials secret does not decode, otherwise active when asked
      to be, and the status as it was otherwise. */
  function CheckedStatus(current: Status, config: Config, secrets: SecretStore, setActive: bool): (s: Status)
    ensures !Complete(AzureMandatoryOptions, SetOptions(config)) ==>
              s == Blocked(MissingParameters(Missing(AzureMandatoryOptions, SetOptions(config))))
    ensures Complete(AzureMandatoryOptions, SetOptions(config)) ==>
              CredentialsOption in config &&
              match DecodeSecretKey(secrets, config[CredentialsOption])
              case Err(e) => s == Blocked(SecretUnusable(e))
              case Ok(_) => s == if setActive then Active else current
  {
    MissingEmptyIff(AzureMandatoryOptions, SetOptions(config));
    var missing := Missing(AzureMandatoryOptions, SetOptions(config));
    if missing != [] then Blocked(MissingParameters(missing))
    else
      assert AzureMandatoryOptions[2] == CredentialsOption;
      match DecodeSecretKey(secrets, config[CredentialsOption])
      case Err(e) => Blocked(SecretUnusable(e))
      case Ok(_) => if setActive then Active else current
  }

  /** The charm turns active only when every mandatory option is set and the secret
      decodes, and only when asked to (or when it already was). */
  lemma ActiveIff(current: Status, config: Config, secrets: SecretStore, setActive: bool)
    ensures CheckedStatus(current, config, secrets, setActive) == Active <==>
              && Complete(AzureMandatoryOptions, SetOptions(config))
              && CredentialsOption in config
              && DecodeSecretKey(secrets, config[CredentialsOption]).Ok?
              && (setActive || current == Active)
  {
    if !Complete(AzureMandatoryOptions, SetOptions(config)) {
      assert CheckedStatus(current, config, secrets, setActive).Blocked?;
    }
  }

  /** The payload built from the options, in order: unset options are skipped,
      `credentials` becomes `secret-key` holding the decoded key (and is skipped when it
      does not decode), every other option keeps its name and value. */
  function AssemblePayload(options: seq<string>, config: Config, secrets: SecretStore): Bag
    decreases |options|
  {
    if options == [] then map[]
    else
      var before := AssemblePayload(options[..|options| - 1], config, secrets);
      var option := options[|options| - 1];
      if option !in SetOptions(config) then before
      else if option == CredentialsOption then
        match DecodeSecretKey(secrets, config[option])
        case Ok(key) => before[SecretKeyField := key]
        case Err(_) => before
      else before[option := config[option]]
  }

  /** The payload in terms of the configuration: it holds exactly the set options under
      their own names except `credentials`, which never appears and is replaced by
      `secret-key` when it decodes. */
  lemma {:induction false} AssemblePayloadContents(options: seq<string>, config: Config, secrets: SecretStore)
    requires SecretKeyField !in options
    ensures var p := AssemblePayload(options, config, secrets);
            && CredentialsOption !in p
            && (forall k :: k != SecretKeyField && k != CredentialsOption ==>
                  (k in p <==> k in options && k in SetOptions(config)))
            && (forall k :: k in p && k != SecretKeyField ==> p[k] == config[k])
            && (SecretKeyField in p <==>
                  && CredentialsOption in options && CredentialsOption in SetOptions(config)
                  && DecodeSecretKey(secrets, config[CredentialsOption]).Ok?)
            && (SecretKeyField in p ==> p[SecretKeyField] == DecodeSecretKey(secrets, config[CredentialsOption]).value)
    decreases |options|
  {
    if options != [] {
      var prefix := options[..|options| - 1];
      var option := options[|options| - 1];
      assert options == prefix + [option];
      AssemblePayloadContents(prefix, config, secrets);
    }
  }

  /** The payload published to relations holds no `credentials` key; `secret-key` is
      present exactly when the credentials option is set and decodes. */
  lemma PublishedPayload(config: Config, secrets: SecretStore)
    ensures var p := AssemblePayload(AzureOptions, config, secrets);
            && CredentialsOption !in p
            && (SecretKeyField in p <==>
                  CredentialsOption in SetOptions(config) && DecodeSecretKey(secrets, config[CredentialsOption]).Ok?)
            && (forall k :: k in p && k != SecretKeyField ==> k in AzureOptions && k in SetOptions(config) && p[k] == config[k])
  {
    AssemblePayloadContents(AzureOptions, config, secrets);
  }

  /** The result of the get-connection-info action. */
  datatype ActionOutcome = Failed(message: string) | Results(results: map<string, string>)

  class ObjectStorageIntegratorCharm {
    const provider: ObjectStorageLib.AzureStorageProvides
    var config: Config
    var status: Status

    ghost predicate Valid()
      reads this, provider.relationData
    {
      provider.relationData.Valid()
    }

    constructor (provider: ObjectStorageLib.AzureStorageProvides, config: Config, status: Status)
      requires provider.relationData.Valid()
      ensures Valid() && this.provider == provider && this.config == config && this.status == status
    {
      this.provider := provider;
      this.config := config;
      this.status := status;
    }

    /** `get_missing_parameters`: the mandatory options that are unset, in order. */
    method GetMissingParameters() returns (missing: seq<string>)
      ensures missing == Missing(AzureMandatoryOptions, SetOptions(config))
      ensures forall o :: o in missing <==> o in AzureMandatoryOptions && (o !in config || config[o] == "")
    {
      var complete;
      missing, complete := CollectMissing(AzureMandatoryOptions, SetOptions(config));
    }

    method CheckAndSetStatus(secrets: SecretStore, setActive: bool)
      modifies this
      ensures config == old(config)
      ensures status == CheckedStatus(old(status), config, secrets, setActive)
    {
      var missing := GetMissingParameters();
      MissingEmptyIff(AzureMandatoryOptions, SetOptions(config));
      if missing != [] {
        status := Blocked(MissingParameters(missing));
        return;
      }
      assert AzureMandatoryOptions[2] == CredentialsOption;
      match DecodeSecretKey(secrets, config[CredentialsOption]) {
        case Err(e) =>
          status := Blocked(SecretUnusable(e));
          return;
        case Ok(_) =>
      }
      if setActive {
        status := Active;
      }
    }

    method OnStart(secrets: SecretStore)
      modifies this
      ensures config == old(config)
      ensures status == CheckedStatus(old(status), config, secrets, false)
    {
      CheckAndSetStatus(secrets, false);
    }

    method OnUpdateStatus(secrets: SecretStore)
      modifies this
      ensures config == old(config)
      ensures status == CheckedStatus(old(status), config, secrets, true)
    {
      CheckAndSetStatus(secrets, true);
    }

    /** The loop that collects the payload from the options. */
    method BuildPayload(secrets: SecretStore) returns (payload: Bag)
      ensures payload == AssemblePayload(AzureOptions, config, secrets)
    {
      payload := map[];
      for i := 0 to |AzureOptions|
        invariant payload == AssemblePayload(AzureOptions[..i], config, secrets)
      {
        assert AzureOptions[..i + 1][..i] == AzureOptions[..i];
        var option := AzureOptions[i];
        if option !in config || config[option] == "" {
          continue;
        }
        if option == CredentialsOption {
          match DecodeSecretKey(secrets, config[option]) {
            case Ok(key) => payload := payload[SecretKeyField := key];
            case Err(_) =>
          }
        } else {
          payload := payload[option := config[option]];
        }
      }
      assert AzureOptions[..|AzureOptions|] == AzureOptions;
    }

    /** Config-changed: nothing on a non-leader; the leader writes the payload to every
        relation and then checks the status, turning active when it can. */
    method OnConfigChanged(leader: bool, secrets: SecretStore)
      requires Valid()
      modifies this, provider.relationData
      ensures Valid() && config == old(config)
      ensures provider.relationData.relations == old(provider.relationData.relations)
      ensures provider.relationData.secretRegistrations == old(provider.relationData.secretRegistrations)
      ensures !leader ==> status == old(status) && provider.relationData.data == old(provider.relationData.data)
      ensures leader ==>
                && provider.relationData.data ==
                     MergeIntoEvery(old(provider.relationData.data), AssemblePayload(AzureOptions, config, secrets))
                && status == CheckedStatus(old(status), config, secrets, true)
    {
      if !leader {
        return;
      }
      var payload := BuildPayload(secrets);
      provider.relationData.UpdateEveryRelation(leader, payload);
      CheckAndSetStatus(secrets, true);
    }

    /** Credentials-requested: nothing on a non-leader; without a `container` option the
        handler fails its assertion; otherwise the payload goes to the requesting relation
        only. */
    method OnAzureCredentialsRequested(leader: bool, ev: RelationEvent, secrets: SecretStore)
      returns (raised: bool)
      requires Valid()
      modifies provider.relationData
      ensures Valid()
      ensures provider.relationData.relations == old(provider.relationData.relations)
      ensures provider.relationData.secretRegistrations == old(provider.relationData.secretRegistrations)
      ensures raised <==> leader && "container" !in config
      ensures provider.relationData.data ==
                if leader && !raised
                then MergedAt(old(provider.relationData.data), ev.relationId, AssemblePayload(AzureOptions, config, secrets))
                else old(provider.relationData.data)
    {
      if !leader {
        return false;
      }
      if "container" !in config {
        return true;
      }
      raised := false;
      var payload := BuildPayload(secrets);
      provider.relationData.UpdateRelationData(leader, ev.relationId, payload);
    }

    /** Secret-changed: ignored unless the `credentials` option is set to this secret;
        otherwise `secret-key` (the decoded key, or the empty string when it does not
        decode) is written to every relation, then the status is checked. */
    method OnSecretChanged(leader: bool, secretId: string, secrets: SecretStore)
      requires Valid()
      modifies this, provider.relationData
      ensures Valid() && config == old(config)
      ensures provider.relationData.relations == old(provider.relationData.relations)
      ensures provider.relationData.secretRegistrations == old(provider.relationData.secretRegistrations)
      ensures !(CredentialsOption in SetOptions(config) && config[CredentialsOption] == secretId) ==>
                status == old(status) && provider.relationData.data == old(provider.relationData.data)
      ensures CredentialsOption in SetOptions(config) && config[CredentialsOption] == secretId ==>
                var key := match DecodeSecretKey(secrets, secretId) case Ok(k) => k case Err(_) => "";
                && provider.relationData.data ==
                     (if leader then MergeIntoEvery(old(provider.relationData.data), map[SecretKeyField := key])
                      else old(provider.relationData.data))
                && status == CheckedStatus(old(status), config, secrets, true)
    {
      if CredentialsOption !in config || config[CredentialsOption] == "" {
        return;
      }
      if config[CredentialsOption] != secretId {
        return;
      }
      var key := match DecodeSecretKey(secrets, secretId) case Ok(k) => k case Err(_) => "";
      provider.relationData.UpdateEveryRelation(leader, map[SecretKeyField := key]);
      CheckAndSetStatus(secrets, true);
    }

    /** The get-connection-info action: the set options under their own names, with
        `credentials` as the secret URI itself; it fails when no option is set. */
    method OnGetConnectionInfoAction() returns (outcome: ActionOutcome)
      ensures outcome.Failed? <==> forall i :: 0 <= i < |AzureOptions| ==> AzureOptions[i] !in SetOptions(config)
      ensures outcome.Failed? ==> outcome.message == "Credentials are not set!"
      ensures outcome.Results? ==>
                forall k :: (k in outcome.results <==> k in AzureOptions && k in SetOptions(config))
                         && (k in outcome.results ==> outcome.results[k] == config[k])
    {
      var current: map<string, string> := map[];
      for i := 0 to |AzureOptions|
        invariant forall k :: k in current <==> k in AzureOptions[..i] && k in SetOptions(config)
        invariant forall k :: k in current ==> current[k] == config[k]
      {
        assert AzureOptions[..i + 1] == AzureOptions[..i] + [AzureOptions[i]];
        var option := AzureOptions[i];
        if option in config && config[option] != "" {
          current := current[option := config[option]];
        }
      }
      assert AzureOptions[..|AzureOptions|] == AzureOptions;
      if |current| == 0 {
        return Failed("Credentials are not set!");
      }
      outcome := Results(current);
    }
  }
}
