/** The syncer update processor for Profile resources: it turns one v2 Profile
    mutation into the v1 labels pair and the v1 rules pair the dataplane reads.
    The per-rule converter RuleAPIV2ToBackend is not part of this model; every
    member that converts rules takes it as the parameter `toBackend`. */
module ProfileProcessor {
  import opened Model

  /** Why a conversion of a v2 value to a v1 profile failed. */
  datatype ConvertError = NotAProfileValue

  /** Why Process rejected an update; each one is returned with no pairs. */
  datatype ProcessError =
    | IncorrectKeyType(expectedKind: string)  // not a resource key of the processor's kind
    | NotAV2ResourceKey                       // not a resource key (second check)
    | MissingName                             // a resource key with an empty name

  /** The start of the key-type error text; the expected kind follows it. */
  const KeyTypeErrorPrefix: string := "Incorrect key type - expecting resource of kind "

  /** The text of the error Process returns, which callers may match on; the
      key-type error ends with the kind the processor expects. */
  function ErrorMessage(e: ProcessError): (msg: string)
    ensures e.IncorrectKeyType? ==>
      && |KeyTypeErrorPrefix| <= |msg|
      && msg[..|KeyTypeErrorPrefix|] == KeyTypeErrorPrefix
      && msg[|KeyTypeErrorPrefix|..] == e.expectedKind
    ensures e.NotAV2ResourceKey? ==> |msg| == 34
    ensures e.MissingName? ==> |msg| == 45
  {
    match e
    case IncorrectKeyType(kind) => KeyTypeErrorPrefix + kind
    case NotAV2ResourceKey => "Key is not a valid V2 resource key"
    case MissingName => "Missing Name field to create a v1 Profile Key"
  }

  /** Key-type errors for different kinds have different texts, so a caller
      can tell from the message which kind was expected. It follows from the
      contract of ErrorMessage. */
  lemma KeyTypeMessagesDistinct(kind1: string, kind2: string)
    requires kind1 != kind2
    ensures ErrorMessage(IncorrectKeyType(kind1)) != ErrorMessage(IncorrectKeyType(kind2))
  {
  }

  /** Different errors have different texts, so a caller matching on the
      text can tell them apart. It follows from the contract of ErrorMessage:
      the key-type texts are at least 48 characters long and end with the kind. */
  lemma ErrorMessagesDistinct(e1: ProcessError, e2: ProcessError)
    requires e1 != e2
    ensures ErrorMessage(e1) != ErrorMessage(e2)
  {
  }

  /** The two low-level keys a profile called `name` is split into, in output order. */
  function ProfileKeys(name: string): seq<Key>
  {
    [ProfileLabelsKey(ProfileKey(name)), ProfileRulesKey(ProfileKey(name))]
  }

  /** Rule-by-rule conversion of a v2 rule list, in order. */
  function ConvertedRules(rules: seq<RuleV2>, toBackend: RuleV2 -> Rule): (r: seq<Rule>)
    ensures |r| == |rules|
    ensures forall i :: 0 <= i < |rules| ==> r[i] == toBackend(rules[i])
  {
    if rules == [] then [] else [toBackend(rules[0])] + ConvertedRules(rules[1..], toBackend)
  }

  /** The v1 profile a v2 value stands for: ingress rules become inbound rules,
      egress rules outbound rules, and the labels to apply become the labels.
      Anything other than a v2 Profile fails to convert. */
  function ConvertedProfile(val: Value, toBackend: RuleV2 -> Rule): Result<Profile, ConvertError>
  {
    match val
    case ProfileV2(spec) =>
      Success(Profile(ProfileRules(ConvertedRules(spec.ingressRules, toBackend),
                                   ConvertedRules(spec.egressRules, toBackend)),
                      spec.labelsToApply))
    case _ => Failure(NotAProfileValue)
  }

  /** The conversion as the source runs it: one append loop per direction. */
  method ConvertProfileV2ToV1Value(val: Value, toBackend: RuleV2 -> Rule) returns (res: Result<Profile, ConvertError>)
    ensures res == ConvertedProfile(val, toBackend)
    ensures res.Success? <==> val.ProfileV2?
    ensures res.Success? ==> res.value.labels == val.spec.labelsToApply
    ensures res.Success? ==>
      var inbound, ingress := res.value.rules.inboundRules, val.spec.ingressRules;
      |inbound| == |ingress| && forall i :: 0 <= i < |ingress| ==> inbound[i] == toBackend(ingress[i])
    ensures res.Success? ==>
      var outbound, egress := res.value.rules.outboundRules, val.spec.egressRules;
      |outbound| == |egress| && forall i :: 0 <= i < |egress| ==> outbound[i] == toBackend(egress[i])
  {
    if !val.ProfileV2? {
      return Failure(NotAProfileValue);
    }
    var spec := val.spec;

    var irules: seq<Rule> := [];
    for i := 0 to |spec.ingressRules|
      invariant |irules| == i
      invariant forall j :: 0 <= j < i ==> irules[j] == toBackend(spec.ingressRules[j])
    {
      irules := irules + [toBackend(spec.ingressRules[i])];
    }

    var erules: seq<Rule> := [];
    for i := 0 to |spec.egressRules|
      invariant |erules| == i
      invariant forall j :: 0 <= j < i ==> erules[j] == toBackend(spec.egressRules[j])
    {
      erules := erules + [toBackend(spec.egressRules[i])];
    }

    assert irules == ConvertedRules(spec.ingressRules, toBackend);
    assert erules == ConvertedRules(spec.egressRules, toBackend);
    res := Success(Profile(ProfileRules(irules, erules), spec.labelsToApply));
  }

  /** True when `value` is present and converts to a v1 profile. */
  predicate IsProfileValue(value: Option<Value>)
  {
    value.Some? && value.value.ProfileV2?
  }

  /** The update processor for one v2 kind. Its only state is that kind, which
      is fixed when it is built. */
  class ProfileUpdateProcessor {
    const v2Kind: string

    constructor (v2Kind: string)
      ensures this.v2Kind == v2Kind
    {
      this.v2Kind := v2Kind;
    }

    /** True when Process accepts `key`: a resource key of this kind with a name. */
    predicate Accepts(key: Key)
    {
      key.ResourceKey? && key.kind == v2Kind && key.name != ""
    }

    /** Splits one v2 update into the v1 labels pair and the v1 rules pair.
        A deletion, and a value that does not convert, both give the two keys
        with no value and no revision. */
    function Process(kvp: KVPair, toBackend: RuleV2 -> Rule): (r: Result<seq<KVPair>, ProcessError>)
      ensures r.Success? <==> Accepts(kvp.key)
      ensures !kvp.key.ResourceKey? || kvp.key.kind != v2Kind ==> r == Failure(IncorrectKeyType(v2Kind))
      ensures kvp.key.ResourceKey? && kvp.key.kind == v2Kind && kvp.key.name == "" ==> r == Failure(MissingName)
      ensures r.Success? ==> KeysOf(r.value) == ProfileKeys(kvp.key.name)
      ensures r.Success? && !IsProfileValue(kvp.value) ==>
        forall i :: 0 <= i < |r.value| ==> r.value[i].value == None && r.value[i].revision == NoRevision
      ensures r.Success? && IsProfileValue(kvp.value) ==>
        var spec := kvp.value.value.spec;
        && r.value[0].value == Some(LabelsValue(spec.labelsToApply))
        && r.value[1].value == Some(RulesValue(ProfileRules(ConvertedRules(spec.ingressRules, toBackend),
                                                            ConvertedRules(spec.egressRules, toBackend))))
        && r.value[0].revision == kvp.revision
        && r.value[1].revision == kvp.revision
    {
      if !kvp.key.ResourceKey? || kvp.key.kind != v2Kind then
        Failure(IncorrectKeyType(v2Kind))
      else if !kvp.key.ResourceKey? then
        Failure(NotAV2ResourceKey)
      else if kvp.key.name == "" then
        Failure(MissingName)
      else
        var pk := ProfileKey(kvp.key.name);
        // A deletion is not converted; a failed conversion is dropped like one.
        var v1profile: Option<Profile> :=
          if kvp.value.None? then None
          else match ConvertedProfile(kvp.value.value, toBackend)
            case Success(p) => Some(p)
            case Failure(_) => None;
        var labelsKVP :=
          if v1profile.Some? then KVPair(ProfileLabelsKey(pk), Some(LabelsValue(v1profile.value.labels)), kvp.revision)
          else KVPair(ProfileLabelsKey(pk), None, NoRevision);
        var rulesKVP :=
          if v1profile.Some? then KVPair(ProfileRulesKey(pk), Some(RulesValue(v1profile.value.rules)), kvp.revision)
          else KVPair(ProfileRulesKey(pk), None, NoRevision);
        Success([labelsKVP, rulesKVP])
    }

    /** Called when a new sync generation starts; this processor keeps no
        accumulated state, so there is nothing to reset. */
    method OnSyncerStarting()
      ensures unchanged(this)
    {
    }
  }

  /** Builds the processor for the Profile kind. */
  method NewProfileUpdateProcessor() returns (p: ProfileUpdateProcessor)
    ensures fresh(p)
    ensures p.v2Kind == KindProfile
  {
    p := new ProfileUpdateProcessor(KindProfile);
  }
}
