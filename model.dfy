/** Keys, values and key/value pairs that flow through the syncer pipeline:
    the high-level (v2) resource keys and Profile values that come in, and the
    low-level (v1) profile keys and values that go out to the dataplane. */
module Model {

  datatype Option<+T> = None | Some(value: T)

  /** The value of a call that may fail, in place of Go's (value, error) pair. */
  datatype Result<+T, +E> = Success(value: T) | Failure(error: E)

  /** The resource kind tag of a v2 Profile. */
  const KindProfile: string := "Profile"

  /** A revision is an opaque token; the empty string means "no revision set". */
  type Revision = string
  const NoRevision: Revision := ""

  /** A v2 policy rule (ingress or egress) and a v1 backend rule. Their contents
      are defined outside this model; they are only ever carried and converted. */
  type RuleV2
  type Rule

  type Labels = map<string, string>

  /** The part of a v2 Profile's spec that the v1 representation is built from. */
  datatype ProfileSpec = ProfileSpec(labelsToApply: Labels, ingressRules: seq<RuleV2>, egressRules: seq<RuleV2>)

  /** The v1 rules of a profile: inbound rules come from ingress, outbound from egress. */
  datatype ProfileRules = ProfileRules(inboundRules: seq<Rule>, outboundRules: seq<Rule>)

  /** The v1 profile the converter builds before it is split into pairs. */
  datatype Profile = Profile(rules: ProfileRules, labels: Labels)

  datatype ProfileKey = ProfileKey(name: string)

  /** Every key a KVPair may carry: a v2 resource key, the two v1 profile keys,
      or any other key of the backend model. */
  datatype Key =
    | ResourceKey(kind: string, name: string)
    | ProfileLabelsKey(labelsOf: ProfileKey)
    | ProfileRulesKey(rulesOf: ProfileKey)
    | OtherKey

  /** Every value a KVPair may carry: a v2 Profile resource, the v1 labels, the
      v1 rules, or any other value (of another resource type). */
  datatype Value =
    | ProfileV2(spec: ProfileSpec)
    | LabelsValue(labels: Labels)
    | RulesValue(rules: ProfileRules)
    | OtherValue

  /** A key with an optional value (None is a deletion) and a revision. */
  datatype KVPair = KVPair(key: Key, value: Option<Value>, revision: Revision)

  /** The keys of a list of pairs, in order. */
  function KeysOf(kvps: seq<KVPair>): seq<Key>
  {
    seq(|kvps|, i requires 0 <= i < |kvps| => kvps[i].key)
  }
}
