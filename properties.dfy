/** Properties of the Profile update processor that relate several calls, and
    what a downstream consumer's key/value store holds after it applies the
    processor's output (a present value is stored, a missing value deletes). */
module ProfileProcessorProperties {
  import opened Model
  import opened ProfileProcessor

  /** Converting a concatenation converts each part in place: rule order is
      kept across any split of the list. It follows from the element-wise
      contract of ConvertedRules. */
  lemma ConvertedRulesAppend(a: seq<RuleV2>, b: seq<RuleV2>, toBackend: RuleV2 -> Rule)
    ensures ConvertedRules(a + b, toBackend) == ConvertedRules(a, toBackend) + ConvertedRules(b, toBackend)
  {
  }

  /** The keys Process produces depend on the key alone, never on the value
      or the revision. */
  lemma OutputKeysIndependentOfValue(p: ProfileUpdateProcessor, kvp1: KVPair, kvp2: KVPair, toBackend: RuleV2 -> Rule)
    requires kvp1.key == kvp2.key
    ensures p.Process(kvp1, toBackend).Success? <==> p.Process(kvp2, toBackend).Success?
    ensures p.Process(kvp1, toBackend).Success? ==>
      KeysOf(p.Process(kvp1, toBackend).value) == KeysOf(p.Process(kvp2, toBackend).value)
  {
  }

  /** A deletion yields a value-less pair for exactly the keys the present
      resource produced, in the same order, and no revision. */
  lemma DeletionCompleteness(p: ProfileUpdateProcessor, key: Key, v: Value, rev: Revision, delRev: Revision, toBackend: RuleV2 -> Rule)
    requires p.Accepts(key)
    ensures var present, deleted := p.Process(KVPair(key, Some(v), rev), toBackend), p.Process(KVPair(key, None, delRev), toBackend);
      && present.Success? && deleted.Success?
      && KeysOf(deleted.value) == KeysOf(present.value)
      && forall i :: 0 <= i < |deleted.value| ==> deleted.value[i] == KVPair(present.value[i].key, None, NoRevision)
  {
  }

  /** A value that is not a v2 Profile gives exactly the deletion output: the
      conversion error is swallowed, not returned. */
  lemma ConversionFailureIsDeletion(p: ProfileUpdateProcessor, kvp: KVPair, delRev: Revision, toBackend: RuleV2 -> Rule)
    requires kvp.value.Some? && !kvp.value.value.ProfileV2?
    ensures p.Process(kvp, toBackend) == p.Process(KVPair(kvp.key, None, delRev), toBackend)
  {
  }

  /** Two processors for the same kind agree on every update: the output is a
      function of the kind and the update alone. */
  lemma ProcessDependsOnlyOnKind(p: ProfileUpdateProcessor, q: ProfileUpdateProcessor, kvp: KVPair, toBackend: RuleV2 -> Rule)
    requires p.v2Kind == q.v2Kind
    ensures p.Process(kvp, toBackend) == q.Process(kvp, toBackend)
  {
  }

  /** The second key check is dead code: its error never comes back. */
  lemma SecondKeyCheckUnreachable(p: ProfileUpdateProcessor, kvp: KVPair, toBackend: RuleV2 -> Rule)
    ensures p.Process(kvp, toBackend) != Failure(NotAV2ResourceKey)
  {
  }

  /** A consumer store after one pair: a present value is stored under the
      key, a missing value removes the key. */
  function ApplyUpdate(store: map<Key, Value>, kvp: KVPair): map<Key, Value>
  {
    if kvp.value.Some? then store[kvp.key := kvp.value.value] else store - {kvp.key}
  }

  /** A consumer store after a list of pairs, applied in order. */
  function ApplyUpdates(store: map<Key, Value>, kvps: seq<KVPair>): map<Key, Value>
    decreases |kvps|
  {
    if kvps == [] then store else ApplyUpdates(ApplyUpdate(store, kvps[0]), kvps[1..])
  }

  /** Applying a two-pair list applies its first pair, then its second. */
  lemma ApplyTwo(store: map<Key, Value>, kvps: seq<KVPair>)
    requires |kvps| == 2
    ensures ApplyUpdates(store, kvps) == ApplyUpdate(ApplyUpdate(store, kvps[0]), kvps[1])
  {
    var rest := kvps[1..];
    assert rest[0] == kvps[1] && rest[1..] == [];
    var s1 := ApplyUpdate(store, kvps[0]);
    calc {
      ApplyUpdates(store, kvps);
      ApplyUpdates(s1, rest);
      ApplyUpdates(ApplyUpdate(s1, rest[0]), rest[1..]);
      ApplyUpdate(s1, kvps[1]);
    }
  }

  /** Applying Process's output for a Profile value stores its labels and its
      converted rules under the profile's two keys and changes nothing else. */
  lemma {:induction false} ProfileUpdateInstalled(p: ProfileUpdateProcessor, store: map<Key, Value>, kvp: KVPair, toBackend: RuleV2 -> Rule)
    requires p.Accepts(kvp.key) && IsProfileValue(kvp.value)
    ensures var pk, spec := ProfileKey(kvp.key.name), kvp.value.value.spec;
      ApplyUpdates(store, p.Process(kvp, toBackend).value)
        == store[ProfileLabelsKey(pk) := LabelsValue(spec.labelsToApply)]
                [ProfileRulesKey(pk) := RulesValue(ProfileRules(ConvertedRules(spec.ingressRules, toBackend),
                                                                ConvertedRules(spec.egressRules, toBackend)))]
  {
    var out := p.Process(kvp, toBackend).value;
    assert KeysOf(out) == ProfileKeys(kvp.key.name);
    ApplyTwo(store, out);
  }

  /** Applying Process's output for a deletion, or for a value that does not
      convert, removes both of the profile's keys and changes nothing else:
      no stale low-level state is left behind. */
  lemma {:induction false} RemovalLeavesNoOrphans(p: ProfileUpdateProcessor, store: map<Key, Value>, kvp: KVPair, toBackend: RuleV2 -> Rule)
    requires p.Accepts(kvp.key) && !IsProfileValue(kvp.value)
    ensures ApplyUpdates(store, p.Process(kvp, toBackend).value) == store - set k | k in ProfileKeys(kvp.key.name)
  {
    var out := p.Process(kvp, toBackend).value;
    var pk := ProfileKey(kvp.key.name);
    assert KeysOf(out) == ProfileKeys(kvp.key.name);
    ApplyTwo(store, out);
    assert (set k | k in ProfileKeys(kvp.key.name)) == {ProfileLabelsKey(pk), ProfileRulesKey(pk)};
  }

  /** Whatever a Profile update installed, its later deletion takes back out:
      after create-then-delete the store is the original without the
      profile's keys (values held under those keys before are gone too). */
  lemma {:induction false} CreateThenDeleteRemovesProfileKeys(p: ProfileUpdateProcessor, store: map<Key, Value>, kvp: KVPair, delRev: Revision, toBackend: RuleV2 -> Rule)
    requires p.Accepts(kvp.key)
    ensures var created := ApplyUpdates(store, p.Process(kvp, toBackend).value);
      ApplyUpdates(created, p.Process(KVPair(kvp.key, None, delRev), toBackend).value)
        == store - set k | k in ProfileKeys(kvp.key.name)
  {
    var del := KVPair(kvp.key, None, delRev);
    var keys := set k | k in ProfileKeys(kvp.key.name);
    var created := ApplyUpdates(store, p.Process(kvp, toBackend).value);
    RemovalLeavesNoOrphans(p, created, del, toBackend);
    if IsProfileValue(kvp.value) {
      ProfileUpdateInstalled(p, store, kvp, toBackend);
    } else {
      RemovalLeavesNoOrphans(p, store, kvp, toBackend);
    }
    assert created - keys == store - keys;
  }
}
