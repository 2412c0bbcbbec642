# Profile update processor

A Dafny model of the Profile update processor of the libcalico-go syncer
pipeline. The processor takes one high-level (v2) Profile mutation: a key, a
value (missing for a deletion) and a revision. It returns the two low-level
(v1) key/value pairs the dataplane agent (Felix) reads: the profile's labels
under `ProfileLabelsKey` and its rules under `ProfileRulesKey`.

- `model.dfy` (module `Model`): keys, values and `KVPair`. A key is a v2
  `ResourceKey(kind, name)`, one of the two v1 profile keys, or some other
  key. A value is a v2 Profile (labels to apply, ingress rules, egress rules),
  v1 labels, v1 rules, or some other value. Go's dynamic type assertions on
  `Key` and `Value` become datatype tags.
- `profileprocessor.dfy` (module `ProfileProcessor`): the processor class. Its
  only field is the read-only kind `v2Kind`, set by the class constructor. The
  class has `Process` (a function) and the no-op `OnSyncerStarting`. The
  module-level method `NewProfileUpdateProcessor` builds the processor for the
  Profile kind. The module also has the conversion `ConvertProfileV2ToV1Value`,
  a method with the source's two append loops, proved equal to the function
  `ConvertedProfile` that `Process` uses. `Process` returns an error as a
  `ProcessError` value; `ErrorMessage` gives the text the source returns for it.
- `properties.dfy` (module `ProfileProcessorProperties`): lemmas that relate
  several calls. It also models how a consumer store applies the output: a
  present value is stored and a missing value deletes the key. With that it
  proves that a deletion, or a value that does not convert, leaves no stale
  profile keys behind.

The per-rule converter `RuleAPIV2ToBackend` is not part of this model. Every
member that converts rules takes it as the parameter `toBackend`. The v2 and
v1 rule types are abstract types. A revision is a string, and the empty string
means "no revision set", as in the Go `KVPair`.

The comment on the processor type says a profile is split into three pairs
(tags, labels and rules). The code returns two, labels then rules. The model
follows the code.

## Model

| member | source | states |
|---|---|---|
| `ProfileProcessor.ProfileUpdateProcessor.Process` | lib/backend/syncersv1/updateprocessors/profileprocessor.go:41-91 | Fails exactly when the key is not a resource key of the processor's kind (`IncorrectKeyType` naming that kind) or has an empty name (`MissingName`). Otherwise it returns the labels key then the rules key of `ProfileKey(name)`. A missing or non-Profile value gives both pairs with no value and no revision. A Profile value gives the labels to apply, the converted ingress/egress rules as inbound/outbound rules, and the input revision on both pairs. |
| `ProfileProcessor.ErrorMessage` | lib/backend/syncersv1/updateprocessors/profileprocessor.go:44-55 | The text of a key-type error is the fixed prefix "Incorrect key type - expecting resource of kind " followed by the kind the processor expects. The contract fixes the other two texts only by their lengths (34 and 45 characters). |
| `ProfileProcessor.ErrorMessagesDistinct` | lib/backend/syncersv1/updateprocessors/profileprocessor.go:44-56 | Any two different errors have different texts. |
| `ProfileProcessor.KeyTypeMessagesDistinct` | lib/backend/syncersv1/updateprocessors/profileprocessor.go:44-45 | Key-type errors for different expected kinds have different texts. |
| `ProfileProcessor.ConvertedRules` | lib/backend/syncersv1/updateprocessors/profileprocessor.go:103-111 | The rule conversion keeps the length, and element i of the result is the conversion of element i of the input. |
| `ProfileProcessor.ConvertProfileV2ToV1Value` | lib/backend/syncersv1/updateprocessors/profileprocessor.go:97-124 | Succeeds iff the value is a v2 Profile. On success the labels are the labels to apply, the inbound rules are the ingress rules converted one by one in order, and the outbound rules are the egress rules converted the same way. The result equals `ConvertedProfile`. |
| `ProfileProcessor.ProfileUpdateProcessor.OnSyncerStarting` | lib/backend/syncersv1/updateprocessors/profileprocessor.go:93-95 | Changes nothing in the processor. |
| `ProfileProcessor.NewProfileUpdateProcessor` | lib/backend/syncersv1/updateprocessors/profileprocessor.go:29-33 | Returns a new processor whose kind is `Profile`. |
| `ProfileProcessor.ProfileUpdateProcessor.constructor` | lib/backend/syncersv1/updateprocessors/profileprocessor.go:37-39 | The processor's kind is the one it was given. |
| `ProfileProcessorProperties.ConvertedRulesAppend` | lib/backend/syncersv1/updateprocessors/profileprocessor.go:103-111 | Converting a concatenation gives the concatenation of the conversions, so rule order is kept across any split. |
| `ProfileProcessorProperties.OutputKeysIndependentOfValue` | lib/backend/syncersv1/updateprocessors/profileprocessor.go:58-63 | Two updates with the same key are both accepted or both rejected, and when accepted they produce the same keys, whatever their values and revisions. |
| `ProfileProcessorProperties.DeletionCompleteness` | lib/backend/syncersv1/updateprocessors/profileprocessor.go:67-82 | For an accepted key, the deletion output has the same keys, in the same order, as the output for any present value, each with no value and no revision. |
| `ProfileProcessorProperties.ConversionFailureIsDeletion` | lib/backend/syncersv1/updateprocessors/profileprocessor.go:68-74 | A value that is not a v2 Profile gives the same output as a deletion of that key. The conversion error is not returned. |
| `ProfileProcessorProperties.ProcessDependsOnlyOnKind` | lib/backend/syncersv1/updateprocessors/profileprocessor.go:37-39 | Two processors with the same kind give the same output for every update. |
| `ProfileProcessorProperties.SecondKeyCheckUnreachable` | lib/backend/syncersv1/updateprocessors/profileprocessor.go:49-52 | The second key check never fires: `NotAV2ResourceKey` is never returned. |
| `ProfileProcessorProperties.ProfileUpdateInstalled` | lib/backend/syncersv1/updateprocessors/profileprocessor.go:83-90 | After applying the output for a Profile value, the store holds the labels and the converted rules under the profile's two keys. Nothing else changes. |
| `ProfileProcessorProperties.RemovalLeavesNoOrphans` | lib/backend/syncersv1/updateprocessors/profileprocessor.go:67-82 | After applying the output for a deletion, or for a value that does not convert, the store is the old store without the profile's two keys. |
| `ProfileProcessorProperties.CreateThenDeleteRemovesProfileKeys` | lib/backend/syncersv1/updateprocessors/profileprocessor.go:65-90 | Applying any accepted update and then the deletion of the same key leaves the original store without the profile's two keys; values the store held under those keys before the update are not restored. |

## Left out

- The warning logged when a value does not convert (profileprocessor.go:72). It is a side effect with no bearing on the result.
- Error values: Go builds them with `fmt.Errorf` and `errors.New` (profileprocessor.go:45, 51, 55). The model returns a `ProcessError` constructor, and `IncorrectKeyType` keeps the kind the message names.
- ErrorMessage: its body holds the source's texts for all three errors (profileprocessor.go:45, 51, 55). Its contract states the key-type text in full, but gives only the lengths of the other two texts.
- Aliasing: in Go the labels value of the output is the input's own `LabelsToApply` map, not a copy (profileprocessor.go:84, 120), and the rules value is a pointer to the converted rules (profileprocessor.go:86). The model uses plain values, so this sharing is not captured. Nothing in the processor depends on it.
- `RuleAPIV2ToBackend` and the contents of the v1 and v2 rule structures. Their definitions are not part of this model. The converter is a parameter and the rule types are abstract.
- Fields of the v2 Profile other than the labels to apply and the ingress and egress rules, and the namespace of a resource key. The processor does not read them.
- Go's nil slice versus empty slice (the append loops on nil slices), and nil maps. Rule lists are sequences and labels are maps.
- A typed nil `*apiv2.Profile` stored in the value interface. The model has no nil profile pointer.
- The watcher-syncer pipeline that calls the processor, the watch streams, and the resource client exercised by lib/clientv3/bgppeer_e2e_test.go. None of their code is part of this model.
