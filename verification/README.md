# Verified model of the webhook service core

This project models the parts of the Go back end that carry its guarantees, and proves what
they guarantee. It has five parts.

- **The identity registry** (`Registry`, `MemoryStore`, `Lifecycle`, `Ownership`, `Aliases`, `Lookup`,
  `Renaming`, `LookupRuns`, `Agreement`, `Histories`): accounts, public aliases, secrets and mailbox identities, kept in maps
  that index one another. `MemoryStore` is the imperative store; each of its methods does to the maps
  what the function of `Registry` says, and the theorems are about all runs of these functions.
- **The self-learning type resolver** (`Json`, `Fingerprint`, `Walking`, `JsonPath`, `TransformLaws`,
  `Scoring`, `ScoringLaws`, `Promotion`, `Learning`, `Resolver`, `ResolverLaws`, `Stages`,
  `LearningLoop`, `PromotionRuns`, `Overlaps`): payload
  to fingerprint, fingerprint to learned signature, promotion from validated to shadow to active, and
  the path language that reads a payload. Scores are exact reals.
- **Event processing** (`Keys`, `EventStore`, `Deliveries`, `DeliveryLaws`, `Targets`, `Dispatch`,
  `TargetLaws`, `Routing`, `RoutingLaws`, `Policy`, `PolicyLaws`): deduplication of deliveries that are processed at the same time, the choice of a skill,
  an action and an integration target, and its execution. The router, the language model and the
  network are oracles: parameters about which nothing is assumed.
- **Payload compaction** (`FieldOrder`, `Compaction`, `CompactionLaws`, `CompactionPoints`).
- **Text codecs** (`Text`, `Sorting`, `WebhookId`, `ListenerCodec`, `CodecLaws`, `SqlSplit`, `SqlLexemes`).

The modules named after laws, points, lexemes and the life cycle say what the functions mean without
those functions: from the entries of the maps, the fields of a payload, the answers of the oracles.

A Go map range is a loop that picks any remaining key, or a loop over an arbitrary order where the
order shows in the result. Identifiers are fresh values from a counter.

## Where the code does not do what one would expect

Each of these is proved: an input or a history that shows it, and a for-all statement of when the
expected property does hold.

- A rename that fails halfway keeps the new alias. The lookup of secrets agrees with the plain
  definition afterwards if and only if no active identity was blocked by another account's mailbox
  (`LookupRuns.RenameExact`, `Histories.FailedRenameLosesSecret`).
- Two accounts can create secrets with the same value. The first one is then no longer accepted
  (`Agreement.CreateSecretExact`, `Histories.SharedValueLosesSecret`).
- A manual restore can activate an identity that is no longer the indexed one
  (`LookupRuns.RestoreExact`, `Histories.RestoreLosesSecret`).
- Signing up with a name that another account has taken as its alias overwrites that account in the
  alias index; no other call breaks the index (`Aliases.AliasStepExact`, `Histories.SignUpTakesAlias`).
- The rollback branch of promotion is dead code exactly when the configured minimal success rate is
  at most 1; above 1 nothing is ever activated (`Promotion.RollbackReachable`,
  `Promotion.PromotionClosedForm`).
- Two candidate observations of one type that overlap can put two transforms into shadow, and two
  overlapping hits can make two active (`Overlaps.CandidatesRace`, `Overlaps.HitsRace`). While no type
  changes between an observation's load and its commit, overlapping observations do what they do one
  after the other (`Overlaps.UndisturbedIsSequential`); a commit of a stale record keeps transforms and
  states in step if and only if the type's transforms are in stages that the commit allows
  (`Overlaps.CommitKeepsStagesIff`).
- Only a top-scoring signature is held against its threshold. When some signature meets its own, a
  match is found in every order if and only if every top-scoring one does
  (`Scoring.AlwaysMatchedIff`, `Scoring.LowerScoredMatchMissed`; the thresholds of that payload's two
  signatures can be set through the API).
- With confident agreement on every call, a call is answered from signatures if and only if enough
  calls came before it, the payload has a field, and the promoter knows the type under the very key
  the classifiers give. A payload without fields, a type key with outer white space, and a
  deterministic-only one are classified anew for ever (`LearningLoop.AnsweredExactly`,
  `LearningLoop.FieldlessNeverLearned`, `LearningLoop.UnknownTypeNeverLearned`).
- Paths printed by the fingerprint are read back only for certain field names and array nestings;
  `JsonPath.PathReadsBack` says exactly which.
- The recorded shapes depend on Go's map order unless positions that print alike have the same shape
  (`Walking.ShapesDeterministicIff`), which for field names without brackets is a condition on sibling
  fields (`Walking.OrderIndependentIff`); `Walking.CollidingSiblingsAmbiguous` is a payload that can
  be recorded in two ways. The key paths never depend on it (`Walking.KeyPathsDeterministic`).
- A decision that validates is unknown to execution exactly when its action name is padded, and
  misses the validated target exactly when the target's key does not survive trimming
  (`Dispatch.UnknownIffPadded`, `Dispatch.PaddedNameUnknown`, `Dispatch.SameTarget`,
  `Dispatch.PaddedKeyMisses`). The language model's action name is not trimmed; the HTTP handlers
  trim target keys when they write a configuration (`Targets.BuiltKeyTidy`), so a padded key needs a
  configuration that was written another way.
- A matched skill that forces `store_mysql` gives way to the router's candidate action
  (`Policy.ForcedActionWins`, `Policy.StoreMysqlOverridden`). A skill that forces `crm_upsert` or
  `ticket_create` always ends in manual review, and one that forces `slack_notify` runs only with text
  from the language model (`Policy.ForcedRunsIff`).

## Assumptions

- Account identifiers are UUIDs and hold no colon. `Keys.ScopedCollides` says exactly which pairs of
  identifiers could ever share a key, and `EventStore.ColonsConfuseAccounts` what would happen.
- Aliases given to the registry are in normal form, and secret values are trimmed, as the callers of
  the store make them.
- Rows that speak of a tidy payload assume that no field name holds a bracket and no two siblings are
  sanitised alike; rows about what promotion achieves assume a minimal success rate of at most 1.

## Model

| member | source | states |
|---|---|---|
| `WebhookId.NormalizePublicAlias` | internal/webhookid/webhookid.go:5-30 | the loop with its builder and dash flag computes the normal form `Alias` |
| `WebhookId.AliasNormal` | internal/webhookid/webhookid.go:5-30 | a normalised alias has only lower-case letters, digits, single dashes and inner marks: no double dash, no dash or underscore at either end |
| `WebhookId.AliasIdempotent` | internal/webhookid/webhookid.go:5-30 | normalising twice is normalising once |
| `WebhookId.AliasHasNoDot` | internal/webhookid/webhookid.go:5-30 | the separator of local parts never occurs in a normalised alias |
| `WebhookId.ParseBuildLocalPart` | internal/webhookid/webhookid.go:44-72 | a built local part parses back to the normalised pair exactly when both normalised parts are non-empty |
| `WebhookId.BuildLocalPartInjective` | internal/webhookid/webhookid.go:44-46 | two local parts are equal only when alias and secret agree after normalising: one mailbox name stands for one pair |
| `WebhookId.ParseBuildEmailAddress` | internal/webhookid/webhookid.go:48-63 | exactly which addresses read back as normalised alias, lower-cased secret and domain: an `@` in the secret or an empty part loses them |
| `CodecLaws.AliasKeepsWords` | internal/webhookid/webhookid.go:5-30 | an alias has exactly the words of its input, lowered and in order, up to marks at the two ends |
| `CodecLaws.LocalPartRead` | internal/webhookid/webhookid.go:65-72 | any text is cut at its first dot: both sides normalised if neither is empty, else refused |
| `CodecLaws.AddressRead` | internal/webhookid/webhookid.go:52-63 | any address is lowered, trimmed and cut at its first at-sign; both sides must be there |
| `ListenerCodec.PartIdempotent` | internal/transport/http/listener_codec.go:44-54 | normalising a provider or listener id twice changes nothing more and never makes it longer |
| `ListenerCodec.ParseBuildTypeKey` | internal/transport/http/listener_codec.go:17-63 | a built type key parses back to its normalised triple if and only if provider and listener id are non-empty and the separator cannot start inside them |
| `ListenerCodec.ModeReadersAgree` | internal/service/actions.go:353-362 | whenever the key round-trips, the second, independently written reader finds the same deployment mode |
| `CodecLaws.PartIs` | internal/transport/http/listener_codec.go:44-54 | a provider or listener id is its trimmed input, lowered, with a dash for every space |
| `CodecLaws.ModeIs` | internal/transport/http/listener_codec.go:56-63 | single tenant for exactly two names, in any case and spacing; else multitenant |
| `CodecLaws.TypeKeyRead` | internal/transport/http/listener_codec.go:24-42 | a text with the prefix and three parts without colons is read part by part; a blank provider or listener id refuses it |
| `SqlSplit.SplitSQLStatements` | internal/store/migrations.go:158-202 | the byte loop with its quote and comment flags yields the statements of the recursive scan |
| `SqlSplit.ScanYieldsStatements` | internal/store/migrations.go:158-202 | every statement is trimmed, non-empty and free of separators and comments outside quotes |
| `SqlSplit.StatementsScanBack` | internal/store/migrations.go:158-202 | any list of such statements, joined with semicolons, splits into itself |
| `SqlSplit.SplitNormalForm` | internal/store/migrations.go:158-202 | for every text, splitting the joined result of splitting gives the same list again |
| `SqlSplit.SplitConcat` | internal/store/migrations.go:158-202 | splitting `a;b` is splitting `a` and `b` apart for every `b`, if and only if `a` ends outside quotes and comments |
| `SqlSplit.CommentInvisible` | internal/store/migrations.go:158-202 | a line comment between statements changes nothing, whatever it says |
| `SqlLexemes.SplitsBySemicolons` | internal/store/migrations.go:158-202 | for a text spelled from lexemes (characters, quotations of either kind, remarks, semicolons, an unfinished end) the statements are the trimmed, non-blank pieces between its semicolons, quotations whole and remarks gone |
| `SqlLexemes.EveryTextLexes` | internal/store/migrations.go:158-202 | every text is spelled from such lexemes, so this is what splitting does to any text |
| `Json.AtoiItoa` | internal/service/transform.go:130-140 | a printed array index reads back as itself |
| `TransformLaws.NumeralRead` | internal/service/transform.go:130-140 | which texts are read as an index at all: digits after a sign or not, and nothing else |
| `Walking.Walk.WalkValue` | internal/service/fingerprint.go:33-59 | whatever order the map ranges take, the keys and shapes written are exactly those of some visiting order of the payload, entry by entry |
| `Walking.BuildFingerprint` | internal/service/fingerprint.go:17-31 | the shapes are those of some visiting order, the key paths its listed keys in sorted order, each as often as it is listed |
| `Walking.BuiltIsFingerprint` | internal/service/fingerprint.go:17-59 | every such result has an entry for each node and each field of the payload, and no other |
| `Walking.KeyPathsDeterministic` | internal/service/fingerprint.go:17-59 | all visiting orders give the same key paths, in number and place, for every payload |
| `Walking.ShapesDeterministicIff` | internal/service/fingerprint.go:33-59 | all visiting orders record the same shapes if and only if positions that print alike have nodes of the same shape |
| `Walking.OrderIndependentIff` | internal/service/fingerprint.go:33-67 | without brackets in field names: if and only if siblings that are sanitised alike have the same structure where they overlap |
| `Walking.LastTour` | internal/service/fingerprint.go:33-59 | for every node there is a visiting order in which it is the last to write its path |
| `Walking.UnambiguousIff` | internal/service/fingerprint.go:33-67 | without brackets, a printed path names one position for every pair of positions if and only if no siblings are sanitised alike |
| `Fingerprint.PathsUnambiguous` | internal/service/fingerprint.go:33-67 | in a payload with tidy keys two different positions never print the same path |
| `Fingerprint.ShapesExact` | internal/service/fingerprint.go:33-59 | so every path's recorded shape is that of the node it leads to |
| `Fingerprint.FingerprintDeterministic` | internal/service/fingerprint.go:17-59 | any two results for a tidy payload have the same shapes and the same set of key paths; the exact conditions are those of the `Walking` rows |
| `Walking.CollidingSiblingsAmbiguous` | internal/service/fingerprint.go:33-67 | a payload with two siblings of one sanitised name from which the program builds two different fingerprints |
| `TransformLaws.SanitizedIs` | internal/service/fingerprint.go:61-67 | a field name is written character by character, with underscores for spaces, dashes, slashes and dots; an empty one is an underscore |
| `JsonPath.StepInto` | internal/service/transform.go:117-147 | one part of a path, a field or a field with an index, is followed as the specification says, misses and malformed indices included |
| `JsonPath.JsonPathGet` | internal/service/transform.go:100-149 | the loop over the parts returns the specified value or reports a miss |
| `TransformLaws.RootedPaths` | internal/service/transform.go:100-107 | a lone dollar sign is the payload, and nothing is found without one |
| `TransformLaws.DottedPath` | internal/service/transform.go:108-112 | a written path of dotted names is followed name by name |
| `TransformLaws.FollowNames` | internal/service/transform.go:113-147 | a name leads to that field of an object and misses anything else; an empty one stays |
| `TransformLaws.FollowIndex` | internal/service/transform.go:116-139 | a name with an index leads to that item of the named array, an index alone to that of the array at hand, and misses if it is malformed, negative or too large |
| `JsonPath.PathReadsBack` | internal/service/transform.go:100-149 | printed steps read back in every payload that has them if and only if the steps are readable: rooted in a field, no index after an index, self-sanitised names, no bracket or trailing space trouble |
| `JsonPath.ReadablePathReads` | internal/service/transform.go:100-149 | a readable path leads to the very node it was printed for |
| `JsonPath.RecordedPathsReadBack` | internal/service/fingerprint.go:33-67 | for every plain payload each recorded path reads back to a node of the recorded shape |
| `JsonPath.ApplyDSL` | internal/service/transform.go:70-98 | for every map order: the extracted names with their values, nulls or omissions, overridden by the constants |
| `JsonPath.RecordedPathsExtract` | internal/service/transform.go:70-149 | extracting a recorded path yields the original node's value |
| `TransformLaws.SpecApplied` | internal/service/transform.go:83-93 | every constant comes out over everything else; an extracted name is there if it was found or nulls are kept, with the value at its path or null |
| `Scoring.ScoreSignature` | internal/service/resolver.go:108-142 | the counting loops compute the weighted score for every map order |
| `ScoringLaws.ScoreCounts` | internal/service/resolver.go:119-142 | for every signature, fingerprint and headers: seven tenths of the share of required positions whose path is there, two of the hinted shapes that fit, one of the hinted headers that contain their hint |
| `Scoring.BestDeterministicMatch` | internal/service/resolver.go:100-158 | some signature with the maximal score is the one that is asked, and the match is its own or none |
| `Scoring.ScoreRange` | internal/service/resolver.go:108-142 | every score lies between 0 and 1 |
| `Scoring.FingerprintGrows` | internal/service/fingerprint.go:33-67 | the fingerprint of a tidy extended payload has every path of the original with the same shape |
| `Scoring.ScoreMonotone` | internal/service/resolver.go:108-142 | extending a payload at any depth to a tidy one never lowers the score of any signature |
| `Scoring.LearnedScore` | internal/service/resolver.go:108-187 | a signature learned from a tidy payload scores exactly 0.9 on it later (0.2 if it has no fields), whatever the headers |
| `ScoringLaws.LearnedScoreIff` | internal/service/resolver.go:119-187 | on any other fingerprint a learned signature scores at most 0.9, and 0.9 if and only if every learned path and every recorded shape is there |
| `ScoringLaws.LearnedScoreEmbeds` | internal/service/resolver.go:119-187 | so of tidy payloads it scores 0.9 on exactly those that have, for every node of the learned one, a node of the same shape and path |
| `ScoringLaws.ForeignPayloadMissed` | internal/service/resolver.go:119-187 | a payload with none of the learned paths scores at most 0.2, short of the learned threshold |
| `Scoring.AlwaysMatchedIff` | internal/service/resolver.go:143-158 | when some signature meets its threshold: a match is found in every order if and only if every top-scoring signature meets its own |
| `Scoring.SharedThresholdMatches` | internal/service/resolver.go:143-187 | with one threshold for all, as learned signatures have, there is a match if and only if some signature meets it |
| `Scoring.LowerScoredMatchMissed` | internal/service/resolver.go:143-158 | a payload, its fingerprint and two signatures, one of which meets its threshold, for which nothing is ever returned |
| `Promotion.PromotionClosedForm` | internal/service/autopromote.go:30-109 | for every history the type is active if and only if the success rate can be met and enough qualifying candidates are followed by enough hits; every shadow run counted is a success |
| `Promotion.EarnedIsLate` | internal/service/autopromote.go:47-108 | some prefix with enough candidates is followed by enough hits exactly when enough hits were counted late: definition and counter agree |
| `Promotion.RunSucceeds` | internal/service/autopromote.go:63-109 | total and successful shadow runs are equal after every history |
| `Promotion.ActiveAbsorbing` | internal/service/autopromote.go:30-109 | no later observation takes an active type back |
| `Promotion.RollbackReachable` | internal/service/autopromote.go:99-108 | some history reaches the rollback branch if and only if the configured rate exceeds 1 |
| `PromotionRuns.FiledByOwnHistory` | internal/service/autopromote.go:30-129 | for every interleaving of observations of any accounts and types, the record filed for a type is the one its own observations lead to |
| `PromotionRuns.ActiveIff` | internal/service/autopromote.go:30-129 | so a type's status in the store is active exactly by the closed form of its own history |
| `Overlaps.UndisturbedIsSequential` | internal/service/autopromote.go:30-109 | observations that overlap, but whose type is at commit as they loaded it, do what they do in the order of their commits |
| `Overlaps.CommitKeepsStagesIff` | internal/service/autopromote.go:47-108 | however stale the loaded record of a candidate or hit is: its commit keeps transforms and states in step if and only if no transform of the type is in a stage that the commit does not allow |
| `Overlaps.CandidatesRace` | internal/service/autopromote.go:30-61 | two candidates that both load before either commits leave two transforms in shadow |
| `Overlaps.HitsRace` | internal/service/autopromote.go:63-109 | two hits that do leave two transforms active: the second finds none in shadow and takes a pending one |
| `Overlaps.RacesAreReal` | internal/store/memory.go:888-1000 | in both races every commit picks what its queries find at that moment |
| `Overlaps.BothStoredReached` | internal/service/resolver.go:160-187 | the races start from what the resolver stores for two deliveries of one payload |
| `Learning.LearningStore.GetLatestCandidateSignature` | internal/store/memory.go:888-909 | a latest stored candidate signature of the account and type, for every map order; none only if there is none |
| `Learning.LearningStore.GetLatestTransformByStatus` | internal/store/memory.go:979-1000 | a latest transform in that stage, for every map order; none only if there is none |
| `Learning.LearningStore.UpsertAutoPromoteState` | internal/store/memory.go:1126-1149 | the state is filed under its account and type, everything else stays |
| `Learning.AutoPromoter.ObserveCandidate` | internal/service/autopromote.go:30-61 | the new store is the promotion step of the old: counters, shadow entry, signature enabled, transform moved to shadow |
| `Learning.AutoPromoter.ObserveDeterministicHit` | internal/service/autopromote.go:63-109 | the new store is the hit step of the old: activation or rollback with the transform's stage |
| `ResolverLaws.PickedLatest` | internal/store/memory.go:888-1000 | what the queries pick is a newest candidate signature and a transform of highest version in the stage |
| `ResolverLaws.CandidateIgnored` | internal/service/autopromote.go:30-37 | a promoter that is off, a type that is blank or unknown, and a deterministic-only one change nothing |
| `ResolverLaws.HitIgnored` | internal/service/autopromote.go:63-77 | so do hits of deterministic-only types and of types that are not in shadow |
| `ResolverLaws.CandidateTouches` | internal/service/autopromote.go:38-61 | a candidate switches its signature on and moves its transform to shadow exactly when it completes the count; no other signature, transform or record changes |
| `ResolverLaws.HitTouches` | internal/service/autopromote.go:78-109 | a hit that decides switches the signature and moves the shadow transform, or a pending one into use; no other signature, transform or record changes |
| `ResolverLaws.DecidedWhen` | internal/service/autopromote.go:78-99 | the hit decides from the configured number on, for activation if the success rate is met and for rollback if not |
| `Resolver.TypeResolver.Resolve` | internal/service/resolver.go:26-98 | for every map order and every answer of the classifiers, the new store and the resolution are those of the step function: hit, agreement, single opinion, disagreement |
| `ResolverLaws.MatchAnswers` | internal/service/resolver.go:35-40 | a matching signature answers with its own type and score whatever the classifiers would say, and nothing new is stored |
| `ResolverLaws.NoClassifiers` | internal/service/resolver.go:41-70 | without a match, a missing or failing classifier leaves the type unknown and the store as it was |
| `ResolverLaws.Agreed` | internal/service/resolver.go:71-82 | agreement up to case and space answers with the first key and the mean confidence, and stores its signature and template |
| `ResolverLaws.Disagreed` | internal/service/resolver.go:83-98 | disagreement answers with the surer classifier, the first on a tie; it is stored unless the type stays unknown |
| `Resolver.TypeResolver.PersistCandidate` | internal/service/resolver.go:160-187 | stores one disabled signature and, with a template, one transform; nothing else changes |
| `Stages.Apply` | internal/service/transform.go:31-61 | runs the latest active transform by the name of its engine, the path language included, and returns the payload itself when there is none |
| `Stages.ApplyTemplate` | internal/service/transform.go:70-98 | the decoded template's extraction and constants, the payload itself for an empty one, an error for one of the wrong types |
| `TransformLaws.TemplateRead` | internal/service/transform.go:64-82 | a template is refused for exactly the members of a wrong type, and what it asks for is what its members say |
| `TransformLaws.EngineChosen` | internal/service/transform.go:31-49 | engines by name in any case and spacing; one that is not known fails |
| `Stages.TemplateExtracts` | internal/service/transform.go:70-149 | a template that extracts a recorded path gives back the value at that very path, of the recorded shape |
| `Stages.CandidateKeepsStages` | internal/service/autopromote.go:30-61 | a candidate observation keeps transforms and states in step and moves transforms only forward |
| `Stages.HitKeepsStages` | internal/service/autopromote.go:63-109 | a hit does too |
| `Stages.RunKeepsStages` | internal/service/autopromote.go:30-109 | over every run, by any accounts on any payloads: at most one shadow transform and only in shadow, at most one active and only when active, and stages only advance |
| `Stages.UntouchedUntilActive` | internal/service/transform.go:31-35 | in every reachable state no transform is applied before the type is active |
| `Stages.StateKeyInjective` | internal/store/memory.go:1126-1160 | state keys of different accounts or types never collide |
| `LearningLoop.LearningClosesTheLoop` | internal/service/resolver.go:26-187 | resolving one tidy payload again and again consults the classifiers in exactly the first K calls and is answered with the learned type ever after; after M such hits the type is active with a transform in use, for good |
| `LearningLoop.TransformLearned` | internal/service/resolver.go:160-187 | if the type had no transforms before, the one in use holds the template that one of the first K calls was given |
| `LearningLoop.TransformsHaveOrigin` | internal/service/resolver.go:160-187 | over every run each transform was there at the start or was stored by a call that consulted the classifiers |
| `LearningLoop.UnknownTypeNeverLearned` | internal/service/resolver.go:160-187 | a type key with outer white space, or one the promoter ignores, is classified on every call: its signature is filed under the raw key and looked for under the trimmed one |
| `LearningLoop.AnsweredExactly` | internal/service/resolver.go:26-187 | for a tidy payload call number i is answered from signatures if and only if i is at least K, the payload has a field and the type is known under its very key |
| `LearningLoop.FieldlessNeverLearned` | internal/service/resolver.go:26-187 | a tidy payload without fields consults them on every call |
| `LearningLoop.KeyPathsIffField` | internal/service/fingerprint.go:33-59 | there are key paths exactly when the payload has an object field somewhere |
| `MemoryStore.MemoryStore.CreateAccount` | internal/store/memory.go:132-163 | an account per slug: an existing one is returned, a new one is entered in all three maps |
| `Lifecycle.SlugSplits` | internal/store/memory.go:1216-1223 | a slug is the part of the address before its first at-sign, or all of it |
| `Lifecycle.SignedUp` | internal/store/memory.go:132-163 | a known slug changes nothing; a new one makes an account that slug and alias lead to and leaves all others |
| `MemoryStore.MemoryStore.UpdateAccountPublicAlias` | internal/store/memory.go:231-250 | alias maps and identities are those of the rename function for the visiting order, failed renames included |
| `MemoryStore.MemoryStore.RekeyActiveIdentities` | internal/store/memory.go:548-578 | the loop does exactly the rekey function's steps, for every order, and stops at the first reserved mailbox |
| `MemoryStore.MemoryStore.CreateSecretWithValue` | internal/store/memory.go:473-502 | the new secret, hash entry and identity, or the right refusal and no change |
| `Lifecycle.CreateSecretRefused` | internal/store/memory.go:473-487 | refused exactly for an unknown account, a mailbox that some identity of another account holds, and one that is active already; nothing changes then |
| `Lifecycle.SecretCreated` | internal/store/memory.go:488-533 | the new secret is live, its mailbox is an active identity with its account, type, secret and value, and no other entry changes |
| `Lifecycle.CreatedAccepted` | internal/store/memory.go:399-414 | the new secret is accepted for its account at once |
| `MemoryStore.MemoryStore.ActivateIdentityLocked` | internal/store/memory.go:504-533 | takes over the mailbox if it exists, else creates and indexes a new identity |
| `MemoryStore.MemoryStore.TombstoneIdentityBySecretLocked` | internal/store/memory.go:535-546 | exactly the identities of that secret are tombstoned, for every map order |
| `MemoryStore.MemoryStore.DeleteSecret` | internal/store/memory.go:369-380 | revokes the account's own secret and tombstones its identities; refuses any other |
| `Lifecycle.SecretDeleted` | internal/store/memory.go:369-380 | that secret is revoked, exactly the identities that name it are retired, and only its own account can do it |
| `MemoryStore.MemoryStore.DeleteWebhookType` | internal/store/memory.go:313-329 | revokes all live secrets of the type and tombstones their identities, whatever the map order |
| `Lifecycle.TypeDeleted` | internal/store/memory.go:313-329 | only its owner deletes a type; then no secret of it is active, every identity that named a live one is tombstoned, and every other secret and identity is as before |
| `Lifecycle.RevokedForEver` | internal/store/memory.go:132-600 | over every run, renames and restores included, a revoked secret stays revoked, and every secret keeps its account, type and value |
| `Lifecycle.DeletedTypeStaysDead` | internal/store/memory.go:313-414 | after a type is deleted, no run whatever leads to a lookup that yields one of its secrets that were there |
| `Lifecycle.NewTypeIsOwned` | internal/store/memory.go:252-267 | a new type can be deleted by its maker and by no other account |
| `MemoryStore.MemoryStore.UpdateWebhookIdentityStatus` | internal/store/memory.go:444-471 | block, restore or refuse, with every refusal's reason |
| `Lifecycle.RestoreRefused` | internal/store/memory.go:444-471 | a restore is refused exactly for a foreign identity and for a retired one whose value no live secret of the account has |
| `Lifecycle.StatusUpdated` | internal/store/memory.go:444-471 | two statuses are known; a refusal changes nothing, a success only that identity's status |
| `MemoryStore.MemoryStore.HasActiveSecretLocked` | internal/store/memory.go:593-600 | true exactly when some live secret of the account has the value |
| `MemoryStore.MemoryStore.IsIdentityActiveForSecretLocked` | internal/store/memory.go:580-591 | true exactly when the mailbox under the account's current alias is indexed and active |
| `MemoryStore.MemoryStore.ResolveSecretAnyType` | internal/store/memory.go:399-414 | the secret the three-map lookup finds |
| `MemoryStore.MemoryStore.ValidateSecret` | internal/store/memory.go:382-397 | the same lookup, narrowed to one type |
| `Ownership.StepFiled` | internal/store/memory.go:231-600 | every operation keeps the indexes pointing at what they are about, and every mailbox with its owner |
| `Ownership.OwnershipPermanent` | internal/store/memory.go:231-600 | over every run, failed renames, blocks, restores and deletions included, a mailbox name stays indexed with the same account |
| `Ownership.OneOwnerPerMailbox` | internal/store/memory.go:473-578 | in every reachable state identities that share a mailbox name share their account |
| `Lookup.LookupAgrees` | internal/store/memory.go:399-414 | under the invariant a value is accepted for an account exactly when the account owns an active identity with it |
| `Lookup.CreateSecretSound` | internal/store/memory.go:473-533 | creating a secret keeps the invariant unless another account has the value in use |
| `Lookup.DeleteSound` | internal/store/memory.go:313-380 | so does deleting secrets or types |
| `Lookup.RestoreSound` | internal/store/memory.go:444-471 | and restoring an identity that is still the indexed one of a live secret |
| `Renaming.RekeyKeeps` | internal/store/memory.go:548-578 | for every order, each iteration keeps the invariant of the half-done rename, other accounts' identities and mailboxes, and the set of active secrets |
| `Renaming.RekeyOutcome` | internal/store/memory.go:548-578 | the loop fails for every order or for none: exactly when some active identity would move onto another account's mailbox |
| `LookupRuns.RenameExact` | internal/store/memory.go:231-250 | success, and agreement of the lookup afterwards, hold exactly when nothing is blocked; a success leaves nothing active under the old alias, gives every active identity an indexed successor, accepts the same secrets for every account and touches no other account |
| `LookupRuns.RenameThereAndBack` | internal/store/memory.go:231-250 | after a success the way back always succeeds and restores exactly the accepted secrets |
| `Agreement.CreateSecretExact` | internal/store/memory.go:473-502 | from any state in which the lookup agrees, creating a secret keeps it right if and only if no other account has the value in use |
| `LookupRuns.RestoreExact` | internal/store/memory.go:444-471 | from any such state a restore keeps the lookup right if and only if the value is a live secret of the account and its mailbox is the restored one or active |
| `Agreement.AgreesIffServed` | internal/store/memory.go:399-414 | the lookup agrees if and only if every active identity's own account resolves its value |
| `Agreement.BlockExact` | internal/store/memory.go:444-471 | from any such state a block keeps the lookup right if and only if no other active identity is served by the blocked one |
| `Agreement.RevokeExact` | internal/store/memory.go:535-546 | revoking secrets does if and only if no identity that stays active has its value or its mailbox from them |
| `Agreement.StepAgreesIff` | internal/store/memory.go:132-600 | from any such state every call but a rename keeps the lookup agreeing exactly under the condition stated for it |
| `Agreement.AgreesThroughout` | internal/store/memory.go:132-600 | so the lookup agrees at every point of every run of such calls, restores of identities that are not the indexed ones included |
| `LookupRuns.CarefulRunSound` | internal/store/memory.go:132-600 | every run of careful operations keeps the invariant |
| `LookupRuns.LookupAgreesAlways` | internal/store/memory.go:399-414 | over every careful run from the empty store a value is accepted exactly for its active owner |
| `Histories.FailedRenameLosesSecret` | internal/store/memory.go:231-250 | a history of successful calls after which a failing rename keeps its new alias and loses a live secret |
| `Histories.SharedValueLosesSecret` | internal/store/memory.go:473-502 | a history in which a second account creates the value of a live secret, which is then accepted no more |
| `Histories.RestoreLosesSecret` | internal/store/memory.go:444-471 | a history that ends with a restored, active identity whose value is not accepted |
| `Histories.SignUpTakesAlias` | internal/store/memory.go:132-163 | a rename and a sign-up after which two accounts have one alias and the index has lost the first |
| `Aliases.AliasStepExact` | internal/store/memory.go:132-163 | a call breaks the agreement of accounts and alias index if and only if it signs up a new slug that is an alias already |
| `Aliases.AliasesStayIndexed` | internal/store/memory.go:132-250 | over every run without such a call the index finds every account, and no two accounts share an alias |
| `EventStore.MemoryEvents.CreateEvent` | internal/store/memory.go:727-744 | stores and indexes the event, or refuses a known source identifier and changes nothing |
| `EventStore.MemoryEvents.FindEventBySourceEventID` | internal/store/memory.go:797-812 | the indexed event, or none for a blank identifier or a missing one |
| `EventStore.CreateIndexed` | internal/store/memory.go:727-744 | creation keeps events and source index in agreement |
| `EventStore.FindExact` | internal/store/memory.go:797-812 | the index answers what a scan over all events would: an event is found if and only if one is stored, and it is that one |
| `Keys.ScopedCollides` | internal/store/memory.go:729-735 | keys of two accounts can meet if and only if one identifier with its separator begins the other |
| `EventStore.ColonsConfuseAccounts` | internal/store/memory.go:727-735 | were identifiers to hold colons, a first delivery could be refused |
| `EventStore.SourceTrimmed` | internal/service/actions.go:900-932 | an extracted source identifier is always trimmed, so a non-empty one is never taken for blank |
| `DeliveryLaws.SourceIsFirst` | internal/service/actions.go:900-932 | for every object payload: the first text that is not blank of event_id, provider_message_id, request_id, then message.provider_message_id and message.id; blank exactly when all five are |
| `DeliveryLaws.ClosedOnly` | internal/store/memory.go:746-757 | closing an event writes its status and action and nothing of any other |
| `Deliveries.ProcessWebhook` | internal/service/actions.go:502-542 | one call, undisturbed, does exactly the steps of the state machine |
| `DeliveryLaws.DeliveredAlone` | internal/service/actions.go:502-542 | what one call does, told without steps: a duplicate by the payload's own identifier, a refusal by that of the canonical form, else one event stored, executed and closed with the outcome |
| `Deliveries.StepSound` | internal/service/actions.go:502-542 | every atomic step of every call keeps the invariant: one maker per event, executed only by its maker, index exact |
| `Deliveries.AtMostOnce` | internal/service/actions.go:502-542 | for every interleaving of any calls, a source event of an account is stored at most once and executed at most once |
| `Deliveries.IndexAlwaysExact` | internal/store/memory.go:727-744 | in every reachable state the source index agrees with the stored events |
| `Deliveries.ExactlyOnce` | internal/service/actions.go:502-542 | once all calls are answered, a delivered source event is stored once and was executed once, by one call, and every other call for it was turned away |
| `DeliveryLaws.CallsAreDeliveries` | internal/service/actions.go:502-542 | the calls of a run are its deliveries, in order, with their accounts and payloads |
| `DeliveryLaws.NeverTwice` | internal/service/actions.go:502-542 | in every state, of two deliveries to one account with the same event_id at most one has stored or executed anything |
| `DeliveryLaws.RedeliveredOnce` | internal/service/actions.go:502-542 | however payloads with one event_id arrive and interleave: once all calls are answered there is one stored event, one execution, one call that handled it, and every other was refused or pointed to that event |
| `DeliveryLaws.AlwaysTrue` | internal/service/actions.go:502-542 | in every state a call past its look goes by its payload's own identifier, a duplicate answer names an event of that account and identifier, and a handled event has the status that was answered |
| `Targets.HydrateIdempotent` | internal/service/integration_targets.go:44-61 | hydrating a target a second time, as execution does, changes nothing |
| `TargetLaws.HydratedIs` | internal/service/integration_targets.go:44-82 | what the configuration settles and what stands in for what it leaves open |
| `Targets.BuiltKeyTidy` | internal/service/integration_targets.go:84-98 | a configuration built for a key that is not blank yields a trimmed, non-empty key |
| `Targets.TargetSupportsAction` | internal/service/integration_targets.go:171-191 | the explicit list decides if there is one, else the kind of target does |
| `Targets.ResolveIntegrationTarget` | internal/service/integration_targets.go:143-169 | the first enabled target that fits key and action |
| `TargetLaws.ResolvedFirst` | internal/service/integration_targets.go:143-191 | the target found is the first that is enabled, has the key and allows the action: its non-empty list holds the action up to case and space, and without a list its kind takes exactly its own actions; none only if none does |
| `Targets.ValidateAndNormalizeDecision` | internal/service/integration_targets.go:100-141 | accepts or refuses with the right reason, and writes the chosen target's key |
| `TargetLaws.RefusedFor` | internal/service/integration_targets.go:100-141 | exactly when a decision is refused, and why: no action, an unknown one, no target that suits, or a missing parameter |
| `TargetLaws.WrittenKey` | internal/service/integration_targets.go:100-141 | the key written is that of the first target that suits; everything else stays as it was |
| `Dispatch.ActionService.Execute` | internal/service/actions.go:50-65 | deliveries are attempted to the specified targets in order until one fails, with the specified outcome |
| `Dispatch.ActionService.Broadcast` | internal/service/actions.go:78-88 | without a key every enabled target of the kind is tried in order, up to the first failure |
| `TargetLaws.AudienceGrows` | internal/service/actions.go:78-88 | the audience is made of the enabled targets of the kind, in order |
| `TargetLaws.DeliveredIff` | internal/service/actions.go:78-113 | a run of deliveries succeeds if and only if everyone accepts, and otherwise ends with the first who does not |
| `TargetLaws.NothingSent` | internal/service/actions.go:50-65 | three actions send nothing; exactly the names outside the eight are unknown |
| `TargetLaws.ForwardedToAll` | internal/service/actions.go:67-113 | a forward without a target key goes to the whole audience of its kind |
| `TargetLaws.SentToOne` | internal/service/actions.go:67-144 | any other sending goes to the first target that suits, if its kind can be sent the action |
| `Dispatch.ResolvedAgain` | internal/service/integration_targets.go:143-169 | asking by the key of the target found without a key finds that same target |
| `Dispatch.SameTarget` | internal/service/integration_targets.go:100-141 | a validated decision is executed on exactly the target that validation chose if and only if the target's key survives trimming |
| `Dispatch.UnknownIffPadded` | internal/service/actions.go:50-65 | a validated decision is unknown to execution if and only if its action name is padded |
| `Dispatch.ValidatedExecutes` | internal/service/actions.go:50-144 | with trimmed names and keys execution never reports an unknown action or a missing target, and attempts at most the validated target |
| `Dispatch.PaddedKeyMisses` | internal/service/actions.go:115-120 | a concrete decision that validates and whose target execution does not find |
| `Dispatch.PaddedNameUnknown` | internal/service/actions.go:50-65 | a concrete decision with a padded action name that validates unchanged and that execution does not know |
| `Routing.SortOrdered` | internal/service/routing.go:118-126 | the stable sort returns an ordered permutation, and elements of equal rank keep their order |
| `Routing.FirstOfSorted` | internal/service/actions.go:827-842 | scanning the stably sorted copy finds the least of those that apply, earliest on ties |
| `Routing.RankSkillCandidates` | internal/service/routing.go:87-128 | the loop computes the ranked candidates |
| `Routing.RankedExact` | internal/service/routing.go:87-128 | the ranking is a permutation of the candidates, none comes after one it beats by score, priority or age, and equals keep their order |
| `Routing.TokensAgree` | internal/service/routing.go:130-142 | the two independently written matchers, one on the trimmed payload, find the same tokens |
| `Routing.MatchesAnyToken` | internal/service/actions.go:845-857 | true exactly when the other matcher finds a token |
| `RoutingLaws.TokensCounted` | internal/service/routing.go:130-142 | as many tokens are found as pieces of the match text, trimmed and lowered, occur in the payload, repetitions included |
| `RoutingLaws.TokensAre` | internal/service/routing.go:130-142 | and the tokens found are exactly those pieces |
| `RoutingLaws.CandidateExact` | internal/service/routing.go:87-117 | when a skill is a candidate, and its score: ten a hit, three for a forced action, two for a prompt, twenty for a spam skill on spam |
| `RoutingLaws.AppliesExact` | internal/service/actions.go:834-857 | a skill applies if and only if it is enabled and some piece hits |
| `Routing.FilterKnownSkills` | internal/service/routing.go:233-258 | the loop with its seen-set computes the known keys in order of first occurrence |
| `Routing.KnownExact` | internal/service/routing.go:233-258 | what is kept is exactly the trimmed, non-blank, known keys, none twice |
| `Routing.SelectedExact` | internal/service/routing.go:282-303 | exactly the skills with a selected key, as often as listed, ordered by priority and age, equals as listed |
| `Routing.ChooseSkill` | internal/service/actions.go:822-843 | the loop over the sorted copy returns the specified choice |
| `Routing.ChosenIsBest` | internal/service/actions.go:822-843 | the chosen skill applies and has the lowest priority number, then is the oldest, then the first; none only if none applies |
| `Routing.AppliesIsCandidate` | internal/service/routing.go:87-128 | a skill that applies is always a candidate with tokens |
| `Policy.RouteEvent` | internal/service/routing.go:35-85 | for every answer of the router the route is the specified one |
| `PolicyLaws.LoneCandidate` | internal/service/routing.go:45-51 | a lone candidate is selected without the router, and its locked action suggested |
| `PolicyLaws.RouterSilent` | internal/service/routing.go:53-71 | without an answer the first three candidates are selected |
| `PolicyLaws.RouterHeard` | internal/service/routing.go:63-85 | the router is heard if and only if it names a candidate or gives a label; then exactly the candidates it names are selected, and its label, action and target are taken over |
| `Policy.SelectedAreCandidates` | internal/service/routing.go:35-85 | whatever the router answers, only candidates are selected, and something is whenever there is a candidate |
| `Policy.SelectionNeverEmpty` | internal/service/actions.go:573-576 | so the fallback to the first candidate is never needed |
| `Policy.MatchedIsBest` | internal/service/actions.go:573-577 | if a selected skill applies, one is matched, it is a candidate with tokens, and none that applies comes before it |
| `Policy.ConsultModel` | internal/service/actions.go:604-682 | when the model is asked, and how its answer, its absence or its error changes the decision |
| `Policy.Decide` | internal/service/actions.go:563-675 | the steps from routing to validation yield the specified decision and matched skill for every answer of router and model |
| `PolicyLaws.UnaskedDecides` | internal/service/actions.go:582-683 | without an answer of the model, for whatever reason, the action is the skill's, the type's, the spam gate's or storing, with storing replaced by the router's action, and exactly the parameters that go with it |
| `PolicyLaws.ModelDecides` | internal/service/actions.go:604-694 | if the model is consulted and answers, and the matched skill forces nothing, the decision is the model's, with the router's target if it names none, as validated, else review |
| `PolicyLaws.ModelOnlyWords` | internal/service/actions.go:660-666 | if the skill forces an action, the model gives only text and tags, and the router the target |
| `PolicyLaws.UnconsultedModel` | internal/service/actions.go:604-613 | if it is not consulted, no answer of the model changes the decision |
| `Policy.ProcessWithPolicy` | internal/service/actions.go:563-705 | the decision, the deliveries, the stored status and the resulting text and memory mode are the specified ones |
| `PolicyLaws.EndingIs` | internal/service/actions.go:696-719 | what is left of an event: nothing more on failure, else its text and memory mode, from the decision first and the skill second |
| `PolicyLaws.ModesRead` | internal/service/actions.go:859-868 | three memory modes, read in any case and spacing, with updating for everything else |
| `Policy.ForcedMemoryMode` | internal/service/actions.go:683-694 | however the model answers, an event of a forcing skill is remembered in that skill's mode, in review too |
| `Policy.ExecutedIsKnown` | internal/service/actions.go:664-675 | whatever router and model say, the executed action, trimmed, is one of the known families |
| `Policy.ForcedActionWins` | internal/service/actions.go:582-675 | the matched skill's forced action is proposed if and only if it is not `store_mysql` with another candidate action; it is executed if it validates, else the event goes to review |
| `Policy.ForcedRunsIff` | internal/service/actions.go:582-675 | exactly when a forced action is executed; the two that need structured parameters never are |
| `Policy.StoreMysqlOverridden` | internal/service/actions.go:597-601 | a concrete case in which the forced `store_mysql` loses to the router |
| `Policy.DeterministicIgnoresModel` | internal/service/actions.go:606-613 | a deterministic-only type is decided the same for every answer of the model |
| `FieldOrder.AheadStrictTotal` | internal/service/llm_compaction.go:92-97 | score descending, then key ascending, is a strict total order on an object's fields |
| `FieldOrder.SortFields` | internal/service/llm_compaction.go:88-97 | for every map order the fields come out in that order, all of them |
| `FieldOrder.RankIsPosition` | internal/service/llm_compaction.go:92-97 | a field's place in the sorted list is the number of fields ahead of it |
| `FieldOrder.KeptPrecede` | internal/service/llm_compaction.go:98-110 | as many fields are kept as the limit allows, and every kept one precedes every dropped one |
| `Compaction.CompactString` | internal/service/llm_compaction.go:139-154 | the shortened text, counted when it is cut |
| `Compaction.CompactValue` | internal/service/llm_compaction.go:81-137 | for every map order the result is the same function of the value, and the statistics grow by exactly its tally |
| `CompactionPoints.PointwiseExact` | internal/service/llm_compaction.go:81-154 | at every position that is reached: a text becomes exactly as much of its trimmed front as its limit allows (half of it for a noisy link), an array its items up to the limit and then the number missing, an object the fields with fewer than the limit ahead of them and the number missing |
| `CompactionPoints.TextsCounted` | internal/service/llm_compaction.go:139-154 | the texts counted as shortened are the positions reached whose texts are noisy links or longer than the limit |
| `Compaction.TopLevelKeys` | internal/service/llm_compaction.go:156-167 | the sorted field names of an object, each once; null for anything else |
| `Compaction.CompactPayloadForLLM` | internal/service/llm_compaction.go:34-79 | the wrapped result, with its account of what was cut, is used exactly when it is wanted, parses and is shorter; otherwise nothing is counted |
| `CompactionPoints.WrappedTells` | internal/service/llm_compaction.go:52-66 | the wrapped document tells each count under its own name, the original size and the field names |
| `CompactionLaws.CompactWithin` | internal/service/llm_compaction.go:81-154 | with positive limits every text, array and object of the result keeps to its limit plus one marker, at every depth |
| `CompactionLaws.CompactDepth` | internal/service/llm_compaction.go:81-137 | nesting grows by at most one level, whatever the limits |
| `CompactionLaws.MarkersAccount` | internal/service/llm_compaction.go:98-131 | for inputs without marker keys the markers in the result sum up to exactly the fields dropped and the arrays shortened |
| `CompactionLaws.CompactAbridges` | internal/service/llm_compaction.go:81-154 | nothing is made up: texts are front parts, items keep their places, fields their names, and the last item of a shortened array says how many are missing |
| `CompactionLaws.UnchangedIff` | internal/service/llm_compaction.go:81-154 | for inputs without marker keys the result equals the input if and only if every text is trimmed and everything is within its limits |

## Left out

- HTTP handlers, OAuth and session code, the web UI, the Cloudflare worker and the MySQL stores: plumbing, presentation, or the database engine's behaviour.
- Hashing, HMAC, random tokens and the retry loop around random secrets: identifiers are fresh values and the hash index is keyed by the value itself.
- Time stamps, except as logical numbers where an order depends on them; owner e-mails, access tokens, plain CRUD and configuration loading.
- JSON text: payloads, DSL specifications and target configurations are modelled decoded, and the length of encoded text is a parameter. Number formatting in `asString` is a parameter.
- Letters beyond ASCII: case folding, white space and text length are those of ASCII text.
- Summaries, log lines, tracing, the WASM engine (an arbitrary function) and header-name folding.
- Keyword lists of the spam detector, the field scores and the noisy-link test: arbitrary functions.
- Error texts, and the schema, purpose validation, authentication and secret references of integration targets.
- Reprocessing a stored event: it executes again by design, so at-most-once is stated for deliveries.
- Tags after execution, and the writes to the vector store that follow the memory mode.
- The path argument of compaction, which the result does not depend on.
- JsonPath.JsonPathGet: an index beyond 64 bits is a large number here and an error in Go; both are misses.
- LookupRuns.LookupAgreesAlways: secret values are trimmed, as the HTTP layer makes them. Its runs are the careful ones; `Agreement.AgreesThroughout` widens them.
- Agreement.AgreesThroughout: a rename in such a run is made from a sound state; renames of accounts with a restored identity under an earlier alias are not characterised.
- Stages.RunKeepsStages: calls are taken one after the other. `Overlaps` treats observations that overlap, with everything after the load as one step; finer interleavings of their store calls are not modelled.
- Stages.ApplyTemplate: an empty template stands for blank text, so the text `{}` is not told apart from it; member names are matched exactly, without Go's case folding.
- Targets.ValidateAndNormalizeDecision: returns the changed parameters instead of writing into the caller's map. The caller could see the difference only after a refusal, and then replaces the decision.
