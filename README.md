# Syllogix core in Dafny

Syllogix is a reasoning framework built around a classical-logic validator.
This project models its deterministic core and proves properties of it:

- **The deductive engine** (`deductive.dfy`, module `Deductive`):
  - a table of eighteen categorical-syllogism moods, in registration order;
  - one rule per mood;
  - the validator. It fills a reasoning step with the conclusion, mood name and confidence of the first mood whose rule fires. When none fires, or a premise is missing, it marks the step invalid with an error marker.
- **The reasoning data model** (`models.dfy`, module `Models`):
  - propositions and their rendering;
  - syllogisms, reasoning steps and the reasoning chain (the ledger);
  - the ledger's lookup of an earlier proven conclusion, used as a premise about a term. It scans newest first and applies only the symmetric E and I conversions.
- **Term normalisation** (`text.dfy`, module `Text`): the `strip().lower()` comparison the ledger uses to compare terms.
- **The self-contained parts of the LLM layer** (`llm.dfy`, module `Llm`):
  - the provider-configuration check;
  - the provider registry's name lookups;
  - the in-memory response cache with its time to live, expiry clean-up and oldest-entry eviction.
- **Option and Result** (`wrappers.dfy`): the error paths are Result values. The source raises exceptions on those paths instead.

Each mood rule is proved equal to the form its traditional code describes, for example AAA-1 for Barbara. Each code gives:

- the quantifiers of the two premises and of the conclusion;
- the figure, which fixes where the middle term stands.

On that basis the proofs show these properties of the table:

- every mood is reachable on its canonical premises;
- overlaps exist where an earlier mood shadows a later one: Barbara shadows Baralipton, Celarent shadows Celantes, Cesare shadows Felapton, Ferio shadows Fapesmo, and Festino shadows Ferison;
- no rule fires on two negative premises or on a statistical one;
- the conclusion's quality follows the premises.

The validator is a loop over the table. Its contract ties it to a specification function of the step's old fields.

The rule registered as Fapesmo is annotated "EAO-4" in the source's own comments (framework/engines/deductive.py:72 and 351). Its code, however, requires a "Some" minor premise (line 354), so it implements "No P are M, Some M are S ⇒ Some S are not P", the EIO form of figure 4. The model follows the code and gives Fapesmo the code EIO-4.

## Model

| member | source | states |
|---|---|---|
| Text.LowerPointwise | framework/models.py:136 | lower-casing keeps the length and maps every character on its own |
| Text.StripLeftShape | framework/models.py:136 | the left strip is the suffix after the leading whitespace, and it starts with a non-space character |
| Text.StripRightShape | framework/models.py:136 | the right strip is the prefix before the trailing whitespace, and it ends with a non-space character |
| Text.StripHasNoOuterSpace | framework/models.py:136 | a stripped term neither starts nor ends with whitespace |
| Text.NormIdempotent | framework/models.py:136-147 | normalising a normalised term changes nothing, so comparisons of normalised terms are stable |
| Models.Render | framework/models.py:54-62 | a statistical proposition whose payload is absent or empty fails with the source's message, and nothing else fails; O forms read "Some S are not P"; a statistical payload without "value" reads "Most% of S are P"; the text is longer than both terms together |
| Models.RenderDistinguishesQuantifiers | framework/models.py:54-62 | over the same terms, the A, E, I and O forms render to different texts |
| Models.ReasoningStep.constructor | framework/models.py:80-101 | a new step holds the given fields; the optional ones default to no sources, no syllogism, no mood, not valid, confidence 1.0 and an empty summary |
| Models.Contribution | framework/models.py:139-166 | a step contributes to a lookup only when it is valid and holds a conclusion |
| Models.ReasoningChain.constructor | framework/models.py:103-109 | a new ledger holds the given query, steps and final summary; by default it has no steps and no final summary |
| Models.ReasoningChain.AddStep | framework/models.py:111-113 | the step is appended at the end; earlier steps keep their positions |
| Models.ReasoningChain.GetProvenPremise | framework/models.py:115-168 | the reverse scan returns the newest step's contribution for a query, and None for a None query; the ledger is left unchanged |
| Models.ProvenPremiseNoneIff | framework/models.py:138-168 | the lookup finds nothing exactly when no step contributes |
| Models.ProvenPremiseIsNewestContribution | framework/models.py:138-166 | the newest contributing step decides the lookup; older steps cannot override it |
| Models.ProvenPremiseSound | framework/models.py:138-166 | a result comes from a valid step with conclusion c. Either it is c itself, whose subject matches. Or it is an E or I converse: the raw query as subject, c's subject as predicate, and c's predicate matching |
| Models.SubjectMatchBeforePredicateMatch | framework/models.py:144-147 | a conclusion whose subject and predicate both match is returned unconverted |
| Models.UnconvertibleMatchIsSkipped | framework/models.py:147-166 | an A, O or statistical conclusion whose subject does not match is skipped, and the scan moves on to older steps |
| Deductive.TableIndex | framework/engines/deductive.py:50-73 | every mood has a position in the table |
| Deductive.MoodTableListsEveryMoodOnce | framework/engines/deductive.py:50-73 | the table has 18 entries; it holds every mood exactly once, under pairwise distinct names |
| Deductive.ValidateBarbara | framework/engines/deductive.py:104-116 | fires exactly as the AAA-1 form does (M-P, S-M) and concludes All S are P |
| Deductive.ValidateCelarent | framework/engines/deductive.py:118-130 | fires exactly as EAE-1 and concludes No S are P |
| Deductive.ValidateCesare | framework/engines/deductive.py:134-146 | fires exactly as EAE-2 (P-M, S-M) and concludes No S are P |
| Deductive.ValidateDarii | framework/engines/deductive.py:148-160 | fires exactly as AII-1 and concludes Some S are P |
| Deductive.ValidateFerio | framework/engines/deductive.py:162-174 | fires exactly as EIO-1 and concludes Some S are not P |
| Deductive.ValidateCamestres | framework/engines/deductive.py:176-188 | fires exactly as AEE-2 and concludes No S are P |
| Deductive.ValidateFestino | framework/engines/deductive.py:190-202 | fires exactly as EIO-2 and concludes Some S are not P |
| Deductive.ValidateBaroco | framework/engines/deductive.py:204-216 | fires exactly as AOO-2 and concludes Some S are not P |
| Deductive.ValidateDarapti | framework/engines/deductive.py:220-232 | fires exactly as AAI-3 (M-P, M-S) and concludes Some S are P |
| Deductive.ValidateFelapton | framework/engines/deductive.py:234-246 | fires exactly as EAO-3 and concludes Some S are not P |
| Deductive.ValidateDisamis | framework/engines/deductive.py:248-260 | fires exactly as IAI-3 and concludes Some S are P |
| Deductive.ValidateDatisi | framework/engines/deductive.py:262-274 | fires exactly as AII-3 and concludes Some S are P |
| Deductive.ValidateBocardo | framework/engines/deductive.py:276-288 | fires exactly as OAO-3 and concludes Some S are not P |
| Deductive.ValidateFerison | framework/engines/deductive.py:290-302 | fires exactly as EIO-3 and concludes Some S are not P |
| Deductive.ValidateBaralipton | framework/engines/deductive.py:306-318 | fires exactly as AAI-4 (P-M, M-S) and concludes Some S are P |
| Deductive.ValidateCelantes | framework/engines/deductive.py:320-332 | fires exactly as EAE-4 and concludes No S are P |
| Deductive.ValidateDabitis | framework/engines/deductive.py:334-346 | fires exactly as IAI-4 and concludes Some S are P |
| Deductive.ValidateFapesmo | framework/engines/deductive.py:348-360 | fires exactly as EIO-4 and concludes Some S are not P |
| Deductive.FirstMatchInNoneIff | framework/engines/deductive.py:88-96 | a scan of a mood list finds nothing exactly when none of its rules fires |
| Deductive.FirstMatchInIsEarliest | framework/engines/deductive.py:88-96 | the scan reports the earliest mood whose rule fires, with that rule's conclusion |
| Deductive.FirstMatchInFires | framework/engines/deductive.py:88-96 | a reported match names a listed mood whose rule fires with the reported conclusion, and no rule listed before it fires |
| Deductive.FirstMatchNoneIff | framework/engines/deductive.py:88-100 | the validator finds no mood exactly when none of the eighteen rules fires |
| Deductive.BarbaraShadowsBaralipton | framework/engines/deductive.py:50-73 | "All X are Y" with "All Y are X" fires Baralipton too, but Barbara comes first and is reported |
| Deductive.CelarentShadowsCelantes | framework/engines/deductive.py:50-73 | "No X are Y" with "All Y are X" fires Celantes too, but Celarent comes first and is reported |
| Deductive.CesareShadowsFelapton | framework/engines/deductive.py:50-73 | "No X are Y" with "All X are Y" (X and Y distinct) fires Felapton too, but Cesare comes first and is reported |
| Deductive.FerioShadowsFapesmo | framework/engines/deductive.py:50-73 | "No X are Y" with "Some Y are X" fires Fapesmo too, but Ferio comes first and is reported |
| Deductive.FestinoShadowsFerison | framework/engines/deductive.py:50-73 | "No X are Y" with "Some X are Y" (X and Y distinct) fires Ferison too, but Festino comes first and is reported |
| Deductive.RuleIsCodeRule | framework/engines/deductive.py:104-360 | every registered rule equals the form its mood code describes |
| Deductive.RuleConclusionTerms | framework/engines/deductive.py:104-360 | the conclusion takes S and P from the premise positions its figure designates, and has default flags |
| Deductive.NoRuleFiresOnStatisticalOrTwoNegatives | framework/engines/deductive.py:104-360 | no rule fires on a statistical premise or on two negative premises |
| Deductive.RuleConclusionQuality | framework/engines/deductive.py:104-360 | a conclusion is negative exactly when a premise is; it is universal only for Barbara, Celarent, Cesare, Camestres and Celantes; a particular premise gives a particular conclusion |
| Deductive.CodeSignatureDeterminesMood | framework/engines/deductive.py:50-73 | no two moods share premise letters and figure |
| Deductive.QuantifierOfInjective | framework/engines/deductive.py:104-360 | the four code letters stand for four different quantifiers |
| Deductive.FormRuleOnCanonicalPremises | framework/engines/deductive.py:104-360 | on a code's canonical premises a form applies exactly when the premise letters and figure agree; it then concludes S-P |
| Deductive.CanonicalPremisesFireOnlyTheirMood | framework/engines/deductive.py:104-360 | on a mood's canonical premises that mood's rule fires and no other |
| Deductive.CanonicalPremisesSelectTheirMood | framework/engines/deductive.py:50-100 | every mood is reachable: on its canonical premises it is reported, concluding S-P with its code's third quantifier |
| Deductive.MissingPremisesAreRejected | framework/engines/deductive.py:80-86 | a step with no syllogism, or with either premise missing, is marked invalid and gets the missing-premises marker; its syllogism, mood and confidence are unchanged |
| Deductive.NoFiringMoodIsRejected | framework/engines/deductive.py:88-100 | a step with both premises on which no rule fires is marked invalid and gets the no-known-syllogism marker; nothing else changes |
| Deductive.AcceptedStepRecordsFirstFiringMood | framework/engines/deductive.py:88-96 | an accepted step had both premises. It records a mood whose rule fires on them, that rule's conclusion and confidence 1.0, and no mood earlier in the table fires; its summary is kept |
| Deductive.RevalidateAcceptedIsStable | framework/engines/deductive.py:75-100 | validating an accepted step again changes nothing |
| Deductive.RevalidateRejectedAppendsMarkerAgain | framework/engines/deductive.py:75-100 | validating a rejected step again appends its marker a second time |
| Deductive.CanonicalStepIsAccepted | framework/engines/deductive.py:75-100 | a step holding a mood's canonical premises is accepted under that mood's name, and its summary is unchanged |
| Deductive.UnrelatedPremisesAreRejected | framework/engines/deductive.py:75-100 | premises that share no term are rejected with the no-known-syllogism marker |
| Deductive.Validate | framework/engines/deductive.py:75-100 | the loop over the table updates the step in place exactly as the verdict function describes, and returns the same step |
| Llm.ValidateProviderConfig | framework/llm.py:367-381 | each message is reported exactly when its check fails (empty API key, timeout not positive, negative retries); reported messages follow the check order without repeats; the list is empty exactly when all checks pass |
| Llm.CreateProvider | framework/llm.py:207-222 | succeeds exactly for a registered name; the created provider reports that name and keeps the configuration; otherwise the error lists the registered names in order |
| Llm.GetSupportedModels | framework/llm.py:224-245 | an unknown name lists no models; each registered name lists two |
| Llm.ProviderNameRoundTrip | framework/llm.py:139-222 | creating a provider under the name it reports gives back a provider of the same kind |
| Llm.SupportedModelsIffCreatable | framework/llm.py:207-245 | a name lists models exactly when a provider can be created under it |
| Llm.BarIndexOfJoin | framework/llm.py:265 | in the joined key text, the first "\|" is the one after the prompt, provided the prompt has no "\|" |
| Llm.SplitAtFirstBar | framework/llm.py:265 | two "\|"-joined texts with "\|"-free heads are equal only when heads and rests are equal |
| Llm.KeyDistinguishesSchemas | framework/llm.py:257-266 | requests that differ only in the schema name get different keys |
| Llm.KeyDistinguishesArguments | framework/llm.py:257-266 | when no argument but the last contains "\|", equal keys mean equal requests |
| Llm.KeyCollidesWhenArgumentsHoldBar | framework/llm.py:265 | a "\|" inside an argument lets two different requests share a key |
| Llm.ExpiryIsPermanent | framework/llm.py:268-272 | once an entry is expired, it stays expired as the clock advances |
| Llm.StoredEntryLiveWithinTtl | framework/llm.py:268-272 | an entry stored at time t is live exactly while now - t <= ttl |
| Llm.OldestKey | framework/llm.py:293 | returns a key with the smallest timestamp |
| Llm.ResponseCache.constructor | framework/llm.py:251-255 | a new cache is empty and keeps the given ttl and maxsize; the defaults are 3600 and 1000 |
| Llm.ResponseCache.Cleanup | framework/llm.py:274-279 | removes exactly the expired entries from both maps, keeping them in step |
| Llm.ResponseCache.Get | framework/llm.py:281-303 | expired entries are dropped. A full cache then evicts one oldest entry; when it is full but empty, the source's error is returned. The result is the request's entry, if any |
| Llm.ResponseCache.Set | framework/llm.py:305-317 | stores the response and the time under the request's key, replacing any old entry; no other entry changes |
| Llm.RemovingKeysShrinks | framework/llm.py:276-279 | removing keys never enlarges the cache |
| Llm.FreshCacheMisses | tests/framework/test_llm.py:117-121 | a lookup on a new cache returns nothing |
| Llm.SetThenGetHits | tests/framework/test_llm.py:123-131 | a lookup after a store returns the stored response, provided it has not expired and nothing is evicted |
| Llm.SchemasDoNotOverwrite | tests/framework/test_llm.py:133-143 | responses stored under two schema names are both found afterwards |

## Left out

- Unicode: `Text.Norm` follows `strip()` and `lower()` on ASCII only. Python also strips Unicode whitespace and lower-cases non-ASCII letters.
- Clock: the current time (`time.time()`) is a `now` parameter. One cache operation reads it once, where the source reads it per entry.
- SHA-256 is not computed: `CacheKey` wraps the joined text, so two keys are equal exactly when their texts are. Hash collisions are not modelled.
- Llm.OldestKey: among keys with equal oldest timestamps it may return any one of them. Python's `min` returns the earliest inserted, and the model has no insertion order for map keys.
- Llm.ResponseCache.Get: in the source, a cached `None` response cannot be told apart from a miss, because both return `None`. The model returns `Option.Some(..)` for every cached response, so it tells them apart.
- Llm.GetSupportedModels: states the list length and which names have lists. The exact model strings are in its body, not its contract.
- Llm.ProviderConfig: `retry_backoff` and `temperature` are floats that no modelled check reads, so they are left out.
- Aliasing: a `Syllogism` object shared between two steps is not modelled. `Syllogism` is a value that the validator writes back into the step.
- Models.Render: a statistical payload is a map from strings to strings. Python's `str()` of other value types is not modelled.
- The LLM provider clients (`_create_client`, `generate_structured`, the LangChain calls): they are network I/O.
- `LLMHealthMonitor`: it calls a provider and reads the clock.
- `ReasoningChain.__str__`: a human-readable dump that nothing in the core reads.
- `framework/framework.py` and `framework/schemas.py`: the LLM-driven orchestration and its Pydantic schemas are not part of this model.
