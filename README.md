# JC Agent core, modelled in Dafny

This project models the sequential core of the JC Agent (a local developer assistant written in Python) and proves what that code promises.

- **Key Locker** (`KeyLocker`): the credential store. It holds a metadata map, a secret map kept in the platform keyring or in one passphrase-sealed file, and an append-only audit log. The facade operations add, list, get, get_secret, delete, edit, find and touch are modelled as a `Locker` class. Each method is carried out step by step in the source's order of effects, and each is specified by a function on a `Store` value.
- **Usage ledger** (`UsageLogger`): the append-only `usage.log` and its filter-and-sum summary.
- **Error handling** (`ErrorHandling`): retry with backoff, the circuit-breaker state machine and the `handle_errors` fallback wrapper.
- **Flow runner** (`Flow`): `JCFlow.run`, the research-planning handler, the research flow and `run_flow`.
- **Key resolution** (`Secrets`): the provider order for LLM keys, the effective provider and the model choice.
- **External storage index** (`ExternalStorage`): file search, AI-model and project discovery, keyword extraction and descriptions.
- **Clarifying questions** (`AskQuestions`): the prompt builder, the numbered-question parser and the mock fallback.
- **Third-party doc search** (`ThirdPartyIndex`), **guardrails** (`Guardrails`) and the **workspace indexer** (`WorkspaceIndexer`).
- **LLM provider** (`LlmProvider`): message preparation, the HuggingFace prompt and response reader, usage recording and the dispatch of `call`.
- **Request authentication** (`Auth`): token creation and verification, and the API-key/bearer decision chain.

Support modules:
- `Wrappers`: Option and Result.
- `Text`: the parts of Python's `str` that the source relies on.
- `Sorting`: Python's stable `sorted` with a key.

Files, the environment, the clock, fresh ids and the network are parameters. The modules that hold them say how.

## Model

| member | source | states |
|---|---|---|
| KeyLocker.ResolvePassphrase | jc/key_locker.py:124-128 | the argument when it is a non-empty string, else a non-empty JC_SECRETS_PASSPHRASE, else the "passphrase required" error, and it fails exactly when neither is given |
| KeyLocker.SanitizedProviderShape | jc/key_locker.py:172-174 | a sanitised provider has no upper-case ASCII letter, is as long as the stripped argument, and is empty exactly when the argument is blank |
| KeyLocker.PickStorage | jc/key_locker.py:164-170 | the keyring backend is chosen exactly when the keyring module is available |
| KeyLocker.LoadSecretMap | jc/key_locker.py:131-135 | a missing secrets file is the empty map; an existing one opens to its map exactly under the passphrase it was sealed with, and is a decryption error under any other |
| KeyLocker.SetFileValue | jc/key_locker.py:143-146 | succeeds exactly when the file opens; the new file, sealed under the passphrase, holds the old map with `keyId` set to the secret |
| KeyLocker.DeleteFileValue | jc/key_locker.py:149-153 | succeeds exactly when the file opens; the file is left as it was when the id is absent and otherwise holds the map without the id |
| KeyLocker.GetFileValue | jc/key_locker.py:156-158 | succeeds exactly when the file opens, and returns the secret filed under the id, None when there is none |
| KeyLocker.Records | jc/key_locker.py:226 | the records in the key order of the metadata object, one per key |
| KeyLocker.FirstIndexWithProvider | jc/key_locker.py:316-319 | the index of the first record with the provider, every earlier one having another provider, or the length when there is none |
| KeyLocker.WriteSecret | jc/key_locker.py:206-210 | writing a secret touches only the keyring and the secrets file |
| KeyLocker.WriteSecretEffect | jc/key_locker.py:206-210 | the keyring backend succeeds exactly when the keyring module is present and then stores the secret under the id; the file backend succeeds exactly when a passphrase resolves and the file opens, and then seals the old map with the secret under the id; each failure names its cause |
| KeyLocker.RemoveSecret | jc/key_locker.py:268-274 | removing a secret touches only the keyring and the secrets file |
| KeyLocker.RemoveSecretEffect | jc/key_locker.py:268-274 | the keyring backend fails exactly when the module is present and holds no entry for the id, drops the entry when the module is present, and changes nothing without it; the file backend succeeds exactly when a passphrase resolves and the file opens, after which the file holds no secret under the id |
| KeyLocker.Put | jc/key_locker.py:212-215 | the metadata maps the record's id to the record, and a new id is appended to the key order |
| KeyLocker.Popped | jc/key_locker.py:262-267 | the metadata loses the id and the key order drops it, nothing else changes |
| KeyLocker.Logged | jc/key_locker.py:83-92 | appending an audit line keeps the store well formed |
| KeyLocker.RemoveId | jc/key_locker.py:264 | the key order without the id, still free of duplicates |
| KeyLocker.ValidateOrder | jc/key_locker.py:186-191 | a blank name is reported first, then a blank provider, then an empty secret, and the checks pass exactly when none of these holds |
| KeyLocker.AddSpec | jc/key_locker.py:177-218 | add_key keeps the store well formed and changes nothing when it fails |
| KeyLocker.ListSpec | jc/key_locker.py:220-228 | list_keys fails exactly when the file backend is in use and no passphrase resolves; otherwise it returns the records sorted by created_at, as a permutation of the metadata records |
| KeyLocker.SecretSpec | jc/key_locker.py:242-258 | an unknown id is "not found" (KeyError); a missing keyring module is the RuntimeError and a passphrase or decryption failure of the file is passed on; an absent or empty value is "Secret missing or encrypted" (ValueError); a returned secret is non-empty and is the keyring entry or the file entry that the record's storage tag names |
| KeyLocker.SecretSpecSucceeds | jc/key_locker.py:243-258 | get_secret succeeds, returning the value, whenever the backend the record names holds a non-empty value under the id (the keyring with the library present, or the secrets file sealed under the resolved passphrase) |
| KeyLocker.GetKeySpec | jc/key_locker.py:230-240 | get_key succeeds exactly when get_secret does, with the stored record and `secret_available` true, and otherwise fails with get_secret's error |
| KeyLocker.DeleteSpec | jc/key_locker.py:260-275 | delete_key keeps the store well formed, and an unknown id changes nothing and is "not found" |
| KeyLocker.EditSpec | jc/key_locker.py:277-311 | edit_key keeps the store well formed and the key order unchanged, and an unknown id changes nothing and is "not found" |
| KeyLocker.TouchSpec | jc/key_locker.py:321-330 | an unknown id changes nothing; a known one gets last_used_at set to now with its other fields, the other records, the secrets and the audit log unchanged |
| KeyLocker.FindSpec | jc/key_locker.py:313-319 | find_key_for_provider fails exactly when list_keys fails |
| KeyLocker.AddFailsOnlyBeforeWriting | jc/key_locker.py:186-210 | each failed input check gives its own error with the store untouched, in the source's order, and add_key succeeds exactly when the checks pass and the secret can be written (keyring present, or a passphrase that opens the file) |
| KeyLocker.AddWritesRecordSecretAndAudit | jc/key_locker.py:193-218 | a successful add_key files a record with the stripped name, the sanitised provider, the storage chosen and the time, stores the secret, appends one "add" audit line, and returns the record |
| KeyLocker.AddThenGetSecret | jc/key_locker.py:177-258 | a secret accepted by add_key is what get_secret returns for the new id under the same passphrase argument, and get_key reports it available |
| KeyLocker.ListedExactly | jc/key_locker.py:220-228 | list_keys returns every record of the metadata file exactly once and nothing else |
| KeyLocker.ListKeepsTiesInOrder | jc/key_locker.py:226-227 | records with equal created_at keep the order of the metadata object (the sort is stable) |
| KeyLocker.AddedKeyIsListed | jc/key_locker.py:212-228 | a key added successfully is listed straight away |
| KeyLocker.ListedPosition | jc/key_locker.py:226-227 | gives the position at which list_keys places the record filed under an id |
| KeyLocker.FindReturnsEarliestMatch | jc/key_locker.py:313-319 | a found key has the sanitised provider, is a stored record, and no record with that provider has an earlier created_at |
| KeyLocker.FindNoneOnlyWithoutMatch | jc/key_locker.py:313-319 | nothing is found exactly when no stored record has the sanitised provider |
| KeyLocker.DeleteDropsRecordFirst | jc/key_locker.py:262-267 | delete_key removes the record before anything else can fail, and a successful delete appends one "delete" audit line |
| KeyLocker.DeleteRemovesSecret | jc/key_locker.py:268-274 | a completed delete_key leaves no secret under the id in the backend the record named |
| KeyLocker.DeleteThenGetNotFound | jc/key_locker.py:260-275 | after delete_key, whatever became of the secret, get_secret reports the id as not found |
| KeyLocker.DeleteWithoutPassphraseOrphansSecret | jc/key_locker.py:262-274 | deleting a file-stored key with no passphrase removes its record but fails before the secret is removed, leaving the secret in the file |
| KeyLocker.WrongPassphraseIsDecryptError | jc/key_locker.py:116-121 | a secrets file sealed under another passphrase makes get_secret fail with a decryption error, not "missing" |
| KeyLocker.EditChangesOnlyGivenFields | jc/key_locker.py:287-300 | edit_key replaces the name and provider only when a non-empty one is given (stripped, sanitised), the budget only when one is given, always stamps updated_at, keeps id, storage, created_at, notes and last_used_at and every other record, and logs one "edit" line only on success |
| KeyLocker.EditWithoutSecretKeepsSecret | jc/key_locker.py:287-311 | an edit without a secret cannot fail on an existing key and leaves every secret as it was |
| KeyLocker.EditRotatesSecret | jc/key_locker.py:301-309 | a successful edit with a non-empty secret rotates it: get_secret with the same passphrase argument then returns the new secret |
| KeyLocker.EditEmptySecretIsMissing | jc/key_locker.py:301-309 | edit_key stores an empty secret, which get_secret then reports as missing |
| KeyLocker.TouchKeepsSecrets | jc/key_locker.py:321-330 | touch_key changes no answer of get_secret, for any id |
| KeyLocker.Locker.constructor | jc/key_locker.py:57-60 | a fresh storage directory: empty metadata, no secrets file, empty audit log |
| KeyLocker.Locker.WriteAudit | jc/key_locker.py:83-92 | appends exactly one entry to the audit log |
| KeyLocker.Locker.SetSecretFileValue | jc/key_locker.py:143-146 | the secrets file becomes SetFileValue's file, or stays as it was with a decryption error |
| KeyLocker.Locker.DeleteSecretFileValue | jc/key_locker.py:149-153 | the secrets file becomes DeleteFileValue's file, or stays as it was with a decryption error |
| KeyLocker.Locker.StoreSecret | jc/key_locker.py:206-210 | the locker's state becomes WriteSecret's store, and the result is its outcome |
| KeyLocker.Locker.AddKey | jc/key_locker.py:177-218 | the new state and the result are AddSpec's |
| KeyLocker.Locker.ListKeys | jc/key_locker.py:220-228 | returns ListSpec of the current state and changes nothing |
| KeyLocker.Locker.GetSecret | jc/key_locker.py:242-258 | returns SecretSpec of the current state and changes nothing |
| KeyLocker.Locker.GetKey | jc/key_locker.py:230-240 | returns GetKeySpec of the current state and changes nothing |
| KeyLocker.Locker.DeleteKey | jc/key_locker.py:260-275 | the new state and the result are DeleteSpec's |
| KeyLocker.Locker.EditKey | jc/key_locker.py:277-311 | the new state and the result are EditSpec's |
| KeyLocker.Locker.FindKeyForProvider | jc/key_locker.py:313-319 | returns FindSpec of the current state, through the loop over the sorted list, and changes nothing |
| KeyLocker.Locker.TouchKey | jc/key_locker.py:321-330 | the new state is TouchSpec's |
| KeyLocker.Edited | jc/key_locker.py:287-300 | the record edit_key writes back; KeyLocker.EditChangesOnlyGivenFields states which fields change and that the rest of the store stays |
| KeyLocker.Validate | jc/key_locker.py:186-191 | add_key's input checks; KeyLocker.ValidateOrder states their order and that they pass exactly when the name, provider and secret are all given |
| KeyLocker.SanitizeProvider | jc/key_locker.py:173-176 | the provider as stored; KeyLocker.SanitizedProviderShape states it has no upper-case ASCII letter, the stripped length, and is empty exactly for a blank argument |
| UsageLogger.Filtered | jc/usage_logger.py:58-74 | never more records than lines |
| UsageLogger.SummarySpec | jc/usage_logger.py:50-89 | summary fails exactly when a line parses to a non-object (the fields of a record are typed, see "## Left out"); otherwise it reports the key and days asked for, the token total over every kept record, and the last `max_entries` kept records (none when `max_entries` is not positive) |
| UsageLogger.FilteredAppend | jc/usage_logger.py:58-74 | one more line adds its record to the kept ones exactly when it is the key's and not older than the cutoff |
| UsageLogger.TokenSumAppend | jc/usage_logger.py:75-76 | one more entry adds its tokens to the total exactly when they are truthy |
| UsageLogger.CostSumAppend | jc/usage_logger.py:77-78 | one more entry adds its estimated cost to the total exactly when it is truthy |
| UsageLogger.FilteredOnlyMatching | jc/usage_logger.py:65-73 | every kept record is for the key and is undated or not older than the cutoff |
| UsageLogger.FilteredKeepsEveryRecent | jc/usage_logger.py:65-74 | every record for the key that is undated or not older than the cutoff is kept |
| UsageLogger.NonPositiveDaysCutsAtNow | jc/usage_logger.py:53 | with `days <= 0` the cutoff is now, so an earlier record of the key is dropped and does not change the summary |
| UsageLogger.UncountedLineChangesNothing | jc/usage_logger.py:58-73 | blank and unparseable lines, other keys' records and records older than the cutoff leave the summary unchanged |
| UsageLogger.LogThenSummaryShowsEntry | jc/usage_logger.py:25-78 | a logged record not older than the cutoff becomes the newest entry of its key's summary, and its truthy tokens are added to the total |
| UsageLogger.TotalIgnoresMaxEntries | jc/usage_logger.py:74-82 | the token total does not depend on `max_entries`, and a limit at least the number of kept records returns them all |
| UsageLogger.UsageLedger.constructor | jc/usage_logger.py:16-20 | an empty usage log |
| UsageLogger.UsageLedger.Log | jc/usage_logger.py:25-48 | appends exactly one record stamped `now` with the given fields and leaves every earlier line as it was |
| UsageLogger.UsageLedger.Summarize | jc/usage_logger.py:50-89 | the loop over the lines returns SummarySpec and changes nothing |
| UsageLogger.TokenSum | jc/usage_logger.py:75-76 | the token total; UsageLogger.TokenSumAppend states that only truthy token fields add |
| UsageLogger.Counted | jc/usage_logger.py:58-73 | the lines summary keeps; UsageLogger.FilteredAppend states the key and cutoff test |
| ErrorHandling.RetryFromCalls | jc/error_handling.py:55-61 | from any attempt on, every attempt but the deciding one raised a caught exception; a success returns that call's value, an uncaught exception propagates from its own call, and exhaustion happens only at `max_attempts` with that attempt's exception as the cause |
| ErrorHandling.DelaysGeometric | jc/error_handling.py:52-69 | the first sleep is `initial_delay` and each next one is `backoff_factor` times the previous |
| ErrorHandling.RetryFromSleeps | jc/error_handling.py:60-69 | the wrapper sleeps once between consecutive attempts, never after the deciding one, with the geometric delays |
| ErrorHandling.RetryPromises | jc/error_handling.py:49-76 | at most `max_attempts` calls; no call and RetryExhausted without a cause when `max_attempts < 1`; the first success is returned; an exception outside `exceptions` propagates at once; after `max_attempts` caught failures RetryExhausted is raised from the last; one sleep fewer than calls, geometric from `initial_delay` |
| ErrorHandling.RetryWithBackoff | jc/error_handling.py:51-73 | the loop over attempts, with `delay` and `last_exception` updated per attempt, computes exactly the run RetryPromises describes |
| ErrorHandling.InvokeKeepsConsistent | jc/error_handling.py:157-195 | every guarded call keeps the breaker consistent: a non-closed breaker has recorded a failure and has at least `failure_threshold` of them |
| ErrorHandling.OpenRejectsWithoutCalling | jc/error_handling.py:160-167 | an open breaker within `timeout` of its last failure raises CircuitBreakerOpen whatever the function would do, and nothing changes |
| ErrorHandling.FailureCountsAndOpens | jc/error_handling.py:173-175 | an admitted call raising an expected exception is re-raised, counts one failure at `now`, and the breaker is then open exactly when the count reaches the threshold |
| ErrorHandling.HalfOpenFailureReopens | jc/error_handling.py:160-192 | after the timeout an open breaker admits a call half-open, and a failure of that call re-opens it with the count one higher |
| ErrorHandling.SuccessCloses | jc/error_handling.py:169-184 | an admitted success returns the value, closes the breaker and resets the count, keeping the last failure time |
| ErrorHandling.UnexpectedPassesThrough | jc/error_handling.py:169-175 | an exception outside `expected_exceptions` is re-raised without touching the count or the failure time |
| ErrorHandling.FailAt | jc/error_handling.py:186-192 | any series of expected failures leaves the breaker consistent |
| ErrorHandling.ThresholdFailuresOpen | jc/error_handling.py:186-195 | from a new breaker, consecutive expected failures are counted with the breaker closed until the `failure_threshold`-th, which opens it |
| ErrorHandling.CircuitBreaker.constructor | jc/error_handling.py:143-155 | keeps the configuration; the breaker starts closed with no failures and no failure time |
| ErrorHandling.CircuitBreaker.OnSuccess | jc/error_handling.py:179-184 | half-open becomes closed, the count resets, nothing else changes |
| ErrorHandling.CircuitBreaker.OnFailure | jc/error_handling.py:186-195 | the count grows by one, the failure time becomes `now`, and the state is open once the count reaches the threshold |
| ErrorHandling.CircuitBreaker.Call | jc/error_handling.py:157-177 | the wrapper updates the fields in place exactly as Invoke describes, keeping the breaker consistent |
| ErrorHandling.HandleErrorsNeverRaises | jc/error_handling.py:216-229 | without `reraise` the wrapper never raises: the function's value when it returns, otherwise the fallback |
| ErrorHandling.HandleErrors | jc/error_handling.py:198-232 | the wrapper returns the function's value when it returns; on an exception the fallback, or the exception itself when `reraise` is set |
| ErrorHandling.Invoke | jc/error_handling.py:157-195 | one call through the breaker; ErrorHandling.InvokeKeepsConsistent, ErrorHandling.OpenRejectsWithoutCalling and ErrorHandling.SuccessCloses state what it does to the breaker |
| ErrorHandling.Retry | jc/error_handling.py:28-76 | the decorated call `retry_with_backoff(...)(func)()`; ErrorHandling.RetryPromises states the attempt bound, the outcomes and the geometric sleeps |
| ErrorHandling.RetryFrom | jc/error_handling.py:51-73 | the retry wrapper's attempts from one attempt on; ErrorHandling.RetryFromCalls and ErrorHandling.RetryFromSleeps state its outcome and its sleeps |
| Flow.RunFlow | jc/__init__.py:89-120 | the loop of `JCFlow.run` computes exactly the run RunSpec describes: the final state and the steps started |
| Flow.RunStep | jc/__init__.py:98-118 | one turn on a known step: the history entry is appended before the handler runs; an exception is recorded as "name: message" and stops the run; no `next_steps` stops it; otherwise `step_id` becomes the first of them |
| Flow.StartedSteps | jc/__init__.py:97-118 | every step started is known and not terminal, the first is the starting `step_id`, each next one is the first `next_steps` entry of the previous one, and at most `fuel` steps are started |
| Flow.TurnContinuesToNext | jc/__init__.py:115-118 | a turn that goes on has `next_steps` and continues from the first of them |
| Flow.TurnAppendsEntry | jc/__init__.py:102-103 | a turn whose handler leaves the history alone appends exactly the step's entry (name, role, start time) |
| Flow.OneEntryPerStep | jc/__init__.py:97-118 | with such handlers, the run appends one history entry per step started, in order, and nothing else |
| Flow.HandlerErrorStops | jc/__init__.py:105-110 | a handler exception ends the run after that step, with "name: message" appended to the state the handler left |
| Flow.LastStepKeepsStepId | jc/__init__.py:115-118 | a step without `next_steps` ends the run after itself, with `step_id` unchanged |
| Flow.UnknownStepStops | jc/__init__.py:98-100 | an unknown `step_id` ends the run at once: nothing started, the state unchanged |
| Flow.LatestUserMessage | jc/__init__.py:153 | the result is "" or the content of a message whose role is "user", and "" when no message is from the user |
| Flow.LatestUserMessageIsLatest | jc/__init__.py:153 | the content picked is that of the last user message |
| Flow.PlanResearch | jc/__init__.py:152-156 | the handler returns the state with only its tasks replaced, by the single pending task "q1" whose question is the content of the latest user message ("" when there is none) |
| Flow.ResearchFlowNeverSummarizes | jc/__init__.py:203-212 | since draft_summary is terminal it is never started: a run from a fresh state starts plan_research, then at most run_research, and ends on draft_summary when the research handler returns |
| Flow.RunFlowByName | jc/__init__.py:216-230 | an unknown flow name is a ValueError, and an `initial_state` that already has a flow id fails on the duplicate keyword, in both directions |
| Flow.RunKeepsThread | jc/__init__.py:89-120 | the loop never changes the thread id when its handlers keep it |
| Flow.RunFlowThreadId | jc/__init__.py:217-227 | a missing or empty thread id is replaced by a fresh one, and the run's result carries the thread id it started with |
| Flow.ResearchFlow | jc/__init__.py:203-212 | the research_then_summarize flow; Flow.ResearchFlowNeverSummarizes states which steps a run starts |
| Flow.RunSpec | jc/__init__.py:89-122 | the whole run from a state; Flow.RunFlow states that the loop computes it |
| Flow.Turn | jc/__init__.py:98-118 | one turn of the run loop; Flow.RunStep, Flow.TurnContinuesToNext and Flow.TurnAppendsEntry state its history entry, error recording and next step |
| Secrets.NormalizeProviderShape | jc/secrets.py:34-40 | no provider for a missing, empty or blank name, in both directions; otherwise the stripped, lower-cased name, which is how the key locker stores providers |
| Secrets.EnvValue | jc/secrets.py:43-48 | a result is a non-empty value of one of the listed variables; none means no listed variable is set to a non-empty value |
| Secrets.EnvValueFirstWins | jc/secrets.py:44-47 | the first listed variable with a non-empty value wins |
| Secrets.LoadEnvValue | jc/secrets.py:43-48 | the loop over the names returns EnvValue |
| Secrets.KeyOrder | jc/secrets.py:113-117 | a given candidate is tried first |
| Secrets.Without | jc/secrets.py:117 | keeps exactly the fallback providers other than the candidate |
| Secrets.KeyOrderShape | jc/secrets.py:113-117 | every provider is tried once: the candidate and all fallback providers, nothing else, and the fallback order alone without a candidate |
| Secrets.BuildOrder | jc/secrets.py:114-117 | building the order by append and extend gives KeyOrder |
| Secrets.LockerHit | jc/secrets.py:129-140 | a key locker hit names the provider, has a non-empty key, the key locker as source and a key id; an error escapes only when it is neither KeyError nor ValueError |
| Secrets.ProviderHit | jc/secrets.py:119-140 | a provider's hit names it, has a key and a source, and has a key id exactly when the source is the key locker |
| Secrets.KeyInfoFromStep | jc/secrets.py:119-140 | one turn of the loop: a raise propagates, a hit returns, nothing goes on to the next provider |
| Secrets.FirstDecisive | jc/secrets.py:119-140 | the providers before the position yield nothing and the one at it yields a key or raises |
| Secrets.KeyInfoIsFirstHit | jc/secrets.py:112-142 | `get_llm_key_info` returns the first provider's key or raises what that provider raised; all None when no provider yields anything |
| Secrets.EnvWinsForProvider | jc/secrets.py:120-122 | a set key variable wins over the key file and the key locker, with source "env" and no key id |
| Secrets.KeyFileBeatsLocker | jc/secrets.py:124-127 | without a variable, huggingface's key file wins over the key locker |
| Secrets.LockerHitCarriesId | jc/secrets.py:129-138 | a key locker hit is the provider's earliest record: it carries that record's id, and its key is that record's secret |
| Secrets.LockedStoreYieldsNothing | jc/secrets.py:139-140 | without a keyring and without a passphrase the locker's ValueError is caught and the provider yields nothing |
| Secrets.MissingKeyringPropagates | jc/secrets.py:129-140 | a keyring record read without the keyring module raises RuntimeError, which is not caught |
| Secrets.GetLlmKeyInfo | jc/secrets.py:112-142 | builds the order and tries the providers, returning KeyInfoSpec |
| Secrets.TryProviders | jc/secrets.py:119-142 | the loop with its early returns computes the provider sequence's outcome |
| Secrets.FirstWithKey | jc/secrets.py:84-86 | the provider found has a key and every provider before it in the order has none; when nothing is found, no provider of the order has a key |
| Secrets.EffectiveProviderChoice | jc/secrets.py:78-88 | JC_PROVIDER is honoured exactly when that provider has a key; otherwise openai if it has a key, else openrouter if it has one, else huggingface if it has one, else "openrouter" |
| Secrets.FallbackFirst | jc/secrets.py:84-86 | the loop over the fallback order picks openai, openrouter, huggingface, the first of them with a key, or nothing |
| Secrets.GetEffectiveProvider | jc/secrets.py:78-88 | the loop over the fallback order returns EffectiveProviderSpec |
| Secrets.LlmModelChoice | jc/secrets.py:150-162 | a set model variable of the provider wins; otherwise its default, and the openrouter default for a provider without one |
| Secrets.LlmModelDefault | jc/secrets.py:150-162 | with no provider or a blank one the model is chosen for the effective provider: its set model variable, else its default, else the openrouter default |
| Secrets.LlmModel | jc/secrets.py:150-162 | the model for a provider or, when none or a blank one is given, for the effective provider; Secrets.LlmModelChoice and Secrets.LlmModelDefault state both cases |
| Secrets.KeyInfoSpec | jc/secrets.py:112-142 | `get_llm_key_info` as a function of the environment and the locker; Secrets.GetLlmKeyInfo computes it and LlmProvider.InitFollowsKeyInfo states what a provider instance takes from it |
| Secrets.EffectiveProviderSpec | jc/secrets.py:78-91 | the effective provider; Secrets.EffectiveProviderChoice states the override and the fallback order, Secrets.GetEffectiveProvider that the loop computes it |
| Secrets.ProviderHasKey | jc/secrets.py:51-59 | whether a provider has a key: one of its variables set, the huggingface key file, or a locker record, a locker error counting as none; used by Secrets.FirstWithKey and Secrets.EffectiveProviderChoice |
| Secrets.NormalizeProvider | jc/secrets.py:34-40 | provider normalisation; Secrets.NormalizeProviderShape states that blank names give none and others their stripped, lower-cased form |
| ExternalStorage.AllMatchesMembers | jc/external_storage.py:316-340 | a file is a match exactly when it is indexed, passes both filters and matches the query in its path, a keyword or its description |
| ExternalStorage.AllMatchesAppend | jc/external_storage.py:316-340 | the matches of two index segments are the matches of each, in order |
| ExternalStorage.AllMatchesIsSubsequence | jc/external_storage.py:316-340 | the matches keep index order |
| ExternalStorage.SearchPromises | jc/external_storage.py:295-344 | the results are index entries in index order, each passing both filters and matching the query; at most `limit` of them (one when `limit < 1`, since the check comes after the append); they are the first matches, and all of them when fewer than the cap |
| ExternalStorage.SearchStopsEarly | jc/external_storage.py:341-342 | once the matches reach the cap, the rest of the index changes nothing |
| ExternalStorage.EmptyQueryMatchesAll | jc/external_storage.py:328-329 | an empty query matches every file, so only the filters decide |
| ExternalStorage.FindAiModelsAreFirstModels | jc/external_storage.py:365-374 | at most 50 files, in index order, all with a model extension, and every model file when fewer than 50 |
| Text.LastIndexOf | jc/external_storage.py:393-398 | the position of the last occurrence of the character, or -1 when there is none; `Path.name` and `Path.parent` split on the last "/" and `Path.suffix` on the last "." |
| ExternalStorage.RootsOf | jc/external_storage.py:389-398 | a directory is listed exactly when an indexed marker of that kind sits in it |
| ExternalStorage.ProjectsListMarkerParents | jc/external_storage.py:376-400 | python lists the parents of pyproject.toml and setup.py, node those of package.json, git those of .git, and "other" stays empty, each in both directions |
| ExternalStorage.KeptWords | jc/external_storage.py:475 | the kept words are exactly the lower-cased input words longer than two characters that are not all digits: each kept word is one, and each such word is kept |
| ExternalStorage.KeptWordShape | jc/external_storage.py:473-475 | a kept word of a separated part is lower-case, longer than two characters, not all digits and free of separators |
| ExternalStorage.PartKeywordsShape | jc/external_storage.py:471-476 | every keyword of one path part has that shape |
| ExternalStorage.KeywordsShape | jc/external_storage.py:458-478 | every keyword of a path has that shape |
| ExternalStorage.ExtractKeywords | jc/external_storage.py:458-478 | the loop over the parts returns the keywords of each part in order, all of that shape |
| ExternalStorage.DescriptionShape | jc/external_storage.py:480-506 | the description is the file name exactly when no phrase applies; otherwise it opens with the first applicable phrase in the order ai_models, docs, code, data, and ends with "in <parent>" when the parent has a proper name |
| ExternalStorage.DescriptionOrder | jc/external_storage.py:490-504 | the phrases are those of the present categories taken in the fixed order ai_models, docs, code, data, followed by "in <parent>" exactly when the parent has a proper name |
| ExternalStorage.ExternalStorageManager.constructor | jc/external_storage.py:508-519 | the manager holds the index that was loaded |
| ExternalStorage.ExternalStorageManager.SearchFiles | jc/external_storage.py:313-344 | the loop with its early break returns Search |
| ExternalStorage.ExternalStorageManager.FindAiModelFiles | jc/external_storage.py:365-374 | an empty query with the model extensions and the default limit |
| ExternalStorage.ExternalStorageManager.FindProjects | jc/external_storage.py:376-400 | the pass over the index returns ProjectsOf |
| ExternalStorage.GenerateDescription | jc/external_storage.py:480-506 | a file's description; ExternalStorage.DescriptionShape and ExternalStorage.DescriptionOrder state its opening, the phrase order and the parent suffix |
| ExternalStorage.KeywordsSound | jc/external_storage.py:467-478 | every keyword of a path is the lower-cased form of a word of one of its parts (split at "-", "_", "." and whitespace) that is longer than two characters and not all digits |
| ExternalStorage.KeywordsComplete | jc/external_storage.py:467-478 | every such word of every part of the path is, lower-cased, among its keywords |
| ExternalStorage.KeywordsExactly | jc/external_storage.py:467-478 | a string is a keyword of a path exactly when it is the lower-cased form of a word, split at "-", "_", "." and whitespace, of one of its parts that is longer than two characters and not all digits |
| ExternalStorage.Keywords | jc/external_storage.py:458-478 | the keywords of a path; ExternalStorage.KeywordsExactly states which words they are and ExternalStorage.KeywordsShape their shape |
| ExternalStorage.ProjectsOf | jc/external_storage.py:376-400 | the projects found by marker file; ExternalStorage.ProjectsListMarkerParents states each bucket in both directions |
| ExternalStorage.FindAiModels | jc/external_storage.py:365-374 | the AI model search; ExternalStorage.FindAiModelsAreFirstModels states its bound, order and extensions |
| ExternalStorage.Search | jc/external_storage.py:295-344 | search over the index; ExternalStorage.SearchPromises states the filters, the order and the limit |
| Guardrails.ApplyAllAppend | jc/guardrails.py:28-31 | running a list of guardrails joined from two is running the first list, then the second, on its output |
| Guardrails.ApplyAllInactive | jc/guardrails.py:16-19 | guardrails whose checks do not hold leave the text unchanged |
| Guardrails.GuardrailsManager.constructor | jc/guardrails.py:22-23 | the manager starts with the given guardrails |
| Guardrails.GuardrailsManager.AddGuardrail | jc/guardrails.py:25-26 | the guardrail is appended last and the others stay in place |
| Guardrails.GuardrailsManager.Apply | jc/guardrails.py:28-31 | the loop reassigning the text applies every guardrail in order, first to last |
| Guardrails.AddedGuardrailRunsLast | jc/guardrails.py:25-31 | after adding a guardrail, applying the manager is applying it as it was and then the new guardrail |
| Guardrails.RephraseAction | jc/guardrails.py:44-45 | the result is the text's first 500 characters (all of it when shorter) followed by the mark "... [truncated]", and nothing else |
| Guardrails.BlockGuardEffect | jc/guardrails.py:35-39 | a banned word anywhere in the lower-cased text replaces the whole text by the blocked message; otherwise the text is untouched |
| Guardrails.TruncateGuardIdempotent | jc/guardrails.py:42-45 | texts of at most 500 characters are kept, longer ones become their first 500 characters plus the mark, and the guard does not change its own output |
| Guardrails.TooLong | jc/guardrails.py:42-43 | the length check over 500 characters; Guardrails.TruncateGuardIdempotent and Guardrails.RephraseAction state the truncation |
| Guardrails.BlockBannedWords | jc/guardrails.py:36-37 | the banned-word check; Guardrails.BlockGuardEffect states that a banned word replaces the text by the blocked message |
| Guardrails.ApplyAll | jc/guardrails.py:28-34 | a text through a list of guardrails; Guardrails.ApplyAllAppend and Guardrails.AddedGuardrailRunsLast state the order |
| Guardrails.Guardrail.Apply | jc/guardrails.py:16-19 | one guardrail: its action when its check holds, the text otherwise; Guardrails.ApplyAllInactive states the inactive case |
| ThirdPartyIndex.LoadIndex | jc/third_party_index.py:13-17 | a missing or corrupt index reads as the empty list |
| ThirdPartyIndex.HitsAreScoredItems | jc/third_party_index.py:23-30 | the hits are exactly the items whose content contains the query, each with its count of occurrences, all positive |
| ThirdPartyIndex.SearchOrdered | jc/third_party_index.py:20-31 | the results are a reordering of the hits, with non-increasing scores, all positive |
| ThirdPartyIndex.SearchStable | jc/third_party_index.py:31 | hits of equal score keep their index order, since Python's sort is stable |
| ThirdPartyIndex.SearchPromises | jc/third_party_index.py:20-31 | the results are the hits of positive score, sorted highest score first, ties in index order |
| ThirdPartyIndex.BlankQueryIsEmpty | jc/third_party_index.py:21 | a blank query strips to the empty string |
| ThirdPartyIndex.BlankHits | jc/third_party_index.py:24-30 | the empty query occurs `len(content) + 1` times in every item, so every item is a hit with that score |
| ThirdPartyIndex.BlankQueryMatchesEverything | jc/third_party_index.py:20-30 | a blank query lists every item, scored by its content length plus one |
| ThirdPartyIndex.Search | jc/third_party_index.py:20-31 | the loop appending hits, then the sort, returns SearchSpec |
| ThirdPartyIndex.SearchSpec | jc/third_party_index.py:20-31 | the sorted hits; ThirdPartyIndex.SearchPromises, ThirdPartyIndex.SearchOrdered and ThirdPartyIndex.SearchStable state their content and order |
| ThirdPartyIndex.Score | jc/third_party_index.py:24 | the count of the query in the lower-cased content; ThirdPartyIndex.HitsAreScoredItems states that the hits carry it |
| ThirdPartyIndex.NormalizeQuery | jc/third_party_index.py:21 | the query lower-cased and stripped; ThirdPartyIndex.BlankQueryIsEmpty states that a blank one is empty |
| WorkspaceIndexer.FileSuffix | jc/workspace_indexer.py:31 | the suffix is empty or a dot with at least one character after it, ending the name and shorter than it |
| WorkspaceIndexer.GuessLanguage | jc/workspace_indexer.py:30-39 | the guess is never empty |
| WorkspaceIndexer.GuessLanguageRules | jc/workspace_indexer.py:30-39 | a known extension in any ASCII case decides regardless of content; otherwise "import " with " from " gives TypeScript/JavaScript, then "def " with "import " gives Python, and anything else "text" |
| WorkspaceIndexer.Record | jc/workspace_indexer.py:62-66 | the stored snippet is a prefix of the file's text of at most 800 characters |
| WorkspaceIndexer.Walk | jc/workspace_indexer.py:54-69 | every collected record has a snippet of at most 800 characters |
| WorkspaceIndexer.WalkOne | jc/workspace_indexer.py:56-69 | one entry contributes records whose snippets have at most 800 characters |
| WorkspaceIndexer.WalkAppend | jc/workspace_indexer.py:55-66 | walking two runs of sibling entries collects the first run's files and then the second's |
| WorkspaceIndexer.SkippedDirectoryIgnored | jc/workspace_indexer.py:57-59 | a `.git` or `node_modules` directory contributes nothing, whatever it holds and wherever it sits |
| WorkspaceIndexer.TallyCounts | jc/workspace_indexer.py:77-80 | every language of the files is a key, listed once, counted exactly, and a language without files has no key |
| WorkspaceIndexer.Pairs | jc/workspace_indexer.py:82 | the items, in insertion order, each with its count |
| WorkspaceIndexer.TopCountsExact | jc/workspace_indexer.py:82 | each listed count is the number of files with that language, and positive |
| WorkspaceIndexer.TopIsMostFrequent | jc/workspace_indexer.py:82 | a language with files that is left out is not more frequent than any listed one |
| WorkspaceIndexer.TopLanguagesPromises | jc/workspace_indexer.py:76-82 | at most ten languages, counts never increasing, each count exact, and none left out more frequent than one listed |
| WorkspaceIndexer.CountLanguages | jc/workspace_indexer.py:77-80 | the loop over the files builds the language dictionary in insertion order |
| WorkspaceIndexer.IndexPromises | jc/workspace_indexer.py:50-90 | a missing workspace is empty; otherwise every collected file is counted, only the first 200 are listed in walk order, and every snippet has at most 800 characters |
| WorkspaceIndexer.IndexWorkspace | jc/workspace_indexer.py:50-90 | the counting loop and the cut return IndexSpec |
| WorkspaceIndexer.IndexSpec | jc/workspace_indexer.py:50-90 | the workspace metadata; WorkspaceIndexer.IndexPromises states what it counts and lists |
| WorkspaceIndexer.TopLanguages | jc/workspace_indexer.py:81 | the ten most frequent languages; WorkspaceIndexer.TopLanguagesPromises and WorkspaceIndexer.TopIsMostFrequent state the bound, order and exact counts |
| WorkspaceIndexer.TallyOf | jc/workspace_indexer.py:76-80 | the language counts; WorkspaceIndexer.TallyCounts states that each is exact and listed once |
| LlmProvider.InitFollowsKeyInfo | jc/llm_provider.py:31-44 | without explicit arguments an instance uses the key `get_llm_key_info` found for the effective provider, takes the provider that key belongs to when it names one, and that provider's model |
| LlmProvider.PrepareMessages | jc/llm_provider.py:80-84 | with a personality the messages are copied behind one system message "You are <personality>."; without one they are copied unchanged |
| LlmProvider.PromptLines | jc/llm_provider.py:195-197 | never more lines than messages |
| LlmProvider.PromptLinesAppend | jc/llm_provider.py:195-197 | the lines of two runs of messages are the lines of each, in order |
| LlmProvider.PromptLinesAll | jc/llm_provider.py:196 | one line per message exactly when every message has content |
| LlmProvider.PromptLinesNone | jc/llm_provider.py:196 | no line at all exactly when no message has content |
| LlmProvider.PromptLinesExactly | jc/llm_provider.py:193-197 | both of the above: only messages with content give a line |
| LlmProvider.PersonaLine | jc/llm_provider.py:193-197 | the persona message becomes the line "System: You are <personality>." |
| LlmProvider.PersonaLeadsPrompt | jc/llm_provider.py:80-197 | with a personality the HuggingFace prompt opens with the persona line, followed by a newline and the prompt of the caller's messages when they give any line |
| LlmProvider.FromDictFirstUsable | jc/llm_provider.py:211-217 | the dict loop returns from the first field holding a non-empty string or list, and raises ValueError when there is none |
| LlmProvider.DictPayloadFieldOrder | jc/llm_provider.py:210-219 | for a dict payload the fields are tried in the order generated_text, text, output, result; the first usable one gives a string whole or a list's first element |
| LlmProvider.ListPayloadUsesFirst | jc/llm_provider.py:201-209 | a list payload is decided by its first element alone |
| LlmProvider.ListDictAgreesWithDict | jc/llm_provider.py:203-217 | a dict inside a list is read like a dict payload as long as every truthy field is a string or a list |
| LlmProvider.OtherPayloadsHaveNoText | jc/llm_provider.py:200-219 | anything but a non-empty list or a dict raises ValueError |
| LlmProvider.Tokens | jc/llm_provider.py:182 | the token estimate is at least 1 |
| LlmProvider.TokensCountWords | jc/llm_provider.py:182 | a blank response counts as one token, any other as its number of words |
| LlmProvider.RecordUsage | jc/llm_provider.py:179-191 | without a key id nothing changes; otherwise exactly one usage line with the key id, provider, operation, token estimate and a zero cost is appended, and the key's `last_used_at` is touched |
| LlmProvider.ApologyShape | jc/llm_provider.py:78 | the apology is one sentence of 49 characters ending in a full stop |
| LlmProvider.RouteOf | jc/llm_provider.py:53-71 | "openai" goes to OpenAI and "huggingface" to HuggingFace, each in both directions; every other provider goes to OpenRouter |
| LlmProvider.Call | jc/llm_provider.py:47-78 | the call as intended (the breaker blocks working): a missing key, or a backend that raises, gives the apology |
| LlmProvider.CallUsesOnlyItsRoute | jc/llm_provider.py:53-71 | `call` consults only the backend its provider routes to |
| LlmProvider.CallAsWritten | jc/llm_provider.py:47-89 | `call` as written: no key or any route other than openai gives the apology, because the openrouter and huggingface requests fail on entering the breaker; the openai route is the intended call (stated by LlmProvider.AsWrittenOnlyOpenAIAnswers) |
| LlmProvider.AsWrittenOnlyOpenAIAnswers | jc/llm_provider.py:47-78 | as written, a call with a key to any provider other than openai answers with the apology whatever its backend replies, and an openai call behaves as intended |
| LlmProvider.AsWrittenLosesOpenRouterReply | jc/llm_provider.py:86-89 | an openrouter instance with a key whose backend replies gets that reply from the intended call but the apology from the call as written |
| LlmProvider.CallGuardsReply | jc/llm_provider.py:73-75 | a reply that gets through is passed through the configured guardrails, and a manager without guardrails changes nothing |
| LlmProvider.NoKeyAlwaysApologizes | jc/llm_provider.py:37-78 | an instance built without explicit key when no key is found anywhere answers every call with the apology |
| LlmProvider.ExtractHuggingfaceText | jc/llm_provider.py:200-226 | the text of a HuggingFace payload; LlmProvider.DictPayloadFieldOrder, LlmProvider.ListPayloadUsesFirst and LlmProvider.OtherPayloadsHaveNoText state each payload shape |
| LlmProvider.BuildHuggingfacePrompt | jc/llm_provider.py:194-199 | the HuggingFace prompt of the messages; LlmProvider.PersonaLeadsPrompt states its opening |
| LlmProvider.Init | jc/llm_provider.py:31-45 | the instance the constructor builds; LlmProvider.InitFollowsKeyInfo states the provider, key and model it takes |
| AskQuestions.BuildAskQuestionsPrompt | jc/ask_questions.py:16-52 | the method appending a part per non-empty text to the header, extending the instruction tail and joining with blank lines builds exactly the specified prompt |
| AskQuestions.ReadmeSnippetBounds | jc/ask_questions.py:17-18 | the README snippet is at most 1200 characters taken from the start of the stripped README, and is empty exactly when the README is absent or blank |
| AskQuestions.SectionsPresent | jc/ask_questions.py:19-39 | the file section appears exactly when there are files, the language section exactly when there are entries (or names other than one empty string), the commit section exactly when there are commits other than one empty string |
| AskQuestions.PromptShape | jc/ask_questions.py:28-50 | the prompt has the two header parts first and the three instruction parts last, 5 to 9 parts in all, and only header and tail when no section is present |
| AskQuestions.PromptDependsOnTexts | jc/ask_questions.py:16-52 | two metadata records with the same id line, README snippet, file, language and commit texts give the same prompt |
| AskQuestions.CutKeepsTexts | jc/ask_questions.py:19-26 | cutting the metadata to its first 10 files, 10 languages and 6 commits (the README left as it is) leaves the id line, the README snippet and every rendered list unchanged |
| AskQuestions.PromptIgnoresExtras | jc/ask_questions.py:19-26 | the prompt ignores files past the tenth, languages past the tenth and commits past the sixth |
| AskQuestions.ParseQuestionsFromText | jc/ask_questions.py:55-71 | the method (empty check, numbered loop, fallback loop, cut at 10) returns exactly the specified parse |
| AskQuestions.CollectNumbered | jc/ask_questions.py:59-63 | the loop appends the stripped question of every line matching digits, '.' or ')' and a non-empty rest, in order |
| AskQuestions.CollectShort | jc/ask_questions.py:64-70 | the fallback loop collects the lines shorter than 240 characters in order and stops at 8 |
| AskQuestions.ParsePromises | jc/ask_questions.py:55-71 | empty text gives no questions; otherwise at most 10, each non-empty, one line, with no whitespace at its ends; without numbered lines at most 8, each a kept line shorter than 240 characters |
| AskQuestions.BlankTextHasNoQuestions | jc/ask_questions.py:55-71 | a reply made only of whitespace gives no questions |
| AskQuestions.CleanLinesEmptyIffBlank | jc/ask_questions.py:58 | the stripped non-blank lines of a text are empty exactly when the text is blank |
| AskQuestions.ParseNoLonger | jc/ask_questions.py:55-71 | no question is longer than the reply it was read from |
| AskQuestions.ShortReplyHasQuestions | jc/ask_questions.py:64-70 | a non-blank reply shorter than 240 characters always yields at least one question |
| AskQuestions.PiecesOfJoin | jc/ask_questions.py:58 | splitting lines that were joined with newlines gives those lines back |
| AskQuestions.EnumeratedNumbered | jc/ask_questions.py:60-63 | lines numbered "1. ", "2. ", ... are clean and the numbered loop reads back exactly the questions |
| AskQuestions.NumberedReplyRoundTrip | jc/ask_questions.py:55-71 | a reply numbering clean one-line questions as the prompt asks parses back to those questions, cut at 10 |
| AskQuestions.GenerateAsWritten | jc/ask_questions.py:85-106 | the function as written never returns an empty list |
| AskQuestions.AsWrittenParsesReply | jc/ask_questions.py:95-106 | once the provider is built, the function as written returns the parsed reply when it has questions and the mock list otherwise |
| AskQuestions.AsWrittenReturnsApology | jc/ask_questions.py:85-106 | with no key or a failing backend the call answers with the apology and the function as written returns a non-empty list that is not the mock list |
| AskQuestions.ShortReplyAsWritten | jc/ask_questions.py:95-101 | a short non-blank reply makes the function as written return its parsed questions, never the mock list |
| AskQuestions.ShortReplyIsNotMock | jc/ask_questions.py:55-82 | a non-blank text shorter than the first mock question parses to a non-empty list that is not the mock list |
| AskQuestions.ApologyIsShortText | jc/llm_provider.py:76-78 | the apology the call returns on failure is not blank and is shorter than the first mock question |
| AskQuestions.CallOutcome | jc/ask_questions.py:96-98 | a successful call outcome is the reply the call returns |
| AskQuestions.Generate | jc/ask_questions.py:85-91 | the function as documented never returns an empty list |
| AskQuestions.GenerateFallsBackToMock | jc/ask_questions.py:85-106 | the documented function returns the mock list when the provider cannot be built or the call fails, and otherwise agrees with the function as written: the parsed reply, or the mock list when it has no questions |
| AskQuestions.GenerateShape | jc/ask_questions.py:85-106 | the documented function returns the mock list or at most 10 clean one-line questions |
| AskQuestions.MockQuestions | jc/ask_questions.py:74-82 | the six fixed fallback questions; AskQuestions.GenerateFallsBackToMock states when they are returned |
| AskQuestions.BuildPrompt | jc/ask_questions.py:16-52 | the clarifying-questions prompt; AskQuestions.BuildAskQuestionsPrompt computes it, AskQuestions.PromptDependsOnTexts and AskQuestions.PromptIgnoresExtras state what it depends on |
| AskQuestions.Parse | jc/ask_questions.py:55-71 | questions parsed from a reply; AskQuestions.ParsePromises states their bounds and shape, AskQuestions.ParseQuestionsFromText that the method computes it |
| Auth.CreateAccessTokenClaims | jc/auth.py:47-65 | the token is signed with the secret key under HS256 and carries every payload claim plus "exp", which is the given delta after now, or 60 minutes when the delta is absent or zero |
| Auth.Decode | jc/auth.py:80-81 | a decoded token was signed with the secret key under HS256 and its claims are returned unchanged; its "exp", if any, is numeric and not past, and its "sub" and "jti", if any, are strings (the JWT library's claim checks) |
| Auth.DecodeAccepts | jc/auth.py:80-81 | conversely every token signed with the key under HS256 whose "exp", "sub" and "jti" pass those checks decodes to its claims |
| Auth.TokenRoundTrip | jc/auth.py:47-96 | a created token for a payload with a string "sub" (and a string "jti" if any) verifies, up to its expiry, to that subject and the payload's scopes (none when absent) |
| Auth.TokenRefusedAfterExpiry | jc/auth.py:68-96 | after its expiry, or under another key, a created token is refused with 401 "Could not validate credentials" |
| Auth.VerifyTokenOutcome | jc/auth.py:68-96 | verification answers the credentials 401 exactly when the token does not decode (a null or other non-string "sub" included) or has no "sub", and otherwise returns the subject it carries |
| Auth.AuthDisabledIsAnonymous | jc/auth.py:114-116 | with no API key configured every request is the user "anonymous" with scope "public", for both the optional and the required variant |
| Auth.ApiKeyBeforeBearer | jc/auth.py:118-120 | a matching X-API-Key header gives "api_key_user" with scope "admin" whatever bearer token comes with it |
| Auth.BearerDecides | jc/auth.py:122-125 | otherwise a bearer token gives its subject and scopes when it verifies and its failure when it does not |
| Auth.NoUserExactly | jc/auth.py:99-157 | there is no user exactly when an API key is configured, the header does not match and no bearer token was sent; the required variant then answers 401 "Not authenticated..." and otherwise agrees with the optional one |
| Auth.CurrentUser | jc/auth.py:130-157 | the required user: the optional variant with no user answered by 401 "Not authenticated"; stated by Auth.NoUserExactly and Auth.AuthDisabledIsAnonymous |
| Auth.CurrentUserOptional | jc/auth.py:99-127 | the optional user, decided in the order auth disabled, API key header, bearer token, none; stated by Auth.AuthDisabledIsAnonymous, Auth.ApiKeyBeforeBearer, Auth.BearerDecides and Auth.NoUserExactly |
| Auth.VerifyToken | jc/auth.py:68-96 | bearer-token verification; Auth.VerifyTokenOutcome states when it is a 401 and what subject it returns, Auth.TokenRefusedAfterExpiry that an expired or foreign token is refused |
| Auth.CreateAccessToken | jc/auth.py:47-65 | the token `create_access_token` makes; Auth.CreateAccessTokenClaims states its claims, key, algorithm and expiry, and Auth.TokenRoundTrip that it verifies to its subject and scopes |

## Left out

- Encryption: Fernet, PBKDF2, base64 and random salts (jc/key_locker.py:95-121) are foreign code. The sealed secrets file is an abstract value that opens only with the passphrase it was sealed under.
- The keyring library is a map plus an availability flag; its own failures other than a missing entry are not modelled.
- Locks and concurrency (`_METADATA_LOCK`, `_USAGE_LOCK`): every operation runs alone.
- File I/O, JSON encoding, file permissions and path resolution: files are maps and sequences of records in memory, and a line of usage.log is modelled by what `summary` makes of it.
- The clock and uuid4 are parameters. Times are whole seconds, and ISO timestamps are compared as numbers.
- Floating point: budgets, costs and retry delays are exact reals, so rounding error is not modelled. The summary's `round(..., 6)` of the cost sum is not modelled either: the summary carries the unrounded sum. Breaker timeouts and times are whole seconds.
- UsageLogger.SummarySpec: the cost total is the exact sum, not rounded to 6 decimals as `summary` does (jc/usage_logger.py:83-89), because rounding a real has no exact counterpart here.
- `retry_with_backoff_async` is async-only (jc/error_handling.py) and is not modelled.
- The `with llm_circuit_breaker:` blocks (jc/llm_provider.py:88, 156) fail on entry, because `CircuitBreaker` defines no context-manager methods. Their effect is recorded under "## Findings" (`CallAsWritten`). Everywhere else the model uses the intended `Call`, in which the breaker is not modelled: the backend outcome is a parameter, and `None` stands for any failure.
- The HTTP bodies of the three backends of jc/llm_provider.py are not modelled; `call` is given, per route, the reply or `None`.
- `get_llm_api_key` (a projection of `get_llm_key_info`) and `load_env` (file I/O) in jc/secrets.py are not modelled.
- JWT signing and the JWT library's checks of the `iat`, `nbf`, `aud`, `iss` and `at_hash` claims are not modelled (its `exp`, `sub` and `jti` checks are, in Auth.Decode): a token is the claims, key and algorithm it was signed with. Password hashing (jc/auth.py:160-182) is foreign code and is left out.
- Flow.RunFrom: `JCFlow.run` can loop forever on a cyclic flow, so a run is given `fuel`, a bound on the number of steps it starts. Runs that need more steps than the fuel are cut off.
- Flow.Turn: after a handler returns, `JCFlow.run` records the step's duration in `step_history[-1]` (jc/__init__.py:112-113). A handler that returns a state with an empty history turns that into an IndexError that escapes the run. Durations are not modelled and neither is that IndexError: the model goes on with the run.
- Flow.RunFlowByName: `run_flow` writes the generated thread id into the caller's `initial_state` dictionary before it looks up the flow (jc/__init__.py:217-222). The caller's dictionary therefore changes even when the flow is unknown and a ValueError follows. The model works on values and does not model that change to the caller's dictionary.
- ErrorHandling.Catches: Python's `except` also catches subclasses of a listed class. The model has no class hierarchy and compares class names, so a `Catch` lists every class it catches, subclasses included.
- UsageLogger.SummarySpec: the fields of a usage record are typed (a whole-number `tokens`, a real cost, a time in seconds). A record with a truthy non-numeric `tokens` or `estimated_cost_usd`, or a timezone-aware `at`, makes `summary` raise TypeError (jc/usage_logger.py:72-78); the model has no such record.
- Paths are strings split on "/" (ExternalStorage.Name, ExternalStorage.Parent, ThirdPartyIndex.HitPath). pathlib's normalisation of "a//b", "a/./b" and a trailing "/", and the Windows separator "\\", are not modelled.
- Logging is not modelled: the `logger.warning`, `logger.info` and `logger.error` calls of jc/error_handling.py (lines 63, 109, 163, 182, 193 and 222-223) and the `log_exceptions` flag of `handle_errors` have no effect on any result.
- AskQuestions.BuildPrompt: a `top_languages` dict without a "lang" or a "count" key renders as "None(...)" or "...(None)" (jc/ask_questions.py:23). The model's `LangCount` always has both fields.
- Guardrails.GuardrailsManager.AddGuardrail: `guardrails or []` keeps the caller's non-empty list, so `add_guardrail` also appends to the caller's list (jc/guardrails.py:22-26). The manager's `guardrails` field is a value, so this aliasing is not modelled.
- `discover_drives`, the directory walk of `index_drive`, `_save_index` and the drive summary of jc/external_storage.py are OS and file-system code. `Path.parts` is taken as an input.
- The workspace walk of jc/workspace_indexer.py is a recursive function over a tree value rather than nested appends to a shared list; the order of the files is the same.
- `_prepare_messages` is modelled as a function that returns the new list; the copying of each dict is not observable in the model.
- A message whose role is present but `None` is not modelled; an absent role reads as "user".
- `\d`, `isdigit` and lower-casing cover ASCII only; whitespace is the set for which `str.isspace()` holds.
- `str.splitlines()` is modelled as splitting at each line-break character, so `\r\n` gives an extra empty piece, which every caller drops.
- A `top_languages` list mixing dicts and plain values is not modelled: the list is either all counted entries or all names.
- jc/settings_gui.py is not part of this model.

## Findings

| source | as written | input that shows it | evidently intended | confidence | as-written member | corrected member |
|---|---|---|---|---|---|---|
| jc/ask_questions.py:85-106 with jc/llm_provider.py:76-78 | `call` catches every error and returns the apology string, which `parse_questions_from_text` reads as a one-question list, so that list is returned | no LLM key configured, or a backend that raises | the fixed mock list when there is no key or the call fails, as the docstring and comments say | not executed | AskQuestions.AsWrittenReturnsApology | AskQuestions.GenerateFallsBackToMock |
| jc/llm_provider.py:86-89 and 154-157 with jc/error_handling.py:125-195 | `_call_openrouter` and `_call_huggingface` enter `with llm_circuit_breaker:`, but `CircuitBreaker` has no `__enter__`/`__exit__`; the TypeError is not a request exception, so the retry decorator lets it through and `call` returns the apology | a provider of "openrouter" (the default) or "huggingface" with a key and a reachable backend | the request is sent and its reply returned, guarded by the breaker | not executed | LlmProvider.AsWrittenLosesOpenRouterReply | LlmProvider.CallGuardsReply |
