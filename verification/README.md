# Verified models of the observability stack's stateful cores

The repository is an observability platform: a `gatekeeper` that authenticates and
rate-limits telemetry, a `watchdog` API that reads logs and proxies a resolver, a `ui`, and
an installer. This project models the parts of it that keep state across calls, threads,
coroutines or files, and proves what they promise for every input, every run and every
interleaving. `dafny verify dfyconfig.toml` checks all of it.

Concurrent code is a machine: a step is what one coroutine does between two awaits, or one
thread inside one critical section; a run is any sequence of enabled steps of any number of
callers. Beside each machine stands a class whose methods are the original's methods, or the
stretches of them between two suspension points, and whose postconditions equate the object
with the machine's next state. `read_through.dfy` also runs whole coroutines, with other
callers' steps wherever the original awaits.

| file | what it models |
|---|---|
| `single_flight.dfy`, `flight_safety.dfy`, `flight_progress.dfy` | the cached single-flight reads of `LokiService` and `ResolverProxyService` as one machine; what holds in every run; what can still move |
| `loki_volume.dfy`, `resolver_reads.dfy` | how the two services differ once a flight fails |
| `read_through.dfy` | the coroutines of both services as methods over the shared fields, stretch by stretch and as a whole |
| `token_rate_limiter.dfy`, `redis_token_rate_limiter.dfy`, `hybrid_token_rate_limiter.dfy` | the three rate limiters |
| `token_cache.dfy`, `gateway_service.dfy` | the token cache, and token validation by any number of threads against an authority that may change its answers |
| `env_text.dfy`, `env_file.dfy`, `env_script.dfy`, `env_rerun.dfy`, `env_reads.dfy` | text files as Python splits them; the `.env` editor; what a script of edits does when it is run again, and what it leaves to be read |
| `env_settings.dfy`, `prepare_env.dfy`, `prepared_values.dfy`, `env_editor.dfy` | the installer's script of 63 keys, its theorems, the value of every key, and the methods that rewrite the file |
| `logql.dfy`, `query_range.dfy` | the LogQL builder with a parser for it; time ranges and the log-volume cache key |
| `concurrency_limit.dfy`, `request_size_limit.dfy` | the two ASGI limiters |
| `rca_jobs.dfy`, `rca_report.dfy`, `alert_manager_data.dfy`, `persistent_order.dfy` | the job merge, the latest-request-wins protocols and the stored order of the UI hooks |
| `slug_token.dfy` | slugs for OpenTelemetry names |
| `options.dfy`, `text.dfy` | `Option`; `strip` and `lower` |

## Where the code does not do what one would expect

Each of these is a theorem below. Names that end in "Iff" and those marked "exactly" give the
condition in both directions.

- The resolver parks a key for good exactly if the owner of its flight stops before
  finalisation: in signing, in transport, with a status >= 400, or in auditing the completed
  request. Later reads join the dead future (`ParkedExactlyByEarlyExit`, `ParkedForever`).
  Joiners wait forever exactly if the owner left the future unsettled
  (`StrandedExactlyByUnsettledExit`).
- Everybody who took part in a flight ends with the same outcome exactly if the flight's owner
  did not fail to log a transport failure. If it did, the joiners get the transport's error and
  the owner raises the database's (`SameOutcomeForAll`, `OutcomesCanDiffer`). Loki logs nothing
  there (`SameOutcomeInLoki`).
- A coroutine that is cancelled while it waits for the lock in Loki's `finally` leaves its
  key registered (`CancelledReleaseKeepsKey`).
- Evicting a live window forgives its key: for every table, key and limit the run can go on to
  admit a call that the limit refuses (`EvictingLiveForgives`).
- A Redis command that lands 61 s or more after the start of its minute finds the counter
  expired; up to there the minute's bound holds, from there on it can fail
  (`InTimeIff`, `LateCommandIsAdmitted`).
- A second run of `prepare_env` changes the file exactly if an argument does not stay on its
  line (`PreparingAgainChangesNothingIff`); reading back a value fails exactly if it has a
  line boundary in the sense of `str.splitlines`, of which there are more than `\n`
  (`ReadAfterUpsert`).
- Label names are not escaped. The parser gets a query right exactly if no name contains an
  equals sign followed by a quote or an operator of its own, and the first does not begin with a
  closing brace (`FilterQueryReadsBackIff`); one label passes for several of different names exactly
  if its name reads as a label, a comma and another name (`PassesForSeveralIff`).
- Two tenants can share a log-volume cache key exactly if one's name is the other's followed by
  a colon and by nothing or something that does not begin with white space
  (`TenantsShareKeysIff`).
- A label-value range is empty or reversed exactly if the configured cap is not positive and
  the request's start lies before its end (`ValuesRangeShape`).
- The RCA page's spinner stays on exactly if the selection was cleared or the job failed
  while its newest report was loading, and nothing has been loaded since (`SpinnerStuckIff`).
  Insights are written to a report they were not fetched for exactly if their fetch was begun
  while a newer load was pending that has since been accepted (`InsightsMatchIff`,
  `InsightsCanMix`).
- The alert page's spinner stays on exactly if a cleanup hit the last load while it was pending
  (`AlertManagerData.SpinnerStaysIff`).
- With the `asyncio.wait_for` of Python 3.12 and later the concurrency limiter loses a permit
  exactly if a deadline fires in the turn between the end of the acquire task and the
  middleware's own next step (`LostExactlyByLateTimeOut`); up to 3.11 it never does
  (`NothingLostInEleven`). Any number of permits can go that way, and once all have, everybody
  is answered 503 for good (`CanLoseAll`, `AllLostIsForever`).
- `sanitize` keeps fractions in range, so it returns a permutation exactly if there are none
  (`PermutationIff`).
- A slug is not a fixpoint exactly if the default stood in for it and is itself neither
  without alphanumeric characters nor in normal form (`IdempotentIff`).

## Model

| member | source | states |
|---|---|---|
| SingleFlight.StepKeepsInv | watchdog/services/loki_service.py:218-249 | every step of either service, cancellation included, keeps: an owner's flight is registered, under its own key, while it runs; registrations, futures and cache entries belong to their keys |
| SingleFlight.RunKeepsInv | watchdog/services/resolver_proxy_service.py:161-187 | the same in every reachable state of every interleaving |
| FlightSafety.OneOwnerPerKey | watchdog/services/loki_service.py:225-233 | a running owner's own future is the registered one, and no two callers run a flight for one key |
| FlightSafety.ReleaseRemovesOwnFlight | watchdog/services/loki_service.py:247-249 | the final pop removes the releasing caller's own flight and no other registration |
| FlightSafety.ReturnedWasBuilt | watchdog/services/loki_service.py:218-242 | every value returned was built, by an owner of the caller's key, in a flight the caller ran or joined, or read from an entry of that flight not older than its ttl |
| FlightSafety.DoneForever | watchdog/services/loki_service.py:235-249 | a finished caller's outcome never changes |
| FlightSafety.SameOutcomeForAll | watchdog/services/resolver_proxy_service.py:212-262 | without cancellation two callers that took part in a flight end with the same value or the same exception, exactly unless one of them is its owner and could not log a transport failure |
| FlightSafety.SameOutcomeInLoki | watchdog/services/loki_service.py:238-249 | without cancellation everybody who took part in a Loki flight ends alike |
| FlightSafety.OutcomesCanDiffer | watchdog/services/resolver_proxy_service.py:233-242 | in every resolver run with a joiner of a flight under way, a transport failure that cannot be logged gives the joiner the transport's error and the owner the database's |
| FlightProgress.AdvanceIff | watchdog/services/loki_service.py:225-249 | some step can be taken exactly while some unfinished caller is not a joiner whose flight's owner left it unsettled |
| FlightProgress.BoundedWork | watchdog/services/loki_service.py:218-249 | n callers finish within 8n steps, however they interleave |
| FlightProgress.AnythingCanFail | watchdog/services/resolver_proxy_service.py:189-262 | in every reachable state time can pass, callers can come, and each of the ways to fail is open to every caller that is where the code can fail |
| LokiVolume.NobodyStranded | watchdog/services/loki_service.py:238-249 | without cancellation no joiner is unresolved once the owner has finished, in all runs, failures included |
| LokiVolume.EveryoneIsAnswered | watchdog/services/loki_service.py:218-249 | without cancellation a run that cannot go on has answered every caller |
| LokiVolume.RegisteredIffRunning | watchdog/services/loki_service.py:225-249 | without cancellation a key is registered exactly while a caller runs its flight |
| LokiVolume.FailureFreesKey | watchdog/services/loki_service.py:243-249 | after a failed build the next miss of the key starts a build of its own, unless another caller already runs one, and never joins the failed one |
| LokiVolume.CancelledReleaseKeepsKey | watchdog/services/loki_service.py:247-249 | cancelled while it waits for the lock in the finally block, an owner leaves its key registered with nobody running it |
| ResolverReads.RegisteredAtRest | watchdog/services/resolver_proxy_service.py:354-368 | in every run, a key nobody runs a flight for is registered exactly if an owner of it left without deregistering |
| ResolverReads.ParkedExactlyByEarlyExit | watchdog/services/resolver_proxy_service.py:319-368 | at rest and without cancellation, the keys still registered are exactly those whose owner failed in signing, in transport, with status >= 400, or in auditing the completed request |
| ResolverReads.ParkedForever | watchdog/services/resolver_proxy_service.py:179-187 | such a key stays registered in every continuation, nobody runs a flight for it again, and every later miss joins the dead future |
| ResolverReads.StrandedExactlyByUnsettledExit | watchdog/services/resolver_proxy_service.py:151-159 | a joiner waits forever exactly if its flight's owner is gone after a signing failure, a failed audit of the completed request or a failed cache write; a failed audit of a transport failure strands nobody |
| ResolverReads.FinalisedIsDeregistered | watchdog/services/resolver_proxy_service.py:189-210 | a flight that reached finalisation is never registered afterwards, whatever came of it |
| ReadThrough.Service.JoinOrRegister | watchdog/services/loki_service.py:226-233 | a caller becomes an owner exactly if its key was not registered; its future is then a new one, nobody else runs a flight for the key, and no other key is touched |
| ReadThrough.Service.FillCache | watchdog/services/loki_service.py:240-240 | every reader of the key hits the stored value exactly until the ttl is over, unless it is null; other keys read as before |
| ReadThrough.Service.Deregister | watchdog/services/resolver_proxy_service.py:365-368 | the pop takes out the caller's own flight and no other registration, and afterwards nobody runs a flight for the key |
| ReadThrough.Service.GetOrBuildVolume | watchdog/services/loki_service.py:218-249 | the whole coroutine, whatever others do at its awaits: a live entry is returned unasked; undisturbed, a miss asks exactly if the key is not registered; having asked it returns, caches and hands to its joiners what the builder gave, or raises what the builder or the cache raised, or InvalidStateError if a joiner was cancelled meanwhile, and leaves the key free |
| ReadThrough.Service.ReadOrRequest | watchdog/services/resolver_proxy_service.py:280-368 | the whole coroutine for a cacheable GET, likewise: having asked it ends as it would have without a cache, or with what the failing cache write raised; its joiners get the same, or wait; the key stays registered exactly if signing, transport, status or the audit failed |
| ReadThrough.Service.RequestJson | watchdog/services/resolver_proxy_service.py:280-368 | exactly GETs outside jobs and reports with a positive requested, or else configured, ttl are served so; everything else goes straight upstream and leaves cache, table, lock and futures alone |
| TokenWindows.HousekeepingIsUnobservable | gatekeeper/services/rate_limits/token_rate_limiter.py:28-47 | a key whose live windows are never evicted gets on every call the answer of a limiter with an unbounded table and no collector |
| TokenWindows.EvictingLiveForgives | gatekeeper/services/rate_limits/token_rate_limiter.py:36-41 | the condition is needed for every key, limit and table: a run that evicts a live window goes on to let a call of its key through that the reference refuses |
| TokenWindows.SlidingBound | gatekeeper/services/rate_limits/token_rate_limiter.py:40-47 | at most 2 * limit calls of a key get through in any half-open 60 s (less the clock skew between threads), over whole runs |
| TokenWindows.CallCounts | gatekeeper/services/rate_limits/token_rate_limiter.py:40-44 | a key's window goes on while it is less than 60 s old, whatever is collected or evicted; the call counts in it or opens a new one |
| TokenWindows.CallSpares | gatekeeper/services/rate_limits/token_rate_limiter.py:30-38 | a call leaves all other windows alone, but for those more than 120 s old on every 1024th call and for the victim of a table of 50,000 |
| TokenWindows.TableStaysBounded | gatekeeper/services/rate_limits/token_rate_limiter.py:36-38 | the table never holds more than 50,000 keys |
| TokenWindows.WindowOrigin | gatekeeper/services/rate_limits/token_rate_limiter.py:40-44 | a stored window counts exactly the attempts since the call that opened it, all within 60 s of it |
| TokenWindows.RefusedOnlyAfterLimit | gatekeeper/services/rate_limits/token_rate_limiter.py:46-47 | a call is refused only after at least limit earlier attempts of its key in one window with it, whatever collector, evictions and clock did |
| TokenWindows.OldestKey | gatekeeper/services/rate_limits/token_rate_limiter.py:37-37 | the key chosen for eviction starts no later than any other |
| TokenWindows.TokenRateLimiter.Enforce | gatekeeper/services/rate_limits/token_rate_limiter.py:28-47 | the object becomes the specification's next table and admits exactly up to the limit |
| MinuteCounters.CountersCover | gatekeeper/services/rate_limits/redis_token_rate_limiter.py:67-74 | until a command of a minute lands 61 s or more after its start, the minute's counter has not fallen below what was admitted and does not expire: 61 s outlive every command that is in time |
| MinuteCounters.AdmittedIff | gatekeeper/services/rate_limits/redis_token_rate_limiter.py:67-74 | if all commands of its minute land in time, a call is let through exactly if fewer than limit of them have reached the server before it, answered or not |
| MinuteCounters.MinuteBound | gatekeeper/services/rate_limits/redis_token_rate_limiter.py:67-74 | at most limit calls of a key get through in any aligned minute, under any pattern of faults, if the answered commands land in time; unanswered ones may land whenever they do |
| MinuteCounters.PromptBound | gatekeeper/services/rate_limits/redis_token_rate_limiter.py:67-74 | in particular if every answered command lands within a second of its clock reading |
| MinuteCounters.SlidingBound | gatekeeper/services/rate_limits/redis_token_rate_limiter.py:67-74 | under the same condition at most 2 * limit in any half-open 60 s |
| MinuteCounters.InTimeIff | gatekeeper/services/rate_limits/redis_token_rate_limiter.py:71-71 | an answered command that lands no earlier than its minute can be added to every timely run without breaking the minute's bound exactly if it lands less than 61 s after the minute's start |
| MinuteCounters.LateCommandIsAdmitted | gatekeeper/services/rate_limits/redis_token_rate_limiter.py:67-74 | for every key, minute, limit and later landing time, a used-up minute admits one call more |
| MinuteCounters.RedisTokenRateLimiter.Enforce | gatekeeper/services/rate_limits/redis_token_rate_limiter.py:67-74 | increments and expires the minute's counter as far as the pipeline got, and judges by the count |
| HybridLimiter.SplitByLimiter | gatekeeper/services/rate_limits/hybrid_token_rate_limiter.py:30-40 | what the hybrid admits is the sum of what each limiter admits of the calls that reach it |
| HybridLimiter.SlidingBound | gatekeeper/services/rate_limits/hybrid_token_rate_limiter.py:30-40 | at most 4 * limit in any such interval under any pattern of primary failures, if the primary's answered commands land in time |
| HybridLimiter.HybridTokenRateLimiter.Enforce | gatekeeper/services/rate_limits/hybrid_token_rate_limiter.py:30-40 | the fallback is consulted and changed exactly when the primary is unavailable; warnings are at least 30 s apart |
| TokenCache.GetAnswers | gatekeeper/services/token_cache/memory.py:31-63 | over every run a get finds the slot last stored under its key exactly if that is fresh and has been neither evicted nor dropped since: sweeps never show |
| TokenCache.StoreSpares | gatekeeper/services/token_cache/memory.py:46-63 | an older slot goes only if it has expired and this is a 512th store, or if it is the victim of a full cache |
| TokenCache.SweepIsUnobservable | gatekeeper/services/token_cache/memory.py:57-59 | a get of the swept map answers as one of the unswept map, at any clock reading from the sweep's on; what later stores evict may differ |
| TokenCache.SizeAfterStore | gatekeeper/services/token_cache/memory.py:46-63 | a store leaves the cache within the limit or no larger than before, except at a sweep, where it grows by at most one |
| TokenCache.NoGrowthAboveLimit | gatekeeper/services/token_cache/memory.py:52-55 | between sweeps the cache never grows while at or above the limit |
| TokenCache.SweepSkipsEviction | gatekeeper/services/token_cache/memory.py:52-55 | the slack is real: a sweep that finds nothing expired leaves the cache over the limit |
| TokenCache.OldestKey | gatekeeper/services/token_cache/memory.py:61-63 | the entry evicted is one of the oldest |
| TokenCache.Cache.Put | gatekeeper/services/token_cache/memory.py:46-55 | set stores the slot, sweeps on every 512th call and otherwise evicts the oldest above the limit |
| TokenCache.Cache.Drop | gatekeeper/services/token_cache/memory.py:41-42 | the second critical section of get removes whatever is stored by then |
| GatewayService.RunKeepsInv | gatekeeper/services/token_cache/memory.py:33-55 | in every interleaving of the two-phase get with set, every slot in the cache or in a thread's hands is an authority's answer for that token |
| GatewayService.BoundedStaleness | gatekeeper/services/gateway_service.py:172-226 | in every interleaving an answer is what the authority said for that very token, just now or stored less than ttl before the hit: the stripped name of a 200, or that there is none after a 404 or a 200 that names none |
| GatewayService.ErrorsAreTheAuthoritys | gatekeeper/services/gateway_service.py:182-205 | a validation fails only if the reply to its own request has another status or never came |
| GatewayService.SomebodyCanMove | gatekeeper/services/gateway_service.py:204-226 | at any moment a thread can enter, time can pass, and every thread that has not finished has a next step |
| GatewayService.ChangesTakeEffect | gatekeeper/services/gateway_service.py:207-227 | once the authority has changed its mind, hits judged ttl (plus the storing lag) later give the new answer |
| GatewayService.CacheSizeBound | gatekeeper/services/token_cache/memory.py:46-63 | after n stores at most max_size + n div 512 entries, in every interleaving |
| GatewayService.Resolve | gatekeeper/services/gateway_service.py:171-188 | exactly replies with status 200 or 404 yield an answer, everything else an error |
| GatewayService.GatewayAuthService.Get | gatekeeper/services/token_cache/memory.py:33-44 | without interruption get answers fresh entries only and removes exactly the expired one |
| GatewayService.GatewayAuthService.ValidateOtlpToken | gatekeeper/services/gateway_service.py:204-226 | an empty token and a fresh entry are answered without asking; otherwise the verdict is the stripped name of a 200, none for a 404 or a 200 without one, and an error for anything else; answers are stored and errors are not |
| EnvFile.UpsertReadsBack | install.py:270-292 | what upsert_env writes reads back as the old lines with every setting of the key replaced, or the setting appended to a file whose last line is ended |
| EnvFile.ReadAfterUpsert | install.py:295-302 | reading a key after writing it returns the value exactly if the value has no line boundary |
| EnvFile.OtherKeysUntouched | install.py:278-290 | writing one key leaves every other key's value alone |
| EnvFile.BlockIsOneLineIff | install.py:281-290 | a setting reads back as one line exactly if its value stays on its line |
| EnvScript.UpsertIdempotentIff | install.py:270-292 | writing a value twice gives the same bytes as writing it once exactly if it stays on its line |
| EnvRerun.RerunIff | install.py:356-468 | a script of edits with distinct keys leaves its own output alone, byte for byte and whatever is drawn, exactly if its constants stay on their lines; from any initial file |
| EnvRerun.SharedKeysAgree | install.py:407-436 | keys that one edit sets together hold the same value after the whole script, whatever earlier edits wrote, if no later one writes a line that sets one of them |
| EnvReads.EveryKeyReads | install.py:270-307 | after a script of one-line edits every key reads as its own edit decided from what its first key held before |
| EnvReads.OutsideReadsAsBefore | install.py:270-292 | a key that no edit writes reads as before |
| EnvRerun.ChoiceIsFixed | install.py:350-353 | normalize_choice leaves its own result alone and yields a one-line value |
| EnvRerun.FlagIsFixed | install.py:341-347 | normalize_bool leaves its own result alone and yields a one-line value |
| PrepareEnv.ScriptIsWellFormed | install.py:378-466 | the edits of prepare_env write pairwise distinct keys without an equals sign or a line boundary, and all they fall back on stays on its line |
| PrepareEnv.PreparingAgainChangesNothingIff | install.py:356-468 | for every initial file, a second prepare_env with the same arguments changes no byte, whatever it draws, exactly if the arguments stay on their lines (those embedded in URLs without a final carriage return) |
| PrepareEnv.SecretsArePaired | install.py:407-436 | service and expected tokens, signing and verify keys, and the four OTLP tokens are equal and nonempty afterwards, for all arguments, broken ones included, unless the API host or the password holds a line that sets one of these keys |
| PrepareEnv.UnbrokenSecretsArePaired | install.py:407-436 | in particular for all arguments that stay on their lines |
| PreparedValues.EverythingIsPlaced | install.py:378-466 | for any file and arguments that stay on their lines, every key reads afterwards as it ought to: mode, user, email, password, host and URLs in their places, the constants, and for the rest what was there before, or else the default or the draw |
| PreparedValues.OtherKeysReadAsBefore | install.py:356-468 | a key outside the script reads as before |
| EnvEditor.Editor.Put | install.py:270-292 | the loop with its done flag writes exactly the specified text |
| EnvEditor.Editor.Get | install.py:295-302 | the loop returns the first setting of the key |
| EnvEditor.Editor.SetIfMissing | install.py:305-307 | only a key without any setting is written |
| EnvEditor.Editor.Prepare | install.py:356-468 | the whole procedure turns any file into what the script specifies |
| LogQl.EscapeIsOnePass | watchdog/services/loki_service.py:139-140 | the four chained replacements equal one left-to-right pass |
| LogQl.SelectorReadsBack | watchdog/services/loki_service.py:142-145 | a parser of LogQL's operators recovers the labels of any selector, each compared for equality, whatever follows it |
| LogQl.PatternQueryReadsBack | watchdog/services/loki_service.py:551-553 | for any values the parser reads a search_logs_by_pattern query as: labels equal to their values, and lines that contain the pattern |
| LogQl.FilterQueryReadsBack | watchdog/services/loki_service.py:568-571 | likewise for filter_logs: lines that contain every filter, in order, for any filters |
| LogQl.BuilderIsInjective | watchdog/services/loki_service.py:551-571 | different labels or filters never give the same query, for names without an equals sign followed by a quote |
| LogQl.FilterQueryReadsBackIff | watchdog/services/loki_service.py:568-571 | the names the parser gets right are exactly those without an opening quote inside and without an operator of their own, such as a final exclamation mark, a first one not beginning with the closing brace |
| LogQl.FiltersAreCertain | watchdog/services/loki_service.py:568-571 | for any names at all, equal queries have equal filters and equal selectors |
| LogQl.PassesForSeveralIff | watchdog/services/loki_service.py:142-145 | a single label gives the selector of several labels of different names exactly if its name reads as a label, a comma and another name |
| LogQl.ImitatedIff | watchdog/services/loki_service.py:142-145 | some other dict of labels gives the same selector exactly if there are several labels, which one label can imitate, or one whose name splits so |
| QueryRange.NormalizeShape | watchdog/services/loki_service.py:159-168 | both ends are multiples of the step, at least one step apart; start moves down by less than a step, end too unless it is pushed to the end of the start's bucket |
| QueryRange.NormalizeAgainIff | watchdog/services/loki_service.py:159-168 | normalising again changes nothing exactly if neither end is zero, or what then stands in for it falls into the same bucket |
| QueryRange.SameRangeIff | watchdog/services/loki_service.py:159-168 | two requests share a range exactly if they fall into the same buckets |
| QueryRange.QueryIsStripped | watchdog/services/loki_service.py:512-512 | the query is run without its outer white space, and an empty one asks for every service |
| QueryRange.VolumeKeyInjective | watchdog/services/loki_service.py:510-513 | equal cache keys mean equal tenant, query, range and step, for any two tenants whose names do not clash and any queries as the service strips them |
| QueryRange.TenantsShareKeysIff | watchdog/services/loki_service.py:510-513 | for every range and step, two different tenants can share a key exactly if one's name is the other's followed by a colon and nothing, or something a stripped query can begin with |
| QueryRange.ValuesRangeShape | watchdog/services/loki_service.py:377-390 | a label-value range is at most max(1 h, cap) long, and start < end exactly if the cap is positive or the requested start was not before the end |
| ConcurrencyLimit.StepKeepsInv | watchdog/middleware/concurrency_limit.py:48-69 | arrival, wake-up, timeout, return and exception each conserve permits and keep the waiting queue, with the asyncio of Python 3.11 and of later versions |
| ConcurrencyLimit.PermitsConserved | watchdog/middleware/concurrency_limit.py:43-69 | in every reachable state free, held and lost permits add up to max_concurrent, at most that many requests are inside, whoever waits beside a free permit waits for a granted waiter to run on, and all permits come back that are not lost |
| ConcurrencyLimit.LostExactlyByLateTimeOut | watchdog/middleware/concurrency_limit.py:53-64 | a request's permit is lost exactly if its deadline fired after its acquire task had ended and before the middleware ran on: the 503 path cancels a finished task and releases nothing |
| ConcurrencyLimit.NothingLostInEleven | watchdog/middleware/concurrency_limit.py:53-64 | with Python 3.11's wait_for no permit is ever lost |
| ConcurrencyLimit.AllLostIsForever | watchdog/middleware/concurrency_limit.py:48-64 | once all permits are lost none is ever free again, and no request that has none gets one in any continuation |
| ConcurrencyLimit.CanLoseAll | watchdog/middleware/concurrency_limit.py:53-64 | for every max_concurrent some run of later Pythons loses all permits |
| ConcurrencyLimit.FirstComeFirstServed | watchdog/middleware/concurrency_limit.py:53-55 | while a request waits, no later one has got a permit |
| ConcurrencyLimit.WakesInOrder | watchdog/middleware/concurrency_limit.py:52-69 | a permit given back wakes the first in line; an acquire task that ends wakes one more in Python 3.11, and later as many as there are free permits |
| ConcurrencyLimit.EndsAs | watchdog/middleware/concurrency_limit.py:56-69 | a request inside ends as the application does, a timed-out one busy, its permit lost exactly if its acquire task had ended |
| ConcurrencyLimit.EntersInTwoSteps | watchdog/middleware/concurrency_limit.py:52-67 | a granted request's acquire task ends and then the request enters, whoever is woken beside it |
| ConcurrencyLimit.OtherScopesPass | watchdog/middleware/concurrency_limit.py:48-50 | other scopes go straight through at any load and touch neither permits nor queue |
| ConcurrencyLimit.BusyCountsRefusals | watchdog/middleware/concurrency_limit.py:25-28 | the busy counter equals the number of requests answered 503 |
| ConcurrencyLimit.Middleware.Begin | watchdog/middleware/concurrency_limit.py:48-53 | an HTTP request takes a permit if one is free and nobody is in the queue, granted waiters included, or else joins its end; other scopes pass |
| ConcurrencyLimit.Middleware.Proceed | watchdog/middleware/concurrency_limit.py:54-67 | a request whose acquire task has ended enters the application with its permit |
| ConcurrencyLimit.Middleware.EndAcquire | watchdog/middleware/concurrency_limit.py:52-53 | a granted waiter's acquire task ends, and passes on what permits are free |
| ConcurrencyLimit.Middleware.WakeNext | watchdog/middleware/concurrency_limit.py:68-69 | free permits go to the first in line, one by one |
| ConcurrencyLimit.Middleware.GiveUp | watchdog/middleware/concurrency_limit.py:56-64 | a timed-out request withdraws and is counted; a permit granted meanwhile goes to the next in line, one whose acquire task has ended goes nowhere |
| ConcurrencyLimit.Middleware.Finish | watchdog/middleware/concurrency_limit.py:66-69 | the permit comes back on return and on exception, and not for other scopes |
| RequestSizeLimit.ReceivesLongestPrefix | watchdog/middleware/request_size_limit.py:66-74 | for any messages and any application, even one that swallows the refusal and reads on, the body messages it gets are the longest prefix within max_bytes, and all other messages get through |
| RequestSizeLimit.NoLongerPrefixFits | watchdog/middleware/request_size_limit.py:70-73 | no longer prefix stays within max_bytes |
| RequestSizeLimit.SmallBodiesPass | watchdog/middleware/request_size_limit.py:66-74 | a body within the limit is never refused |
| RequestSizeLimit.NoSecondStart | watchdog/middleware/request_size_limit.py:76-89 | the middleware starts a response exactly if a refusal got through and the application had started none; otherwise the client sees what the application sent |
| RequestSizeLimit.RefusalIsJustified | watchdog/middleware/request_size_limit.py:42-58 | a 413 of its own means the declared length or the consumed body exceeded max_bytes |
| RequestSizeLimit.Limiter.LimitedReceive | watchdog/middleware/request_size_limit.py:66-74 | raises exactly for the messages it does not deliver, and counts them all |
| RequestSizeLimit.Limiter.TrackingSend | watchdog/middleware/request_size_limit.py:76-80 | every response is passed on and a start is remembered |
| RequestSizeLimit.Limiter.Precheck | watchdog/middleware/request_size_limit.py:42-58 | exactly a declared length over the limit is answered 413 without calling the application |
| RequestSizeLimit.Limiter.Conclude | watchdog/middleware/request_size_limit.py:82-89 | what the client has been sent in the end is the specified answer |
| RcaJobs.MergeIsFixpoint | ui/src/hooks/useRcaJobs.js:29-50 | merging the same server list with the merged list changes nothing, in spite of ties and of the cut to 30 |
| RcaJobs.MergedJobs | ui/src/hooks/useRcaJobs.js:29-50 | unique nonempty ids, newest first by the date of creation, start or end, at most 30; each job is the server's last copy of its id or, for ids the server lacks, the first active local one |
| RcaJobs.NothingNewerIsCut | ui/src/hooks/useRcaJobs.js:41-49 | a job is missing only if thirty others at least as new are shown |
| RcaJobs.TerminalIff | ui/src/hooks/useRcaJobs.js:13-22 | finished are completed, failed, cancelled and deleted, in any case |
| RcaJobs.NoLocalTerminalJob | ui/src/hooks/useRcaJobs.js:35-39 | a job the server does not list is never a finished one |
| RcaJobs.TiesKeepOrder | ui/src/hooks/useRcaJobs.js:41-48 | jobs of one time keep the order they were added in |
| RcaJobs.SetKeepsPlaces | ui/src/hooks/useRcaJobs.js:30-33 | an id listed again keeps its place in the map, and a new one comes last |
| RcaJobs.SelectSort | ui/src/hooks/useRcaJobs.js:41-48 | sorting commutes with leaving jobs out |
| RcaJobs.MergeJobs | ui/src/hooks/useRcaJobs.js:29-50 | the two loops over the map, the sort and the cut compute the specified merge |
| RcaReport.ShowsReference | ui/src/hooks/useRcaReport.js:299-389 | over all completion orders the page shows what loads and bumps would have shown one after the other; a load that settles after a newer one has begun changes nothing |
| RcaReport.NewestWins | ui/src/hooks/useRcaReport.js:358-387 | when the newest load has settled, its report or its error is shown and the spinner is off |
| RcaReport.SpinnerStuckIff | ui/src/hooks/useRcaReport.js:384-422 | at rest the report spinner is on exactly if a bump hit the newest load while it was pending and no load has begun since |
| RcaReport.SpinnerCanStick | ui/src/hooks/useRcaReport.js:404-410 | it happens: the selection is cleared while its report loads |
| RcaReport.InsightSpinnerEnds | ui/src/hooks/useRcaReport.js:230-261 | with nothing in flight the insight spinner is off |
| RcaReport.InsightSpinnerShowsFetchIff | ui/src/hooks/useRcaReport.js:230-261 | while the newest fetch of the newest load is under way the insight spinner is on, exactly unless its report has been replaced meanwhile |
| RcaReport.FetchWritesIff | ui/src/hooks/useRcaReport.js:234-261 | a fetch settles once, and adds its insights exactly if neither a load, a bump nor another fetch has begun since |
| RcaReport.InsightsMatchIff | ui/src/hooks/useRcaReport.js:234-260 | a fetch that passes both guards is of the report shown exactly unless it began while the load of its number was pending and that load has since been accepted |
| RcaReport.InsightsCanMix | ui/src/hooks/useRcaReport.js:230-260 | it happens: a fetch for the first report passes both guards once the second one is shown |
| RcaReport.InsightsBelongToReport | ui/src/hooks/useRcaReport.js:461-464 | if no fetch begins while a newer load is pending, all insights shown belong to the report shown |
| RcaReport.Hook.BeginLoad | ui/src/hooks/useRcaReport.js:299-316 | a load takes the next number and turns the spinner on, or resets the page if nothing is selected |
| RcaReport.Hook.BumpSequence | ui/src/hooks/useRcaReport.js:404-421 | a cleared selection or failed job takes the next number and clears the page, but not the spinner |
| RcaReport.Hook.FinishLoad | ui/src/hooks/useRcaReport.js:358-388 | only the newest load writes, and what it writes is the machine's step |
| RcaReport.Hook.BeginFetch | ui/src/hooks/useRcaReport.js:230-232 | a fetch takes the current load number and the next insight number |
| RcaReport.Hook.FinishFetching | ui/src/hooks/useRcaReport.js:234-261 | only a fetch with both current numbers writes |
| AlertManagerData.ShowsReference | ui/src/hooks/useAlertManagerData.js:24-95 | lists, error and spinner are those of the loads that were applied, one after the other |
| AlertManagerData.NoOlderWrites | ui/src/hooks/useAlertManagerData.js:47-47 | once load n has begun no load m < n writes |
| AlertManagerData.NewestWins | ui/src/hooks/useAlertManagerData.js:47-95 | when the newest load has settled without a cleanup hitting it, the page shows every list it got, no spinner, and an error exactly if an endpoint failed or the rules could not be shown |
| AlertManagerData.ErrorNamesFailures | ui/src/hooks/useAlertManagerData.js:49-88 | the error names every failed endpoint with its message, in a fixed order, unless the rules threw one of their own |
| AlertManagerData.SpinnerStaysIff | ui/src/hooks/useAlertManagerData.js:109-114 | with all loads settled the spinner is on exactly if a cleanup hit the last load while it was pending, or there has been none |
| AlertManagerData.Hook.BeginLoad | ui/src/hooks/useAlertManagerData.js:25-28 | a load takes the next number, turns the spinner on and clears the error |
| AlertManagerData.Hook.CleanUp | ui/src/hooks/useAlertManagerData.js:111-113 | a cleanup takes a number, so that whatever is in flight is dropped |
| AlertManagerData.Hook.FinishLoad | ui/src/hooks/useAlertManagerData.js:47-95 | a list whose endpoint failed keeps its older content; a throw in the rules stops the setters there |
| PersistentOrder.PermutationIff | ui/src/hooks/usePersistentOrder.js:18-36 | the result is a permutation of 0..length-1 exactly if no number in range is fractional |
| PersistentOrder.FirstsInOrder | ui/src/hooks/usePersistentOrder.js:23-30 | the kept numbers stand in the order of their first occurrences |
| PersistentOrder.MissingAscends | ui/src/hooks/usePersistentOrder.js:31-33 | the indices that were missing are appended in ascending order |
| PersistentOrder.UnchangedIff | ui/src/hooks/usePersistentOrder.js:18-36 | an array is left alone exactly if it has no repeats, stays in range and covers every index |
| PersistentOrder.Idempotent | ui/src/hooks/usePersistentOrder.js:18-36 | sanitizing twice is sanitizing once, for any array |
| PersistentOrder.SanitizeArray | ui/src/hooks/usePersistentOrder.js:18-36 | the two loops compute the specified order |
| SlugToken.SlugOf | watchdog/config.py:94-100 | the loop ends with the maximal alphanumeric runs of the stripped, lowered value joined by single hyphens, or the default |
| SlugToken.SlugIsNormal | watchdog/config.py:94-100 | no hyphen at the edges, no double hyphen, nothing but settled alphanumeric characters and hyphens; or the default |
| SlugToken.IdempotentIff | watchdog/config.py:94-100 | applying it to its result changes nothing exactly if the value has an alphanumeric character, or the default has none or is in normal form |
| SlugToken.AsciiIsSound | watchdog/config.py:95-96 | the character tables restricted to ASCII have the properties assumed of Python's |

## Left out

- TokenWindows.SlidingBound: the interval is 60 s less the bound on how late a thread enters the lock after it has read the clock; with one thread, or a clock read under the lock, it is 60 s.
- MinuteCounters.MinuteBound: for runs in which the answered commands land in time; `InTimeIff` shows that one command cannot be allowed more. Clock readings before 1970, which `int` truncates the other way, are not modelled.
- MinuteCounters.CountersCover: commands stand in the order in which the server runs them, and its clock is the client's.
- HybridLimiter.SlidingBound: inherits both assumptions; that each limiter has the same limit is the gateway's configuration.
- GatewayService.BoundedStaleness: the digest is an injective function, and the age of a stored answer counts from the clock reading in `set`; `lag` bounds how long before that the authority answered.
- LokiVolume.NobodyStranded: without cancellation; the machine has cancellation steps, and what still holds with them is proved in FlightSafety and ResolverReads.
- LogQl.BuilderIsInjective: the condition on the names of both dicts is sufficient; `ImitatedIff` says which dicts some other one imitates.
- QueryRange.VolumeKeyInjective: for pairs of tenants that do not clash; for all others `TenantsShareKeysIff` shows a shared key.
- ConcurrencyLimit.StepKeepsInv: cancelling an acquire task, the turn in which it notices and counting the refusal are one step; a request whose task is cancelled from outside is not modelled.
- ConcurrencyLimit.LostExactlyByLateTimeOut: what `asyncio.wait_for` and `asyncio.Semaphore` do is taken from their definitions in CPython, which are not part of the repository.
- PrepareEnv.SecretsArePaired: the condition is sufficient; a line that sets a paired key to the very value it has would do no harm.
- PreparedValues.EverythingIsPlaced: for arguments that stay on their lines; a value is read without the carriage return it may end in.
- TokenCache.GetAnswers: for a get whose clock reading is not before those of the stores.
- ReadThrough.Service.RequestJson: a missing service token, which raises before anything is read, is not modelled.
- RcaJobs.MergedJobs: ids are strings; `Date.parse` is a function from text to a number.
- RcaReport.ShowsReference: report metadata, the error's status and the individual requests inside one load, including its two fallbacks to the job's result, are not modelled; an effect and the render before it are one step.
- AlertManagerData.ShowsReference: the filtering of expired silences and the shape of rules are part of what an endpoint's answer is taken to be; `setError` called from outside is not modelled.
- PersistentOrder.PermutationIff: lengths are integers, and -0 counts as 0.
- SlugToken.SlugOf: Python's character tables are a parameter, of which only what `Sound` lists is assumed.
- HTTP clients, FastAPI routing, JWT signing, audit records, Vault, Grafana and Tempo: calls become success or failure steps.
- The Redis backends of `TTLCache` and of the token cache, and Redis itself beyond INCR and EXPIRE; `TTLCache` is its in-memory map whose entries expire.
- The retry and timeout decorators around the service methods; a timeout acts as a cancellation.
- Unicode case folding in `normalize_bool` and `normalize_choice`: lowering is ASCII, which differs from Python only for the Kelvin sign in "keycloak".
- Windows newline translation when the `.env` file is written, file encodings and other processes editing the file.
- `filterDeletedJobs`, the storage of active jobs, `_query_params`, log statistics and label normalisation: one-branch filters and renamings.
- The fallback queries of log volume and of label values, whose helper file is not part of this model.
- The resolver's cache key, a JSON rendering, is taken to be the key itself.
