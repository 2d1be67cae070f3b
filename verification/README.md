# Mixcloud player: resilience core in Dafny

This project models the deterministic rules inside the browser playlist player's `player.js`:

- **Resilient fetch** (`Util.get_successful_fetch`). A GET is retried while the failures are network errors. Between attempts the player waits for the browser to come back online. The retry is bounded by `max_attempts` (default 10).
- **Audio-source resolution** (`Mixcloud.retreive_audio_src`). The key is appended to the resolver endpoint. That address gets one resilient fetch, and the result is the `url` field of the JSON body.
- **Stale-source reconciliation** (`Mixcloud.check_for_updated_src`). Every playlist entry whose `src` is exactly the failed source is resolved again from its key. The entry takes the new source when it is truthy and different from the current one.
- **Timestamp formatting** (`Util.sec_to_human_readable_timestamp`).
- **Storage-key namespacing** (the key expression of `PersistentData.update` and `PersistentData.load`).

The environment is abstracted away:

- The network is a pair of oracles. `transport(i)` is what the (i+1)-th `fetch(url)` does: `Ok(response)`, `NetErr` or `OtherErr(err)`. `connectivity(i)` is what the wait for the network does after that call: `Connected` or `TimedOut`. A wait only ever follows a network error, and every earlier call was a network error followed by a wait. So the attempt number also numbers the waits.
- The response body is an oracle `body: R -> Body<E>`. It gives a decoded JSON value, `NotJson` when `JSON.parse` would throw, or `Unreadable(err)` when `response.text()` rejects with `err`.
- In reconciliation, the resolver is a total function from key to `Option<string>`. `None` means the resolution threw. The background `.then` callbacks are applied one after another in scan order. A separate lemma shows that any completion order gives the same list.

Modules: `Wrappers` (Option/Result), `Decimal` (writes and reads `String(n)` for naturals), `ResilientFetch`, `AudioSource`, `Reconcile`, `Timestamp`, `StorageKeys`.

The model follows the code in these details:

- The core throws plain strings, not typed errors. Exhaustion throws `"Timed out trying to get " + url`. A wait that times out throws `"Timeout exception, offline for too long!"`.
- The loop waits after every network error, including the last one. When every attempt fails with a network error, the transport is called `max_attempts` times and there are also `max_attempts` waits. If that final wait times out, its message is thrown instead of the give-up message.
- A non-positive `max_attempts` makes no call at all and throws the give-up message.
- A JSON object without a `url` field yields `undefined`, which is not an error. Of the parsed bodies only `null` throws (a TypeError, when its field is read); a body that is not JSON throws a SyntaxError. A rejection of `response.text()` is thrown unchanged and not retried, because the retry loop only wraps `fetch`.
- Error classification uses the intended test (network error or not). The misspelt `startswith` is recorded under Findings.

## Model

| member | source | states |
|---|---|---|
| `ResilientFetch.GetSuccessfulFetch` | player.js:8-33 | The loop obeys the retry policy: at most `max_attempts` calls, every call but the last was a network error followed by a reconnect, and the last call decides the result. The loop also equals the functional model. |
| `ResilientFetch.RetryFrom` | player.js:18-32 | Started at attempt `a`, the loop makes between `a` and `max(max_attempts, 0)` calls in all, and never more waits than calls. |
| `ResilientFetch.Fetch` | player.js:20 | The transport is never called more than `max(max_attempts, 0)` times. |
| `ResilientFetch.GiveUpMessage` | player.js:32 | The exhaustion message ends with the URL it gave up on. |
| `ResilientFetch.MessagesDistinct` | player.js:14 | The offline-timeout message and the give-up message can never be equal, whatever the URL. |
| `ResilientFetch.FetchObeysPolicy` | player.js:8-33 | The functional model of the loop satisfies the declarative retry policy for every network behaviour. |
| `ResilientFetch.PolicyDeterminesRun` | player.js:8-33 | At most one run (result, call count, wait count) satisfies the policy, so the policy is a complete specification. |
| `ResilientFetch.CleanFirstAttempt` | player.js:20-22 | A transport that answers at once is called once, and nobody waits. |
| `ResilientFetch.RecoversAfterNetworkErrors` | player.js:20-30 | Take N < `max_attempts` network errors, each followed by a reconnect, then a response. The response is returned after exactly N+1 calls and N waits. |
| `ResilientFetch.OtherErrorRethrown` | player.js:23-25 | A non-network error is thrown unchanged by the call that received it, and no further call or wait follows. |
| `ResilientFetch.WaitTimeoutAborts` | player.js:9-29 | A wait that times out ends the chain with the offline message. No call follows it. |
| `ResilientFetch.PersistentNetworkErrorsExhaust` | player.js:18-32 | If every attempt is a network error and every wait reconnects, the give-up message naming the URL is thrown after exactly `max_attempts` calls and `max_attempts` waits. |
| `ResilientFetch.NoCallsBeyondCount` | player.js:20-32 | Two networks that agree on the calls and waits a run made give the same run. So nothing beyond the counted calls is consulted. |
| `ResilientFetch.FetchAsWritten` | player.js:24 | As written, the handler calls `startswith`, a method strings do not have. So at most one call is made, nobody waits, and every rejection becomes a TypeError. |
| `ResilientFetch.AsWrittenNeverRetries` | player.js:23-29 | After one dropped connection, the intended loop recovers on the second call, while the written loop throws a TypeError after the first. |
| `Decimal.NatToString` | player.js:51 | `String(n)` is a non-empty string of digits with no leading zero. It has one digit exactly when n < 10 and at most two exactly when n < 100. |
| `Decimal.NatToStringRoundTrip` | player.js:51 | Reading the digits of `String(n)` back gives `n`. |
| `Timestamp.PadStart2` | player.js:51 | `padStart(2, "0")` keeps the string as its suffix, fills the front with zeros only, and reaches length 2 unless the string is already longer. |
| `Timestamp.HoursField` | player.js:51 | The hours field is a numeral of at least two digits, zero-padded only up to two (a longer field has no leading zero). Its value is the whole hours, `sec/3600`. |
| `Timestamp.MinutesField` | player.js:51 | The minutes field is always exactly two digits, and its value is `(sec%3600)/60`. |
| `Timestamp.SecondsField` | player.js:51 | The seconds field is never padded: one digit below ten seconds, two from ten on. Its value is `sec%60`. |
| `Timestamp.FormatTimestamp` | player.js:51 | A timestamp splits at its colons into exactly three pieces: the hours, minutes and seconds fields. |
| `Timestamp.TimestampRoundTrip` | player.js:51 | Parsing a formatted timestamp as hours, minutes and seconds gives back the seconds it was made from. |
| `AudioSource.ResolverUrl` | player.js:120 | The resolved address is the fixed endpoint followed by the key, unchanged. |
| `AudioSource.ResolverUrlInjective` | player.js:120 | Distinct keys are resolved at distinct addresses. |
| `AudioSource.UrlField` | player.js:124 | Reading `url`: an object with the field gives its value, `null` throws a TypeError, and every other value gives `undefined`. |
| `AudioSource.RetrieveAudioSrc` | player.js:117-127 | Whatever the fetch throws is thrown unchanged, and so is a rejection of reading the body's text. A non-JSON body throws a SyntaxError. Otherwise the result is the `url` field read from the fetched body. The call succeeds exactly when the fetch succeeded and the body is JSON other than `null`. |
| `AudioSource.ReturnsUrlField` | player.js:121-126 | Whichever attempt the fetch succeeds on, a body `{"url": u}` yields `u`. |
| `AudioSource.MissingFieldIsUndefined` | player.js:124-126 | Whichever attempt the fetch succeeds on, an object without `url` yields `undefined`, not an error. |
| `AudioSource.NonJsonBodyThrows` | player.js:122-123 | After a first-attempt success, a body that is not JSON throws a SyntaxError, and only one fetch is made. |
| `AudioSource.UnreadableBodyNotRetried` | player.js:121-122 | After a first-attempt success, a rejection while reading the body's text is thrown unchanged, and no second fetch is made. |
| `AudioSource.OfflineResolutionGivesUp` | player.js:121 | With the network down for all ten default attempts, resolution throws the give-up message that names the resolver address. |
| `Reconcile.MatchesFrom` | player.js:141-142 | The scan lists exactly the positions whose `src` equals the stale source, each once, in list order. |
| `Reconcile.Step` | player.js:143-147 | One callback changes only its own entry and never its key. The entry takes a truthy resolved source, and is left as it was otherwise. Its key is recorded as settled. The log records the update exactly when the entry changed. |
| `Reconcile.ApplyAll` | player.js:143-149 | The callbacks run one after another in the given order. The list keeps its length and every key, and the settled keys are recorded in callback order. |
| `Reconcile.ApplyAllPointwise` | player.js:141-149 | Run the callbacks of distinct positions in any order. Each position in the order ends settled, and every other entry is untouched. |
| `Reconcile.CheckForUpdatedSrc` | player.js:136-157 | A null or empty stale source changes nothing and resolves nothing. Otherwise only entries whose `src` equals it are resolved, in list order, as the scan starts them. Each ends with its truthy resolved source or unchanged, and no key changes. |
| `Reconcile.CompletionOrderIrrelevant` | player.js:143-149 | Whatever order the background resolutions settle in, the live list ends the same. |
| `Reconcile.NoMatchNoCalls` | player.js:141-142 | A stale source held by no entry makes no resolver call and leaves the list unchanged. |
| `Reconcile.ReconcileIdempotent` | player.js:136-149 | Reconciling the same source again with the same resolutions changes nothing more. |
| `Reconcile.FirstTwoSettled` | player.js:141-147 | In any three-entry list whose first two entries hold the failed source and whose third does not, the first two end settled and the third is untouched. |
| `Reconcile.FirstTwoResolved` | player.js:141-143 | In the same list, exactly the first two keys are resolved, in list order. |
| `Reconcile.ThreeEntryScenario` | player.js:136-149 | Take entries a:S, b:S, c:T, where a resolves to S2 and b fails. Only a and b are resolved, and only a changes. |
| `StorageKeys.NamespacedKey` | player.js:227-229 | The item name always starts with the page path. It is the key itself exactly when the key already starts with the path, and otherwise it is `path + "." + key`. |
| `StorageKeys.StorageKey` | player.js:249-258 | A null key addresses nothing. Every other key addresses the item its namespaced name gives, which lies under the page path; an already-namespaced key addresses itself. |
| `StorageKeys.NamespacedKeyIdempotent` | player.js:227-229 | Namespacing an item name again changes nothing. |
| `StorageKeys.NamespacedKeyRecoversKey` | player.js:227-229 | For a key not yet under the path, the original key can be read back from the item name. |
| `StorageKeys.NamespacedKeyAlias` | player.js:255-257 | A key and the same key namespaced by hand address the same item. |
| `StorageKeys.StorageKeyAsWritten` | player.js:255 | As written, the expression calls the missing `startswith`: it throws for every non-null key and succeeds only for null. |
| `StorageKeys.AsWrittenNeverNamespaces` | player.js:227 | For every key, the written expression throws, while the intended one names an item under the page path. |

## Left out

- `Logger.log`, `removeFadeOutAfter` and every `write2log` call are left out. They are DOM table manipulation and timers, with no effect on the modelled results.
- The "Offline... waiting to reconnect" log line of the retry loop is left out, for the same reason.
- `delay_until_connection` is replaced by the `connectivity` oracle. Its busy loop over `Date.now()` and `navigator.onLine` is clock and browser state. The 60-second budget is not modelled: the oracle decides whether a wait times out.
- `fetch`, `response.text()` and `JSON.parse` are oracles. JSON text is not parsed, and JSON numbers are modelled as integers.
- `get_JSON` and `update_player_src` are left out. They are `fetch`/`response.json()` and audio-element plumbing.
- `mobileCheck` is left out. It is a user-agent regular expression over browser globals.
- The `localStorage` effects of `PersistentData.update` and `load` are left out, including the `mode in [-1, 0]` test, which depends on JavaScript's array-index `in`. Only the key rule is modelled.
- `MediaSessionControls` is left out. It is media-session wiring over floating-point `currentTime` and `duration`.
- The commented-out `update_mediasession_info` is left out, because it is not live code.
- A non-integer `max_attempts` is not modelled. The model takes an integer.
- The network error object is discarded, as in the source, so `NetErr` carries no payload.
- `Reconcile.CheckForUpdatedSrc`: entries are distinct records addressed by their position, and the list is assumed not to change while resolutions are pending. The source's callback writes to the object `e` it captured, so one object listed twice is updated (and logged) once, and a list reordered, spliced or replaced meanwhile still has the old object written; the model writes position `i` instead.
- `Reconcile.CheckForUpdatedSrc`: the callbacks run in sequence. Interleavings with *other* concurrent reconciliations of the same entries are not modelled. Within one reconciliation, `CompletionOrderIrrelevant` covers every completion order.
- `Reconcile.CheckForUpdatedSrc`: the resolver yields strings only. A resolution that settles with a truthy non-string JSON value, which the source would store as `src`, is not modelled.
- The resolver is not derived from `AudioSource.RetrieveAudioSrc` inside the reconciliation. A rejected resolution counts as `None`, which leaves the entry unchanged as in the source, where the rejection goes unhandled.
- The `catch` block of `check_for_updated_src` is left out. It can only be reached by a synchronous error of the scan itself, which the model has none of, and it refers to an undefined `song`.
- `get_successful_fetch`, `retreive_audio_src` and `write2log` are called as free functions, though the first two are class methods. The model takes them to mean those methods.
- `Logger.log` is called on the class (line 28), but `log` is an instance method (line 66). As written, that call throws a TypeError in the network-error branch before the wait. The model assumes `Logger.log` is bound to a working logger, as it does for `write2log`.
- `Decimal.NatToString`: JavaScript numbers are doubles. `String(n)` switches to exponent form from 10^21, and `sec / 3600`, `sec % 3600` and `parseInt` are exact only below 2^53. The model uses unbounded naturals, so `Decimal.NatToString` and `Timestamp.FormatTimestamp` describe the source only for `sec < 2^53`.

## Findings

| source | as written | input that shows it | evidently intended | confidence | as-written member | corrected member |
|---|---|---|---|---|---|---|
| player.js:24 | `err.message.startswith("NetworkError")` calls a method strings do not have. Every rejected fetch makes the handler throw a TypeError, so no error is ever retried. | The first fetch fails with a network error and the second would succeed (`max_attempts` = 10). | Network errors wait for the connection and retry. Other errors are rethrown. Fixing `startswith` alone would not restore retrying: `Logger.log` at line 28 is also called on the class, which has no `log` property, so it too would throw a TypeError unless bound elsewhere. | high; not executed | `ResilientFetch.AsWrittenNeverRetries` | `ResilientFetch.RecoversAfterNetworkErrors` |
| player.js:227 | `key.toString().startswith(window.location.pathname)` throws the same TypeError for every non-null key, so `update` (and `load` at line 255) never reach `localStorage`. | Any non-null key, e.g. `"LAST_SONG_SRC"`. | Namespace the key under the page path unless it already starts with it. | high; not executed | `StorageKeys.AsWrittenNeverNamespaces` | `StorageKeys.NamespacedKeyIdempotent` |
