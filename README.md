# Push-notification service worker: a Dafny model

This project models the decision core of the service worker of a web
push-notification SDK (`src/service-worker.js`). The worker keeps one
`WorkerRunner` object for its lifetime and dispatches the host's `push`,
`notificationclick`, `install` and `activate` events to it. The runner:

- creates its API client lazily, once, from the push subscription and the
  stored application code;
- on a push, fetches the last message from the platform and shows one
  notification, whose title, icon and url each fall back from the payload to a
  stored default to a hardcoded default (JavaScript `||`, so an absent value
  and an empty string both fall through);
- carries `{url, messageHash}` in the notification's tag so that a click can
  close the notification, open the url and report a statistic for the message;
- on install writes the worker version to storage and skips waiting;
- on activate deletes every cache and asks to claim the open clients.

Layout:

- `wrappers.dfy`: `Option`, `Result`, `Outcome`. A handler's promise is
  either resolved (`Pass`) or rejected with an error (`Fail`).
- `notification.dfy` (module `Notification`): the pure field resolution and
  tag construction of `showMessage`, and its precedence lemmas.
- `worker.dfy` (module `Worker`): the runner's state as a value, with one
  transition function per handler. It also defines `Step` and `Run`, which
  handle any sequence of host events, and the lemmas that hold over every such
  sequence.
- `runner.dfy` (module `Runner`): class `WorkerRunner` with the fields `api`,
  `store`, `caches` and `effects`. Its methods update those fields step by step.
  Each is proved to leave exactly the state, and give exactly the outcome, of
  the `Worker` function of the same name.

Modelling conventions:

- Asynchronous chains are flattened into sequential steps.
- The answers of the host and of the platform are parameters: the
  subscription that `pushManager.getSubscription()` yields, and the reply to
  `callAPI('getLastMessage', ...)`.
- Credential derivation (`getPushToken`, `generateHwid`, `getEncryptionKey`),
  `getVersion`, `getBrowserType` and the hardcoded defaults from
  `./constants` are fields of an `Environment` value. The derivation
  functions are arrow-typed fields, so the model treats them as uninterpreted.
- The subscription is an opaque type.
- Requests other than storage and cache operations are appended to `effects`
  in the order the code makes them. Storage writes and cache deletions change
  `store` and `caches` instead; storage reads, cache enumeration and the
  subscription lookup are reads of those fields or parameters. In `click` the
  order is: close, then openWindow
  (both synchronous), then `pushStat`, which runs in a deferred `.then`.
- In `activate`, `self.clients.claim()` is an argument of `.then`. It is
  therefore evaluated when the chain is built, before any cache is deleted.
  The model logs `ClaimClients` first and does not order it after the
  deletions.
- A click whose tag does not parse: `JSON.parse` (line 93) throws before
  `waitUntil`, `close` and `openWindow` are reached, so nothing happens.
  `Click(None)` changes nothing and fails with `MalformedTag`.
- A platform reply without a `notification` field makes the promise
  `showMessage` returns reject with a TypeError (line 62, after the three
  storage reads). It is modelled as `Fail(MalformedMessage)`, with nothing shown.

## Model

| member | source | states |
|---|---|---|
| `Notification.Fallback` | src/service-worker.js:62-66 | `given \|\| user \|\| builtin` yields the payload value if truthy, else the stored default if truthy, else the hardcoded default; it is non-empty whenever the hardcoded default is |
| `Notification.Resolve` | src/service-worker.js:62-72 | title, icon and url each obey that precedence over their own inputs; the body is the payload's content with no fallback; the tag holds the resolved url and the payload's messageHash unchanged |
| `Notification.PrecedenceDetermines` | src/service-worker.js:62 | the precedence pins down a single value, so `Resolve`'s contract determines every displayed field |
| `Notification.FieldsIndependent` | src/service-worker.js:62-66 | title, icon and url each depend only on their own payload field, stored default and hardcoded default |
| `Notification.StoredDefaultsScenario` | src/service-worker.js:57-72 | worked example: stored title and image win over the hardcoded ones, the hardcoded url is used when neither the payload nor storage has one |
| `Worker.GetApplicationCode` | src/service-worker.js:21-28 | fails with `NoCode` exactly when the stored code is absent or empty, otherwise returns the stored code unchanged |
| `Worker.InitApi` | src/service-worker.js:30-51 | with a client already present: no change, resolves. Otherwise it succeeds exactly when a code is stored, then holds credentials derived from the subscription and that code. On failure the state is unchanged and no client exists |
| `Worker.ShowMessage` | src/service-worker.js:53-79 | appends exactly one `Show` of the resolved notification, using the three stored defaults; a reply without `notification` shows nothing and rejects; client, store and caches unchanged |
| `Worker.Push` | src/service-worker.js:81-88 | a failed initialisation rejects `NoCode` and does nothing else. Otherwise it keeps the client it has or has just created, logs the fetch, and shows the reply's notification if there is one. It resolves only when all three steps succeed |
| `Worker.Click` | src/service-worker.js:90-99 | with a parsed tag: one close, one window-open at the tag's url, then exactly one stat with the tag's messageHash when the client exists. Without a client, close and open still happen and the handler rejects `ApiUnset`. An unparsable tag does nothing |
| `Worker.Install` | src/service-worker.js:101-103 | the version key holds the version, every other key is unchanged, skip-waiting is requested |
| `Worker.Activate` | src/service-worker.js:105-109 | no cache names remain; claiming the clients is requested; client and store unchanged |
| `Worker.Step` | src/service-worker.js:115-118 | any handled event keeps an existing client, creates one only from the stored code and the push event's own subscription, only appends effects, and writes no key but the version marker |
| `Worker.ApiSetOnce` | src/service-worker.js:30-33 | once the client exists, every later sequence of events leaves it exactly as it is |
| `Worker.EffectsAppendOnly` | src/service-worker.js:81-109 | over any sequence of events the earlier effect log is a prefix of the later one |
| `Worker.OnlyVersionWritten` | src/service-worker.js:101-103 | the worker's handlers write no stored key other than the version marker, over any sequence of events |
| `Worker.NoCodeNoApi` | src/service-worker.js:21-51 | without a stored application code no sequence of the worker's own events ever creates the client (the store changes only through `install`) |
| `Worker.ApiFromStoredCode` | src/service-worker.js:38-49 | a client created during a run holds credentials derived from the stored code and the subscription of one of the run's push events |
| `Worker.ClickReportsShownMessage` | src/service-worker.js:69-98 | after a push shows payload `p`, clicking that notification's tag closes it, opens the resolved url and reports the stat for `p`'s messageHash |
| `Runner.WorkerRunner.constructor` | src/service-worker.js:16-19 | a new runner has no client and an empty effect log |
| `Runner.WorkerRunner.GetApplicationCode` | src/service-worker.js:21-28 | returns what `Worker.GetApplicationCode` gives for the current store |
| `Runner.WorkerRunner.InitApi` | src/service-worker.js:30-51 | new fields and outcome equal `Worker.InitApi`; an existing client is kept, and otherwise a client exists afterwards exactly when the call resolves |
| `Runner.WorkerRunner.ShowMessage` | src/service-worker.js:53-79 | new fields and outcome equal `Worker.ShowMessage`; a resolved call adds exactly one effect |
| `Runner.WorkerRunner.Push` | src/service-worker.js:81-88 | new fields and outcome equal `Worker.Push` |
| `Runner.WorkerRunner.Click` | src/service-worker.js:90-99 | new fields and outcome equal `Worker.Click` |
| `Runner.WorkerRunner.Install` | src/service-worker.js:101-103 | new fields equal `Worker.Install` |
| `Runner.WorkerRunner.Activate` | src/service-worker.js:105-109 | the loop deletes every enumerated cache name; new fields equal `Worker.Activate` |

## Left out

- Promises, `event.waitUntil` lifetime extension and the logger: each handler is one sequential step that resolves or rejects.
- Overlapping push events: the code does not serialise concurrent `initApi` calls, and the model has no interleaving, so it says nothing about double initialisation under concurrency.
- The RPC transport and the `API` class internals (`createDoApiFetch`, `callAPI`, `pushStat`): a call is a logged effect, and the reply to `getLastMessage` is a parameter.
- Credential derivation, `getVersion` and `getBrowserType` are foreign functions; they enter as uninterpreted values.
- `JSON.stringify`/`JSON.parse` of the tag: the tag is carried as a record, and a tag that does not parse is an absent record.
- `Worker.Click`: a tag that parses to something other than an object with a string `url` (e.g. `null`, where `close` runs and then `tag.url` throws, or `{}`, where `openWindow(undefined)` is called) is not modelled; `showMessage` only produces `{url, messageHash}` objects.
- Host primitive failures (storage reads and writes, subscription lookup, `showNotification`, cache deletion, `openWindow`, `clients.claim`, `skipWaiting`): each is assumed to succeed.
- Values stored under the configuration keys are strings; other JavaScript falsy values (`0`, `false`) are not modelled.
- What `clients.claim()`, `skipWaiting()` and `openWindow` do to the host is not modelled; only the request is logged.
- `Worker.NoCodeNoApi`, `Worker.OnlyVersionWritten`: writes to the store by the embedding application between events are not modelled; in the model the store changes only through `install`, so these lemmas speak of the worker's own handlers only.
- Event-listener registration and `self.Pushwoosh = runner` (lines 113-120): the dispatch is `Worker.Step`.
- The order in which `activate` deletes caches is not modelled: the host's enumeration is a set.
