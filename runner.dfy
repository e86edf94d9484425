/**
 * `WorkerRunner`, the object the host's lifecycle events are dispatched to.
 * Its fields are the state the handlers read and change: the lazily created
 * API client, the key-value store, the host's cache names and the log of
 * requested effects. Every handler runs to completion as one sequential step
 * and is proved equal to its transition function in module `Worker`.
 */
module Runner {
  import opened Wrappers
  import opened Notification
  import opened Worker

  class WorkerRunner {
    const env: Environment
    var api: Option<Api>
    var store: map<Key, string>
    var caches: set<string>
    var effects: seq<Effect>

    /** The runner's fields as a value of the transition functions' state. */
    function Snapshot(): (s: State)
      reads this
    {
      State(api, store, caches, effects)
    }

    /** A fresh runner has no API client yet and has requested nothing. */
    constructor (env: Environment, store: map<Key, string>, caches: set<string>)
      ensures this.env == env
      ensures Snapshot() == State(None, store, caches, [])
    {
      this.env := env;
      this.api := None;
      this.store := store;
      this.caches := caches;
      this.effects := [];
    }

    /** Read the application code, failing with `no code` when it is absent or empty. */
    method GetApplicationCode() returns (r: Result<string, Error>)
      ensures r == Worker.GetApplicationCode(store)
    {
      r := Worker.GetApplicationCode(store);
    }

    /** Create the API client from `subscription` unless it already exists. */
    method InitApi(subscription: Subscription) returns (o: Outcome<Error>)
      modifies this
      ensures Transition(Snapshot(), o) == Worker.InitApi(old(Snapshot()), subscription, env.deriver)
      ensures old(api).Some? ==> api == old(api) && o == Pass
      ensures old(api).None? ==> (api.Some? <==> o.Pass?)
    {
      if api.Some? {
        return Pass;
      }
      var code := GetApplicationCode();
      if code.Failure? {
        return Fail(code.error);
      }
      var pushToken := env.deriver.pushToken(subscription);
      var hwid := env.deriver.hwid(code.value, pushToken);
      var encryptionKey := env.deriver.encryptionKey(subscription);
      api := Some(Api(code.value, hwid, pushToken, encryptionKey));
      return Pass;
    }

    /** Display the notification of `message`, resolved against the stored defaults. */
    method ShowMessage(message: LastMessage) returns (o: Outcome<Error>)
      modifies this
      ensures Transition(Snapshot(), o) == Worker.ShowMessage(old(Snapshot()), message, env.builtins)
      ensures o.Pass? ==> |effects| == |old(effects)| + 1
    {
      var user := UserDefaultsOf(store);
      if message.notification.None? {
        return Fail(MalformedMessage);
      }
      var shown := Resolve(message.notification.value, user, env.builtins);
      effects := effects + [Show(shown)];
      return Pass;
    }

    /** Handle a push: initialise the client, fetch the last message, show it. */
    method Push(subscription: Subscription, reply: Result<LastMessage, string>) returns (o: Outcome<Error>)
      modifies this
      ensures Transition(Snapshot(), o) == Worker.Push(old(Snapshot()), subscription, reply, env)
    {
      o := InitApi(subscription);
      if o.Fail? {
        return;
      }
      effects := effects + [FetchLastMessage(env.deviceType)];
      if reply.Failure? {
        return Fail(RpcFailed(reply.error));
      }
      o := ShowMessage(reply.value);
    }

    /**
     * Handle a click on a notification whose tag parsed to `tag` (`None` when
     * it did not parse): close it, open its url, then report the stat.
     */
    method Click(tag: Option<Tag>) returns (o: Outcome<Error>)
      modifies this
      ensures Transition(Snapshot(), o) == Worker.Click(old(Snapshot()), tag)
    {
      if tag.None? {
        return Fail(MalformedTag);
      }
      var t := tag.value;
      effects := effects + [Close(t)];
      effects := effects + [OpenWindow(t.url)];
      if api.None? {
        return Fail(ApiUnset);
      }
      effects := effects + [PushStat(t.messageHash)];
      return Pass;
    }

    /** Handle install: store the version marker, then skip waiting. */
    method Install()
      modifies this
      ensures Snapshot() == Worker.Install(old(Snapshot()), env.version)
    {
      store := store[KeyWorkerSDKVersion := env.version];
      effects := effects + [SkipWaiting];
    }

    /** Handle activate: delete every enumerated cache; claiming the clients is requested up front. */
    method Activate()
      modifies this
      ensures Snapshot() == Worker.Activate(old(Snapshot()))
    {
      var names := caches;
      effects := effects + [ClaimClients];
      var pending := names;
      while pending != {}
        invariant pending <= names
        invariant caches == old(caches) - (names - pending)
        invariant api == old(api) && store == old(store) && effects == old(effects) + [ClaimClients]
        decreases pending
      {
        var name :| name in pending;
        caches := caches - {name};
        pending := pending - {name};
      }
    }
  }
}
