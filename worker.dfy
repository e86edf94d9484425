/**
 * The worker runner's handlers as transition functions over an explicit
 * state: the lazily created API client, the key-value store, the host's cache
 * names and a log of the effects requested from the host and the platform.
 * Each handler of the class `Runner.WorkerRunner` is proved equal to the
 * function of the same name here, and the lemmas at the end follow the state
 * over any sequence of host events.
 */
module Worker {
  import opened Wrappers
  import opened Notification

  /** The host's push subscription: opaque, read only through the credential deriver. */
  type Subscription(!new)

  /** Keys of the persistent key-value store; `OtherKey` stands for keys the core never touches. */
  datatype Key =
    | KeyApplicationCode
    | KeyDefaultNotificationTitle
    | KeyDefaultNotificationImage
    | KeyDefaultNotificationUrl
    | KeyWorkerSDKVersion
    | OtherKey(name: string)

  /** `keyValue.get`: the stored value, absent when the key was never written. */
  function Lookup(store: map<Key, string>, k: Key): (v: Option<string>) {
    if k in store then Some(store[k]) else None
  }

  /** The credential-derivation utilities (`getPushToken`, `generateHwid`, `getEncryptionKey`), left uninterpreted. */
  datatype Deriver = Deriver(
    pushToken: Subscription -> string,
    hwid: (string, string) -> string,
    encryptionKey: Subscription -> string)

  /** The constants and foreign values the runner reads but does not compute. */
  datatype Environment = Environment(
    deriver: Deriver,
    builtins: Builtins,
    version: string,     // getVersion()
    deviceType: int)     // getBrowserType()

  /** The credentials the API client is constructed with. */
  datatype Api = Api(applicationCode: string, hwid: string, pushToken: string, encryptionKey: string)

  /** Why a handler's promise rejects. */
  datatype Error =
    | NoCode                    // the `no code` error of getApplicationCode
    | RpcFailed(reason: string) // callAPI rejected
    | MalformedMessage          // the last message has no `notification`
    | MalformedTag              // JSON.parse of the clicked notification's tag threw
    | ApiUnset                  // pushStat called while `this.api` is undefined

  /** A request made to the host or to the platform, in the order it is made. */
  datatype Effect =
    | Show(notification: Displayed)   // registration.showNotification
    | FetchLastMessage(deviceType: int) // api.callAPI('getLastMessage', ...)
    | PushStat(messageHash: Option<string>)
    | Close(tag: Tag)                 // event.notification.close()
    | OpenWindow(url: string)         // clients.openWindow
    | SkipWaiting
    | ClaimClients

  datatype State = State(api: Option<Api>, store: map<Key, string>, caches: set<string>, effects: seq<Effect>)

  /** The state after a handler, and how its promise settles. */
  datatype Transition = Transition(state: State, outcome: Outcome<Error>)

  /** `getApplicationCode`: the stored code, or the `no code` error when it is absent or empty. */
  function GetApplicationCode(store: map<Key, string>): (r: Result<string, Error>)
    ensures r.Failure? <==> !Truthy(Lookup(store, KeyApplicationCode))
    ensures r.Failure? ==> r.error == NoCode
    ensures r.Success? ==> KeyApplicationCode in store && r.value == store[KeyApplicationCode]
  {
    var code := Lookup(store, KeyApplicationCode);
    if !Truthy(code) then Failure(NoCode) else Success(code.value)
  }

  /** The credentials derived from a subscription and an application code. */
  function Derive(d: Deriver, sub: Subscription, code: string): (a: Api) {
    var pushToken := d.pushToken(sub);
    Api(code, d.hwid(code, pushToken), pushToken, d.encryptionKey(sub))
  }

  /** `initApi`: derive the credentials once; a client that exists is kept as it is. */
  function InitApi(s: State, sub: Subscription, d: Deriver): (t: Transition)
    ensures s.api.Some? ==> t == Transition(s, Pass)
    ensures s.api.None? ==> (t.outcome.Pass? <==> Truthy(Lookup(s.store, KeyApplicationCode)))
    ensures t.outcome.Fail? ==> t == Transition(s, Fail(NoCode))
    ensures s.api.None? && t.outcome.Pass? ==>
              t.state == s.(api := Some(Derive(d, sub, s.store[KeyApplicationCode])))
  {
    if s.api.Some? then Transition(s, Pass)
    else match GetApplicationCode(s.store)
      case Failure(e) => Transition(s, Fail(e))
      case Success(code) => Transition(s.(api := Some(Derive(d, sub, code))), Pass)
  }

  /** The three stored defaults `showMessage` reads. */
  function UserDefaultsOf(store: map<Key, string>): (u: UserDefaults) {
    UserDefaults(
      Lookup(store, KeyDefaultNotificationTitle),
      Lookup(store, KeyDefaultNotificationImage),
      Lookup(store, KeyDefaultNotificationUrl))
  }

  /** `showMessage`: exactly one notification, resolved from the payload and the stored defaults. */
  function ShowMessage(s: State, m: LastMessage, builtins: Builtins): (t: Transition)
    ensures t.state.api == s.api && t.state.store == s.store && t.state.caches == s.caches
    ensures t.outcome.Pass? <==> m.notification.Some?
    ensures t.outcome.Fail? ==> t == Transition(s, Fail(MalformedMessage))
    ensures t.outcome.Pass? ==>
              t.state.effects == s.effects + [Show(Resolve(m.notification.value, UserDefaultsOf(s.store), builtins))]
  {
    match m.notification
    case None => Transition(s, Fail(MalformedMessage))
    case Some(p) => Transition(s.(effects := s.effects + [Show(Resolve(p, UserDefaultsOf(s.store), builtins))]), Pass)
  }

  /** `push`: initialise the client, then fetch the last message, then show it. */
  function Push(s: State, sub: Subscription, reply: Result<LastMessage, string>, env: Environment): (t: Transition)
    ensures InitApi(s, sub, env.deriver).outcome.Fail? ==> t == Transition(s, Fail(NoCode))
    ensures InitApi(s, sub, env.deriver).outcome.Pass? ==>
              && t.state.api.Some?
              && t.state.api == InitApi(s, sub, env.deriver).state.api
              && |t.state.effects| > |s.effects|
              && t.state.effects[..|s.effects| + 1] == s.effects + [FetchLastMessage(env.deviceType)]
    ensures t.state.store == s.store && t.state.caches == s.caches
    ensures t.outcome.Pass? <==>
              InitApi(s, sub, env.deriver).outcome.Pass? && reply.Success? && reply.value.notification.Some?
    ensures InitApi(s, sub, env.deriver).outcome.Pass? && reply.Failure? ==>
              && t.outcome == Fail(RpcFailed(reply.error))
              && t.state.effects == s.effects + [FetchLastMessage(env.deviceType)]
    ensures InitApi(s, sub, env.deriver).outcome.Pass? && reply.Success? ==>
              var init := InitApi(s, sub, env.deriver).state;
              t == ShowMessage(init.(effects := init.effects + [FetchLastMessage(env.deviceType)]), reply.value, env.builtins)
  {
    var init := InitApi(s, sub, env.deriver);
    if init.outcome.Fail? then init
    else
      var fetched := init.state.(effects := init.state.effects + [FetchLastMessage(env.deviceType)]);
      match reply
      case Failure(e) => Transition(fetched, Fail(RpcFailed(e)))
      case Success(m) => ShowMessage(fetched, m, env.builtins)
  }

  /**
   * `click`: close the notification and open its url, then report the stat;
   * a tag that does not parse stops the handler before any of these.
   */
  function Click(s: State, tag: Option<Tag>): (t: Transition)
    ensures tag.None? ==> t == Transition(s, Fail(MalformedTag))
    ensures t.state.api == s.api && t.state.store == s.store && t.state.caches == s.caches
    ensures tag.Some? ==>
              t.state.effects == s.effects + [Close(tag.value), OpenWindow(tag.value.url)]
                                 + (if s.api.Some? then [PushStat(tag.value.messageHash)] else [])
    ensures tag.Some? ==> (t.outcome.Pass? <==> s.api.Some?)
    ensures tag.Some? && s.api.None? ==> t.outcome == Fail(ApiUnset)
  {
    match tag
    case None => Transition(s, Fail(MalformedTag))
    case Some(g) =>
      var acted := s.effects + [Close(g), OpenWindow(g.url)];
      if s.api.Some? then Transition(s.(effects := acted + [PushStat(g.messageHash)]), Pass)
      else Transition(s.(effects := acted), Fail(ApiUnset))
  }

  /** `install`: write the version marker, then skip waiting. */
  function Install(s: State, version: string): (r: State)
    ensures Lookup(r.store, KeyWorkerSDKVersion) == Some(version)
    ensures forall k :: k != KeyWorkerSDKVersion ==> Lookup(r.store, k) == Lookup(s.store, k)
    ensures r.store.Keys == s.store.Keys + {KeyWorkerSDKVersion}
    ensures r.effects == s.effects + [SkipWaiting]
    ensures r.api == s.api && r.caches == s.caches
  {
    s.(store := s.store[KeyWorkerSDKVersion := version], effects := s.effects + [SkipWaiting])
  }

  /** `activate`: request claiming the clients and delete every cache. */
  function Activate(s: State): (r: State)
    ensures r.caches == {}
    ensures r.effects == s.effects + [ClaimClients]
    ensures r.api == s.api && r.store == s.store
  {
    s.(caches := {}, effects := s.effects + [ClaimClients])
  }

  /** A host lifecycle event, carrying the answers of the host and of the platform it leads to. */
  datatype Event =
    | PushEvent(subscription: Subscription, reply: Result<LastMessage, string>)
    | ClickEvent(tag: Option<Tag>)
    | InstallEvent
    | ActivateEvent

  /** One event handled to completion; the host swallows the handler's rejection. */
  function Step(s: State, e: Event, env: Environment): (r: State)
    ensures s.api.Some? ==> r.api == s.api
    ensures s.api.None? && r.api.Some? ==>
              && Truthy(Lookup(s.store, KeyApplicationCode))
              && e.PushEvent?
              && r.api == Some(Derive(env.deriver, e.subscription, s.store[KeyApplicationCode]))
    ensures s.effects <= r.effects
    ensures forall k :: k != KeyWorkerSDKVersion ==> Lookup(r.store, k) == Lookup(s.store, k)
  {
    match e
    case PushEvent(sub, reply) => Push(s, sub, reply, env).state
    case ClickEvent(tag) => Click(s, tag).state
    case InstallEvent => Install(s, env.version)
    case ActivateEvent => Activate(s)
  }

  /** The state after a sequence of events handled one after the other. */
  function Run(s: State, es: seq<Event>, env: Environment): (r: State)
    decreases |es|
  {
    if es == [] then s else Run(Step(s, es[0], env), es[1..], env)
  }

  /** Once created, the API client is never replaced nor dropped, whatever events follow. */
  lemma {:induction false} ApiSetOnce(s: State, es: seq<Event>, env: Environment)
    requires s.api.Some?
    ensures Run(s, es, env).api == s.api
    decreases |es|
  {
    if es != [] {
      ApiSetOnce(Step(s, es[0], env), es[1..], env);
    }
  }

  /** The effect log only grows: every event appends to it. */
  lemma {:induction false} EffectsAppendOnly(s: State, es: seq<Event>, env: Environment)
    ensures s.effects <= Run(s, es, env).effects
    decreases |es|
  {
    if es != [] {
      var s1 := Step(s, es[0], env);
      EffectsAppendOnly(s1, es[1..], env);
    }
  }

  /** No event writes any stored key besides the version marker. */
  lemma {:induction false} OnlyVersionWritten(s: State, es: seq<Event>, env: Environment, k: Key)
    requires k != KeyWorkerSDKVersion
    ensures Lookup(Run(s, es, env).store, k) == Lookup(s.store, k)
    decreases |es|
  {
    if es != [] {
      OnlyVersionWritten(Step(s, es[0], env), es[1..], env, k);
    }
  }

  /** Without a stored application code, no sequence of events ever creates the API client. */
  lemma {:induction false} NoCodeNoApi(s: State, es: seq<Event>, env: Environment)
    requires s.api.None? && !Truthy(Lookup(s.store, KeyApplicationCode))
    ensures Run(s, es, env).api.None?
    decreases |es|
  {
    if es != [] {
      NoCodeNoApi(Step(s, es[0], env), es[1..], env);
    }
  }

  /**
   * An API client created during a run holds credentials derived from the
   * stored application code and the subscription of one of the run's push events.
   */
  lemma {:induction false} ApiFromStoredCode(s: State, es: seq<Event>, env: Environment)
    requires s.api.None? && Run(s, es, env).api.Some?
    ensures Truthy(Lookup(s.store, KeyApplicationCode))
    ensures exists i :: 0 <= i < |es| && es[i].PushEvent? &&
              Run(s, es, env).api == Some(Derive(env.deriver, es[i].subscription, s.store[KeyApplicationCode]))
    decreases |es|
  {
    if es == [] {
      assert false;
    } else {
      var s1 := Step(s, es[0], env);
      if s1.api.Some? {
        ApiSetOnce(s1, es[1..], env);
        assert es[0].PushEvent? && Run(s, es, env).api == Some(Derive(env.deriver, es[0].subscription, s.store[KeyApplicationCode]));
      } else {
        ApiFromStoredCode(s1, es[1..], env);
        var j :| 0 <= j < |es[1..]| && es[1..][j].PushEvent? &&
                 Run(s1, es[1..], env).api == Some(Derive(env.deriver, es[1..][j].subscription, s1.store[KeyApplicationCode]));
        assert es[j + 1] == es[1..][j];
      }
    }
  }

  /**
   * Display-to-click correlation: after a push displays the payload `p`, a
   * click on that notification's tag closes it, opens the resolved url and
   * reports the stat for `p`'s message hash, which the tag carried unchanged.
   */
  lemma ClickReportsShownMessage(s: State, sub: Subscription, p: Payload, env: Environment)
    requires s.api.Some? || Truthy(Lookup(s.store, KeyApplicationCode))
    ensures var shown := Push(s, sub, Success(LastMessage(Some(p))), env).state;
            var d := Resolve(p, UserDefaultsOf(s.store), env.builtins);
            && shown.effects[|shown.effects| - 1] == Show(d)
            && Click(shown, Some(d.tag)).state.effects
               == shown.effects + [Close(d.tag), OpenWindow(d.tag.url), PushStat(p.messageHash)]
            && Precedence(d.tag.url, p.url, UserDefaultsOf(s.store).url, env.builtins.url)
  {
  }
}
