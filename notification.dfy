/**
 * The notification renderer embedded in `WorkerRunner.showMessage`: how the
 * payload of the last message and the stored defaults become the title, body,
 * icon and tag of the one notification that is displayed.
 */
module Notification {
  import opened Wrappers

  /** JavaScript truthiness of a value that is a string or absent: `undefined` and `""` are falsy. */
  predicate Truthy(v: Option<string>) {
    v.Some? && v.value != ""
  }

  /** JavaScript's `a || b`: `a` when it is truthy, and `b` otherwise. */
  function Or(a: Option<string>, b: Option<string>): (r: Option<string>) {
    if Truthy(a) then a else b
  }

  /**
   * The precedence a resolved field obeys: the payload's value if truthy,
   * else the user's stored default if truthy, else the hardcoded default.
   */
  predicate Precedence(r: string, given: Option<string>, user: Option<string>, builtin: string) {
    if Truthy(given) then r == given.value
    else if Truthy(user) then r == user.value
    else r == builtin
  }

  /** `given || user || builtin`, the three-level fallback of a display field. */
  function Fallback(given: Option<string>, user: Option<string>, builtin: string): (r: string)
    ensures Precedence(r, given, user, builtin)
    ensures builtin != "" ==> r != ""
  {
    Or(Or(given, user), Some(builtin)).value
  }

  /** The `notification` object of the last message returned by the platform. */
  datatype Payload = Payload(
    chromeTitle: Option<string>,
    content: Option<string>,
    chromeIcon: Option<string>,
    url: Option<string>,
    messageHash: Option<string>)

  /** The platform's answer to `getLastMessage`; its `notification` field may be missing. */
  datatype LastMessage = LastMessage(notification: Option<Payload>)

  /** Defaults configured by the integrating application, read from storage on every display. */
  datatype UserDefaults = UserDefaults(title: Option<string>, image: Option<string>, url: Option<string>)

  /** The library's hardcoded defaults `defaultNotificationTitle`, `...Image` and `...Url`. */
  datatype Builtins = Builtins(title: string, image: string, url: string)

  /** The record carried in the notification's tag from display time to click time. */
  datatype Tag = Tag(url: string, messageHash: Option<string>)

  /** What is handed to the host's `showNotification`. */
  datatype Displayed = Displayed(title: string, body: Option<string>, icon: string, tag: Tag)

  /** Field resolution and tag construction of `showMessage`. */
  function Resolve(p: Payload, user: UserDefaults, builtins: Builtins): (d: Displayed)
    ensures Precedence(d.title, p.chromeTitle, user.title, builtins.title)
    ensures Precedence(d.icon, p.chromeIcon, user.image, builtins.image)
    ensures Precedence(d.tag.url, p.url, user.url, builtins.url)
    ensures d.body == p.content
    ensures d.tag.messageHash == p.messageHash
  {
    var title := Fallback(p.chromeTitle, user.title, builtins.title);
    var icon := Fallback(p.chromeIcon, user.image, builtins.image);
    var url := Fallback(p.url, user.url, builtins.url);
    Displayed(title, p.content, icon, Tag(url, p.messageHash))
  }

  /** A precedence pins its field down: the contract of `Resolve` determines every field. */
  lemma PrecedenceDetermines(r1: string, r2: string, given: Option<string>, user: Option<string>, builtin: string)
    requires Precedence(r1, given, user, builtin) && Precedence(r2, given, user, builtin)
    ensures r1 == r2
  {
  }

  /**
   * Each of title, icon and url depends only on its own three inputs: changing
   * any other field of the payload or of either default leaves it unchanged.
   */
  lemma FieldsIndependent(p1: Payload, u1: UserDefaults, b1: Builtins, p2: Payload, u2: UserDefaults, b2: Builtins)
    ensures p1.chromeTitle == p2.chromeTitle && u1.title == u2.title && b1.title == b2.title
      ==> Resolve(p1, u1, b1).title == Resolve(p2, u2, b2).title
    ensures p1.chromeIcon == p2.chromeIcon && u1.image == u2.image && b1.image == b2.image
      ==> Resolve(p1, u1, b1).icon == Resolve(p2, u2, b2).icon
    ensures p1.url == p2.url && u1.url == u2.url && b1.url == b2.url
      ==> Resolve(p1, u1, b1).tag.url == Resolve(p2, u2, b2).tag.url
  {
  }

  /**
   * A worked example: no title, icon or url in the payload, a
   * stored title and image but no stored url.
   */
  lemma StoredDefaultsScenario()
    ensures Resolve(
              Payload(None, Some("Hi"), None, None, Some("abc")),
              UserDefaults(Some("MyApp"), Some("icon.png"), None),
              Builtins("Default", "default.png", "https://example.com"))
         == Displayed("MyApp", Some("Hi"), "icon.png", Tag("https://example.com", Some("abc")))
  {
  }
}
