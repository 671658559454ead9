/**
 * The mention filter of the joke bot: the identity it captures when the
 * real-time session starts, the four checks that decide whether a message
 * event gets a reply, and the channel lookup the reply needs. Network I/O is
 * replaced by parameters and results: the joke fetch arrives as an
 * `Option<string>` and a post to the channel is returned as a `Delivery`.
 */
module JokeBot {
  import opened Wrappers
  import opened JsBuiltins

  /** The options the bot is constructed with; only `name` is read by the core. */
  datatype Settings = Settings(token: string, name: string)

  /** An entry of the platform's user directory. */
  datatype User = User(id: string, name: string)

  /** An entry of the platform's channel directory. */
  datatype Channel = Channel(id: string, name: string)

  /**
   * A real-time event. `kind` is the event's `type` field. A field that is
   * absent or holds a value of another JavaScript type than string is `None`.
   */
  datatype Event = Event(kind: Option<string>, text: Option<string>, channel: Option<string>, user: Option<string>)

  /** What a message event leads to. `IdentityUnsetError` is the TypeError of reading `id` of an unset identity. */
  datatype Decision = Ignore | Send | IdentityUnsetError

  /**
   * What the reply continuation does once the joke fetch settled: nothing when the
   * fetch was rejected (the error is only logged), a post to a channel by name (always
   * as the bot's own user), or the TypeError of reading `name` of a missed lookup.
   */
  datatype Delivery = NotSent | Posted(channelName: string, text: string) | ChannelLookupError

  /** The event is of type "message" and carries a non-empty text. */
  predicate IsMessage(e: Event) {
    e.kind == Some("message") && e.text.Some? && e.text.value != ""
  }

  /** The event's channel is a string whose first character is 'C'. */
  predicate IsChannelConversation(e: Event) {
    e.channel.Some? && |e.channel.value| > 0 && e.channel.value[0] == 'C'
  }

  /** The sender is not the bot itself (strict inequality: a missing sender differs). */
  predicate IsNotFromJokeBot(e: Event, bot: User) {
    e.user != Some(bot.id)
  }

  /** The bot's id occurs in the text; `indexOf` needs the text to be a string. */
  predicate IsMentioningJokeBot(e: Event, bot: User)
    requires e.text.Some?
    ensures IsMentioningJokeBot(e, bot) <==> Contains(e.text.value, bot.id)
  {
    IndexOf(e.text.value, bot.id) > -1
  }

  /** The short-circuit conjunction that guards the reply, once the identity is known. */
  predicate ShouldReply(e: Event, bot: User) {
    IsMessage(e) && IsChannelConversation(e) && IsNotFromJokeBot(e, bot) && IsMentioningJokeBot(e, bot)
  }

  /** `users.filter(user => user.name === name)[0]`. */
  function FirstUserByName(users: seq<User>, name: string): (r: Option<User>)
    ensures r.None? <==> forall u | u in users :: u.name != name
    ensures r.Some? ==> exists k | 0 <= k < |users| ::
      users[k] == r.value && r.value.name == name && forall j | 0 <= j < k :: users[j].name != name
  {
    FirstWhere(users, (u: User) => u.name == name)
  }

  /** `channels.filter(item => item.id === id)[0]`. */
  function FirstChannelById(channels: seq<Channel>, id: string): (r: Option<Channel>)
    ensures r.None? <==> forall c | c in channels :: c.id != id
    ensures r.Some? ==> exists k | 0 <= k < |channels| ::
      channels[k] == r.value && r.value.id == id && forall j | 0 <= j < k :: channels[j].id != id
  {
    FirstWhere(channels, (c: Channel) => c.id == id)
  }

  class JokeBotModel {
    /** The construction options. */
    const settings: Settings
    /** The bot's own directory entry; `None` until the session started or when no user matched. */
    var user: Option<User>
    /** The session's user directory snapshot. */
    var users: seq<User>
    /** The session's channel directory snapshot. */
    var channels: seq<Channel>

    constructor (settings: Settings)
      ensures this.settings == settings && user == None
      ensures users == [] && channels == []
    {
      this.settings := settings;
      user := None;
      users := [];
      channels := [];
    }

    /** The session manager replaces its directory snapshot; the captured identity is kept. */
    method LoadDirectory(users: seq<User>, channels: seq<Channel>)
      modifies this
      ensures this.users == users && this.channels == channels && user == old(user)
    {
      this.users := users;
      this.channels := channels;
    }

    /** Captures the bot's identity: the first directory user named like the bot, recomputed on every call. */
    method OnStart()
      modifies this`user
      ensures user == FirstUserByName(users, settings.name)
    {
      user := FirstUserByName(users, settings.name);
    }

    /**
     * Decides whether a message event requests a reply. The four checks run in
     * order and stop at the first that fails; the sender check is the first to
     * read the identity, so an unset identity faults only on channel messages.
     */
    method OnMessage(e: Event) returns (d: Decision)
      ensures d == Send <==> user.Some? && ShouldReply(e, user.value)
      ensures d == IdentityUnsetError <==> user.None? && IsMessage(e) && IsChannelConversation(e)
      ensures (e.kind != Some("message") || e.text.None? || e.text == Some("")) ==> d == Ignore
      ensures (e.channel.None? || |e.channel.value| == 0 || e.channel.value[0] != 'C') ==> d == Ignore
      ensures user.Some? && e.user == Some(user.value.id) ==> d == Ignore
      ensures d == Send ==> e.text.Some? && e.text.value != "" && Contains(e.text.value, user.value.id)
    {
      d := Ignore;
      if IsMessage(e) && IsChannelConversation(e) {
        match user
        case None =>
          d := IdentityUnsetError;
        case Some(bot) =>
          if IsNotFromJokeBot(e, bot) && IsMentioningJokeBot(e, bot) {
            d := Send;
          }
      }
    }

    /**
     * The reply continuation: given the settled joke fetch (`None` when it was
     * rejected), looks the event's channel up and posts the joke there.
     */
    method SendMessage(e: Event, joke: Option<string>) returns (r: Delivery)
      ensures r == NotSent <==> joke.None?
      ensures r == ChannelLookupError <==> joke.Some? && forall c | c in channels :: Some(c.id) != e.channel
      ensures r.Posted? ==>
        && joke == Some(r.text)
        && e.channel.Some?
        && FirstChannelById(channels, e.channel.value) == Some(Channel(e.channel.value, r.channelName))
    {
      match joke
      case None =>
        r := NotSent;
      case Some(text) =>
        match e.channel
        case None =>
          // no directory entry has a non-string id
          r := ChannelLookupError;
        case Some(id) =>
          var channel := FirstChannelById(channels, id);
          if channel.None? {
            r := ChannelLookupError;
          } else {
            r := Posted(channel.value.name, text);
          }
    }
  }
}
