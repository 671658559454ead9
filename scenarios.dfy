/**
 * Properties of the reply decision stated over whole events, and clients of
 * `JokeBotModel` that run the bot's handlers in the order the session
 * dispatches them.
 */
module JokeBotScenarios {
  import opened Wrappers
  import opened JsBuiltins
  import opened JokeBot

  /** A reply is due exactly when every field passes its check, spelled out field by field. */
  lemma ReplyConditions(e: Event, bot: User)
    ensures ShouldReply(e, bot) <==>
      && e.kind == Some("message")
      && e.text.Some? && e.text.value != ""
      && e.channel.Some? && |e.channel.value| > 0 && e.channel.value[0] == 'C'
      && e.user != Some(bot.id)
      && Contains(e.text.value, bot.id)
  {
  }

  /** A public mention of the bot by another user is answered. */
  lemma MentionIsAnswered()
    ensures ShouldReply(
      Event(Some("message"), Some("hello <@U999> tell me a joke"), Some("C42"), Some("U1")),
      User("U999", "jokebot"))
  {
    assert OccursAt("hello <@U999> tell me a joke", "U999", 8);
  }

  /** The same text sent by the bot itself, or in a direct-message channel, is not answered. */
  lemma SelfAndDirectMentionsIgnored()
    ensures !ShouldReply(
      Event(Some("message"), Some("hello <@U999> tell me a joke"), Some("C42"), Some("U999")),
      User("U999", "jokebot"))
    ensures !ShouldReply(
      Event(Some("message"), Some("hello <@U999> tell me a joke"), Some("D7"), Some("U1")),
      User("U999", "jokebot"))
  {
  }

  /** A text that does not hold the bot's id is not a mention, whoever sent it. */
  lemma OtherMentionIgnored()
    ensures !ShouldReply(
      Event(Some("message"), Some("hi <@U998>"), Some("C42"), Some("U1")),
      User("U999", "jokebot"))
  {
    var text := "hi <@U998>";
    forall i ensures !OccursAt(text, "U999", i) {
      if 0 <= i && i + 4 <= |text| {
        assert i == 0 || i == 1 || i == 2 || i == 3 || i == 4 || i == 5 || i == 6;
        assert text[i..i + 4][0] == text[i] && text[i..i + 4][3] == text[i + 3];
      }
    }
  }

  /**
   * The session starts twice with different directories and then a message
   * arrives: the decision uses the identity captured by the second start.
   */
  method RestartThenMessage(settings: Settings, before: seq<User>, after: seq<User>, e: Event)
    returns (d: Decision)
    ensures d == Send <==>
      FirstUserByName(after, settings.name).Some? && ShouldReply(e, FirstUserByName(after, settings.name).value)
    ensures d == IdentityUnsetError <==>
      FirstUserByName(after, settings.name).None? && IsMessage(e) && IsChannelConversation(e)
  {
    var bot := new JokeBotModel(settings);
    bot.LoadDirectory(before, []);
    bot.OnStart();
    bot.LoadDirectory(after, []);
    bot.OnStart();
    d := bot.OnMessage(e);
  }

  /** A message that arrives before the session started faults once it reaches the sender check. */
  method MessageBeforeStart(settings: Settings, e: Event) returns (d: Decision)
    ensures d == (if IsMessage(e) && IsChannelConversation(e) then IdentityUnsetError else Ignore)
  {
    var bot := new JokeBotModel(settings);
    d := bot.OnMessage(e);
  }

  /**
   * The bot "jokebot" with id "U999" is mentioned in channel "C42" (named
   * "general") by user "U1"; the joke fetch either succeeds or is rejected.
   */
  method MentionEndToEnd(joke: Option<string>) returns (d: Decision, r: Delivery)
    ensures d == Send
    ensures joke.Some? ==> r == Posted("general", joke.value)
    ensures joke.None? ==> r == NotSent
  {
    var users := [User("U1", "alice"), User("U999", "jokebot")];
    var channels := [Channel("C1", "random"), Channel("C42", "general")];
    assert FirstUserByName(users, "jokebot") == Some(users[1]);
    assert FirstChannelById(channels, "C42") == Some(channels[1]);
    var bot := new JokeBotModel(Settings("xoxb-token", "jokebot"));
    bot.LoadDirectory(users, channels);
    bot.OnStart();
    var e := Event(Some("message"), Some("hello <@U999> tell me a joke"), Some("C42"), Some("U1"));
    MentionIsAnswered();
    d := bot.OnMessage(e);
    r := bot.SendMessage(e, joke);
  }

  /** A mention in direct-message channel "D7" requests no reply, so no fetch starts. */
  method DirectMessageEndToEnd() returns (d: Decision)
    ensures d == Ignore
  {
    var bot := new JokeBotModel(Settings("xoxb-token", "jokebot"));
    bot.LoadDirectory([User("U999", "jokebot")], [Channel("C42", "general")]);
    bot.OnStart();
    d := bot.OnMessage(Event(Some("message"), Some("<@U999> joke please"), Some("D7"), Some("U1")));
  }
}
