/** The bot as a whole: per-user conversation stages and `user_data`, the
    shared expense log, and the commands and messages that act on them. */
module Bot {
  import opened Options
  import opened Storage
  import opened Conversation
  import Daily

  datatype Bot = Bot(stages: map<int, Stage>, userData: map<int, UserData>, log: Log)

  const Fresh := Bot(map[], map[], [])

  /** A user the bot has not heard from is in no conversation. */
  function StageOf(bot: Bot, user: int): Stage {
    if user in bot.stages then bot.stages[user] else End
  }

  /** A user the bot has not heard from has empty `user_data`. */
  function DataOf(bot: Bot, user: int): UserData {
    if user in bot.userData then bot.userData[user] else NoUserData
  }

  /** An update from one user. `AddCommand` is an update handed to
      `add_start`; `TextMessage` is a non-command text. */
  datatype Event = StartCommand | AddCommand | DailyCommand | TextMessage(text: string)

  datatype Response = Say(reply: Reply) | ShowReport(report: Daily.Report)

  /** One update from `user` on day `day`. Only that user's stage and data can
      change; the log only grows, by at most one record of that user's; `/start`
      and `/daily` change nothing. */
  function Handle(bot: Bot, user: int, event: Event, day: int): (res: (Bot, Response))
    ensures forall u :: u != user ==> StageOf(res.0, u) == StageOf(bot, u) && DataOf(res.0, u) == DataOf(bot, u)
    ensures res.0.log == bot.log ||
      (|res.0.log| == |bot.log| + 1 && res.0.log[..|bot.log|] == bot.log
       && res.0.log[|bot.log|].userId == user && res.0.log[|bot.log|].day == day)
    ensures event.StartCommand? ==> res == (bot, Say(Help))
    ensures event.DailyCommand? ==> res == (bot, ShowReport(Daily.DailyReport(bot.log, day)))
    ensures event.AddCommand? ==>
      && StageOf(res.0, user) == SelectCategory && DataOf(res.0, user) == DataOf(bot, user)
      && res.0.log == bot.log && res.1 == Say(ChooseCategory)
    ensures event.TextMessage? && StageOf(bot, user) == End ==>
      res.0.log == bot.log && res.1 == Say(Silent) && StageOf(res.0, user) == End
      && DataOf(res.0, user) == DataOf(bot, user)
  {
    match event
    case StartCommand => (bot, Say(Help))
    case DailyCommand => (bot, ShowReport(Daily.DailyReport(bot.log, day)))
    case AddCommand =>
      var t := AddStart(DataOf(bot, user));
      (bot.(stages := bot.stages[user := t.stage]), Say(t.reply))
    case TextMessage(text) =>
      var t := Step(StageOf(bot, user), DataOf(bot, user), text, user, day);
      var log' := Store(bot.log, t.record);
      assert t.record.Some? ==> log'[..|bot.log|] == bot.log;
      (Bot(bot.stages[user := t.stage], bot.userData[user := t.data], log'), Say(t.reply))
  }

  /** A user's updates in order, all on one day; the responses in order. */
  function Session(bot: Bot, user: int, events: seq<Event>, day: int): (Bot, seq<Response>)
    decreases |events|
  {
    if events == [] then (bot, [])
    else
      var h := Handle(bot, user, events[0], day);
      var rest := Session(h.0, user, events[1..], day);
      (rest.0, [h.1] + rest.1)
  }

  /** `/daily` reports without touching anything: any number of them leave
      the bot as it was. */
  lemma {:induction false} DailyIsReadOnly(bot: Bot, user: int, n: nat, day: int)
    ensures Session(bot, user, seq(n, _ => DailyCommand), day).0 == bot
    decreases n
  {
    if n > 0 {
      var es := seq(n, _ => DailyCommand);
      assert es[0] == DailyCommand;
      assert es[1..] == seq(n - 1, _ => DailyCommand);
      DailyIsReadOnly(bot, user, n - 1, day);
    }
  }

  /** A session of one user leaves every other user's stage and data alone. */
  lemma {:induction false} SessionIsolation(bot: Bot, user: int, events: seq<Event>, day: int, other: int)
    requires other != user
    ensures StageOf(Session(bot, user, events, day).0, other) == StageOf(bot, other)
    ensures DataOf(Session(bot, user, events, day).0, other) == DataOf(bot, other)
    decreases |events|
  {
    if events != [] {
      var (b, _) := Handle(bot, user, events[0], day);
      SessionIsolation(b, user, events[1..], day, other);
    }
  }

  /** Stored records are never changed or removed. */
  lemma {:induction false} LogIsAppendOnly(bot: Bot, user: int, events: seq<Event>, day: int)
    ensures |Session(bot, user, events, day).0.log| >= |bot.log|
    ensures Session(bot, user, events, day).0.log[..|bot.log|] == bot.log
    decreases |events|
  {
    if events != [] {
      var (b, _) := Handle(bot, user, events[0], day);
      LogIsAppendOnly(b, user, events[1..], day);
      var log' := Session(bot, user, events, day).0.log;
      assert log' == Session(b, user, events[1..], day).0.log;
      assert log'[..|b.log|][..|bot.log|] == log'[..|bot.log|];
    }
  }

  /** Unfolds a session by one update. */
  lemma SessionCons(bot: Bot, user: int, e: Event, rest: seq<Event>, day: int)
    ensures Session(bot, user, [e] + rest, day) ==
      (Session(Handle(bot, user, e, day).0, user, rest, day).0,
       [Handle(bot, user, e, day).1] + Session(Handle(bot, user, e, day).0, user, rest, day).1)
  {
    assert ([e] + rest)[0] == e && ([e] + rest)[1..] == rest;
  }

  /** Handles the last update of a session. */
  lemma SessionOne(bot: Bot, user: int, e: Event, day: int)
    ensures Session(bot, user, [e], day) == (Handle(bot, user, e, day).0, [Handle(bot, user, e, day).1])
  {
    assert [e] == [e] + [];
    SessionCons(bot, user, e, [], day);
    assert [Handle(bot, user, e, day).1] + [] == [Handle(bot, user, e, day).1];
  }

  /** `/add` from a user with no conversation in progress, a category other
      than "boshqalar", and an amount: exactly one record is stored, with that category, the
      amount's value, and whatever subtype the user's data still holds. */
  lemma {:induction false} PlainEntry(bot: Bot, user: int, category: string, amount: string, day: int)
    requires StageOf(bot, user) == End
    requires category != CancelText && category != OtherCategory && AmountText.ValidAmount(amount)
    ensures var (b, rs) := Session(bot, user, [AddCommand, TextMessage(category), TextMessage(amount)], day);
      && b.log == bot.log + [Record(user, day, AmountText.Parse(amount), Some(category), DataOf(bot, user).other)]
      && StageOf(b, user) == End
      && DataOf(b, user) == UserData(Some(category), DataOf(bot, user).other)
      && rs == [Say(ChooseCategory), Say(AskAmount), Say(Saved)]
  {
    var e1, e2, e3 := AddCommand, TextMessage(category), TextMessage(amount);
    var h1 := Handle(bot, user, e1, day);
    var h2 := Handle(h1.0, user, e2, day);
    SessionOne(h2.0, user, e3, day);
    SessionCons(h1.0, user, e2, [e3], day);
    SessionCons(bot, user, e1, [e2, e3], day);
    assert [e2] + [e3] == [e2, e3];
    assert [e1] + [e2, e3] == [e1, e2, e3];
  }

  /** `/add` from a user with no conversation in progress, "boshqalar", a
      subtype and an amount: exactly one record is stored, with category "boshqalar" and that subtype. */
  lemma {:induction false} OtherEntry(bot: Bot, user: int, subtype: string, amount: string, day: int)
    requires StageOf(bot, user) == End
    requires AmountText.ValidAmount(amount)
    ensures var (b, rs) := Session(bot, user,
        [AddCommand, TextMessage(OtherCategory), TextMessage(subtype), TextMessage(amount)], day);
      && b.log == bot.log + [Record(user, day, AmountText.Parse(amount), Some(OtherCategory), Some(subtype))]
      && StageOf(b, user) == End
      && DataOf(b, user) == UserData(Some(OtherCategory), Some(subtype))
      && rs == [Say(ChooseCategory), Say(AskOtherType), Say(AskAmount), Say(Saved)]
  {
    var e1, e2, e3, e4 := AddCommand, TextMessage(OtherCategory), TextMessage(subtype), TextMessage(amount);
    var h1 := Handle(bot, user, e1, day);
    var h2 := Handle(h1.0, user, e2, day);
    var h3 := Handle(h2.0, user, e3, day);
    SessionOne(h3.0, user, e4, day);
    SessionCons(h2.0, user, e3, [e4], day);
    SessionCons(h1.0, user, e2, [e3, e4], day);
    SessionCons(bot, user, e1, [e2, e3, e4], day);
    assert [e3] + [e4] == [e3, e4];
    assert [e2] + [e3, e4] == [e2, e3, e4];
    assert [e1] + [e2, e3, e4] == [e1, e2, e3, e4];
  }

  /** `/add` from a user with no conversation in progress, a category, and
      text that is not an amount: nothing is stored,
      the error is replied and the conversation is over. */
  lemma {:induction false} InvalidEntry(bot: Bot, user: int, category: string, text: string, day: int)
    requires StageOf(bot, user) == End
    requires category != CancelText && category != OtherCategory && !AmountText.ValidAmount(text)
    ensures var (b, rs) := Session(bot, user, [AddCommand, TextMessage(category), TextMessage(text)], day);
      && b.log == bot.log && StageOf(b, user) == End
      && rs == [Say(ChooseCategory), Say(AskAmount), Say(InvalidAmount)]
  {
    var e1, e2, e3 := AddCommand, TextMessage(category), TextMessage(text);
    var h1 := Handle(bot, user, e1, day);
    var h2 := Handle(h1.0, user, e2, day);
    SessionOne(h2.0, user, e3, day);
    SessionCons(h1.0, user, e2, [e3], day);
    SessionCons(bot, user, e1, [e2, e3], day);
    assert [e2] + [e3] == [e2, e3];
    assert [e1] + [e2, e3] == [e1, e2, e3];
  }

  /** `/add` from a user with no conversation in progress and "bekor qilish":
      nothing is stored, the user's data stay as
      they were, and the conversation is over. */
  lemma {:induction false} CancelEntry(bot: Bot, user: int, day: int)
    requires StageOf(bot, user) == End
    ensures var (b, rs) := Session(bot, user, [AddCommand, TextMessage(CancelText)], day);
      && b.log == bot.log && StageOf(b, user) == End && DataOf(b, user) == DataOf(bot, user)
      && rs == [Say(ChooseCategory), Say(Cancelled)]
  {
    var e1, e2 := AddCommand, TextMessage(CancelText);
    var h1 := Handle(bot, user, e1, day);
    SessionOne(h1.0, user, e2, day);
    SessionCons(bot, user, e1, [e2], day);
    assert [e1] + [e2] == [e1, e2];
  }

  /** `/add`, "ovqatlanish", "50000" from a new user stores one record without
      a subtype and acknowledges it. */
  lemma FoodScenario(user: int, day: int)
    ensures var (b, rs) := Session(Fresh, user, [AddCommand, TextMessage("ovqatlanish"), TextMessage("50000")], day);
      && b.log == [Record(user, day, 50000, Some("ovqatlanish"), None)]
      && rs == [Say(ChooseCategory), Say(AskAmount), Say(Saved)]
  {
    AmountText.ParseShow(50000);
    assert AmountText.Show(50000) == "50000";
    PlainEntry(Fresh, user, "ovqatlanish", "50000", day);
  }

  /** `/add`, "boshqalar", "kitob", "30000" stores one record with the subtype,
      and `/daily` that day lists it under "kitob". */
  lemma OtherScenario(user: int, day: int)
    ensures var (b, rs) := Session(Fresh, user, KitobEvents, day);
      && b.log == [KitobRecord(user, day)]
      && Daily.DailyReport(b.log, day) == Daily.Summary([Daily.Line(Some("kitob"), 30000)], 30000)
  {
    AmountText.ParseShow(30000);
    assert AmountText.Show(30000) == "30000";
    OtherEntry(Fresh, user, "kitob", "30000", day);
    KitobReport(KitobRecord(user, day), day);
  }

  const KitobEvents: seq<Event> :=
    [AddCommand, TextMessage(OtherCategory), TextMessage("kitob"), TextMessage("30000")]

  function KitobRecord(user: int, day: int): Record {
    Record(user, day, 30000, Some(OtherCategory), Some("kitob"))
  }

  lemma KitobReport(r: Record, day: int)
    requires r == KitobRecord(r.userId, day)
    ensures Daily.DailyReport([r], day) == Daily.Summary([Daily.Line(Some("kitob"), 30000)], 30000)
  {
    var log := [r];
    assert log[..0] == [];
    assert Daily.OnDay(log, day) == log;
    var k := Daily.Key(Some(OtherCategory), Some("kitob"));
    assert Daily.Keys(log) == [k];
    assert Daily.KeyTotal(log, k) == 30000;
    var row := Daily.Row(Some(OtherCategory), Some("kitob"), 30000);
    assert Daily.RowsFor([k], log) == [row];
    assert Daily.GroupRows(log, day) == [row];
    assert Daily.Label(row) == Some("kitob");
    assert Daily.Lines([row]) == [Daily.Line(Some("kitob"), 30000)];
    assert Daily.SumRows([row]) == 30000;
  }

  /** "abc" as an amount stores nothing. */
  lemma InvalidAmountScenario(user: int, day: int)
    ensures var (b, rs) := Session(Fresh, user, [AddCommand, TextMessage("transport"), TextMessage("abc")], day);
      && b.log == [] && StageOf(b, user) == End
      && rs == [Say(ChooseCategory), Say(AskAmount), Say(InvalidAmount)]
  {
    assert !AmountText.IsDigit("abc"[0]);
    InvalidEntry(Fresh, user, "transport", "abc", day);
  }

  /** `user_data` outlives the conversation: after a "boshqalar" entry, a
      later "transport" entry is stored with the old subtype "kitob". */
  lemma StaleSubtypeScenario(user: int, day: int)
    ensures var b := Session(Fresh, user, KitobEvents, day).0;
      var (b', _) := Session(b, user, [AddCommand, TextMessage("transport"), TextMessage("50")], day);
      && |b'.log| == 2
      && b'.log[1] == Record(user, day, 50, Some("transport"), Some("kitob"))
  {
    AmountText.ParseShow(30000);
    assert AmountText.Show(30000) == "30000";
    OtherEntry(Fresh, user, "kitob", "30000", day);
    StaleFrom(Session(Fresh, user, KitobEvents, day).0, user, day);
  }

  lemma StaleFrom(b: Bot, user: int, day: int)
    requires StageOf(b, user) == End
    requires |b.log| == 1 && DataOf(b, user).other == Some("kitob")
    ensures var (b', _) := Session(b, user, [AddCommand, TextMessage("transport"), TextMessage("50")], day);
      && |b'.log| == 2
      && b'.log[1] == Record(user, day, 50, Some("transport"), Some("kitob"))
  {
    AmountText.ParseShow(50);
    assert AmountText.Show(50) == "50";
    PlainEntry(b, user, "transport", "50", day);
  }

}
