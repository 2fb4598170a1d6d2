/** The `/add` conversation: the stages `SELECT_CATEGORY`, `OTHER_TYPE` and
    `AMOUNT` plus the ended state, the per-user `user_data` it reads and
    writes, and one pure function per handler. */
module Conversation {
  import opened Options
  import opened AmountText
  import opened Storage

  /** The category whose records carry a free-text subtype. */
  const OtherCategory: string := "boshqalar"

  /** The keyboard entry that abandons the conversation. */
  const CancelText: string := "bekor qilish"

  /** The options offered on the category keyboard, in keyboard order. */
  const Categories: seq<string> :=
    ["ovqatlanish", "transport", "kiyim", OtherCategory, CancelText]

  /** `End` is `ConversationHandler.END`: no conversation in progress. */
  datatype Stage = End | SelectCategory | OtherType | Amount

  /** `context.user_data`: the keys "category" and "other", each possibly
      absent. It belongs to the user, not to one conversation. */
  datatype UserData = UserData(category: Option<string>, other: Option<string>)

  const NoUserData := UserData(None, None)

  /** The messages the bot sends back. */
  datatype Reply =
    | Silent          // no handler answers
    | Help            // `/start`
    | ChooseCategory  // "Bo'limni tanlang:" with the category keyboard
    | Cancelled       // "Bekor qilindi."
    | AskOtherType    // "Qaysi turdagi sarf?"
    | AskAmount       // "Sarf miqdori (probelsiz):"
    | InvalidAmount   // the error reply of `amount`
    | Saved           // "Saqlandi ✅"

  function ReplyText(r: Reply): string {
    match r
    case Silent => ""
    case Help => "Salom \U{1F44B}\n\n/add - yangi harajat qo'shish\n/daily - bugungi hisobot"
    case ChooseCategory => "Bo'limni tanlang:"
    case Cancelled => "Bekor qilindi."
    case AskOtherType => "Qaysi turdagi sarf?"
    case AskAmount => "Sarf miqdori (probelsiz):"
    case InvalidAmount => "error: faqat raqam va probelsiz yozilsin, qaytadan boshlang"
    case Saved => "Saqlandi \U{2705}"
  }

  /** What one handler call produces: the next stage, the user's data after
      it, the reply, and the record it inserts, if any. */
  datatype Turn = Turn(stage: Stage, data: UserData, reply: Reply, record: Option<Record>)

  /** `add_start`: shows the category keyboard and enters `SELECT_CATEGORY`.
      Data left over from earlier conversations is kept. */
  function AddStart(data: UserData): (t: Turn)
    ensures t.stage == SelectCategory && t.reply == ChooseCategory
    ensures t.data == data && t.record == None
  {
    Turn(SelectCategory, data, ChooseCategory, None)
  }

  /** `select_category`: the cancel entry ends the conversation untouched;
      any other text, listed on the keyboard or not, becomes the category. */
  function SelectCategoryStep(data: UserData, text: string): (t: Turn)
    ensures t.record == None
    ensures text == CancelText ==> t.stage == End && t.data == data && t.reply == Cancelled
    ensures text != CancelText ==>
      && t.data == UserData(Some(text), data.other)
      && (t.stage == OtherType <==> text == OtherCategory)
      && (t.stage == Amount <==> text != OtherCategory)
      && (t.reply == AskOtherType <==> text == OtherCategory)
      && (t.reply == AskAmount <==> text != OtherCategory)
  {
    if text == CancelText then
      Turn(End, data, Cancelled, None)
    else
      var data' := data.(category := Some(text));
      if text == OtherCategory then Turn(OtherType, data', AskOtherType, None)
      else Turn(Amount, data', AskAmount, None)
  }

  /** `other_type`: any text becomes the subtype and the amount is asked for. */
  function OtherTypeStep(data: UserData, text: string): (t: Turn)
    ensures t.stage == Amount && t.reply == AskAmount && t.record == None
    ensures t.data.category == data.category && t.data.other == Some(text)
  {
    Turn(Amount, data.(other := Some(text)), AskAmount, None)
  }

  /** `amount`: text that is not an amount is refused and the conversation
      ends without a record; an amount inserts exactly one record built from
      the user's data as it stands, stale subtype included. */
  function AmountStep(data: UserData, text: string, user: int, day: int): (t: Turn)
    ensures t.stage == End && t.data == data
    ensures t.record.Some? <==> ValidAmount(text)
    ensures !ValidAmount(text) ==> t.reply == InvalidAmount
    ensures ValidAmount(text) ==>
      && t.reply == Saved
      && t.record.value.userId == user && t.record.value.day == day
      && t.record.value.amount == Parse(text)
      && t.record.value.category == data.category
      && t.record.value.other == data.other
  {
    if !ValidAmount(text) then
      Turn(End, data, InvalidAmount, None)
    else
      Turn(End, data, Saved, Some(Record(user, day, Parse(text), data.category, data.other)))
  }

  /** A text message from a user in `stage`: the handler registered for that
      stage runs. With no conversation in progress no handler of the core
      answers, and nothing changes. Only the amount stage stores, only the
      category stage writes the category, only the subtype stage writes the
      subtype, and the amount stage always ends the conversation. */
  function Step(stage: Stage, data: UserData, text: string, user: int, day: int): (t: Turn)
    ensures stage == End ==> t == Turn(End, data, Silent, None)
    ensures t.record.Some? <==> stage == Amount && ValidAmount(text)
    ensures stage == Amount ==> t.stage == End
    ensures t.stage == OtherType <==> stage == SelectCategory && text == OtherCategory
    ensures t.stage == Amount <==>
      stage == OtherType || (stage == SelectCategory && text != CancelText && text != OtherCategory)
    ensures t.data.category != data.category ==> stage == SelectCategory && t.data.category == Some(text)
    ensures t.data.other != data.other ==> stage == OtherType && t.data.other == Some(text)
  {
    match stage
    case End => Turn(End, data, Silent, None)
    case SelectCategory => SelectCategoryStep(data, text)
    case OtherType => OtherTypeStep(data, text)
    case Amount => AmountStep(data, text, user, day)
  }

  /** What a sequence of text messages does: final stage, final data, and the
      records inserted, in order. */
  datatype Trace = Trace(stage: Stage, data: UserData, records: seq<Record>)

  function Run(stage: Stage, data: UserData, texts: seq<string>, user: int, day: int): Trace
    decreases |texts|
  {
    if texts == [] then Trace(stage, data, [])
    else
      var t := Step(stage, data, texts[0], user, day);
      var rest := Run(t.stage, t.data, texts[1..], user, day);
      var inserted := if t.record.Some? then [t.record.value] else [];
      Trace(rest.stage, rest.data, inserted + rest.records)
  }

  /** What the stage guarantees about the user's data: `OTHER_TYPE` is only
      entered after "boshqalar" was chosen, and `AMOUNT` only after some
      category was chosen. It says nothing about the subtype. */
  ghost predicate Consistent(stage: Stage, data: UserData) {
    && (stage == OtherType ==> data.category == Some(OtherCategory))
    && (stage == Amount ==> data.category.Some?)
  }

  /** Every handler keeps the stage and the data consistent, and a record
      is only inserted with a category. */
  lemma StepConsistent(stage: Stage, data: UserData, text: string, user: int, day: int)
    requires Consistent(stage, data)
    ensures Consistent(Step(stage, data, text, user, day).stage, Step(stage, data, text, user, day).data)
    ensures Step(stage, data, text, user, day).record.Some? ==>
      Step(stage, data, text, user, day).record.value.category.Some?
  {
  }

  /** From a consistent start (in particular right after `add_start`) every
      stage reached is consistent, and every inserted record has a category. */
  lemma {:induction false} RunConsistent(stage: Stage, data: UserData, texts: seq<string>, user: int, day: int)
    requires Consistent(stage, data)
    ensures Consistent(Run(stage, data, texts, user, day).stage, Run(stage, data, texts, user, day).data)
    ensures forall r :: r in Run(stage, data, texts, user, day).records ==> r.category.Some?
    decreases |texts|
  {
    if texts != [] {
      var t := Step(stage, data, texts[0], user, day);
      StepConsistent(stage, data, texts[0], user, day);
      RunConsistent(t.stage, t.data, texts[1..], user, day);
    }
  }

  /** Once the conversation has ended, further text changes nothing. */
  lemma {:induction false} EndIsQuiet(data: UserData, texts: seq<string>, user: int, day: int)
    ensures Run(End, data, texts, user, day) == Trace(End, data, [])
    decreases |texts|
  {
    if texts != [] {
      EndIsQuiet(data, texts[1..], user, day);
    }
  }

  /** One conversation inserts at most one record, and the conversation is
      over once it has. */
  lemma {:induction false} AtMostOneRecord(stage: Stage, data: UserData, texts: seq<string>, user: int, day: int)
    ensures |Run(stage, data, texts, user, day).records| <= 1
    ensures |Run(stage, data, texts, user, day).records| == 1 ==> Run(stage, data, texts, user, day).stage == End
    decreases |texts|
  {
    if texts != [] {
      var t := Step(stage, data, texts[0], user, day);
      if t.record.Some? {
        EndIsQuiet(t.data, texts[1..], user, day);
      } else {
        AtMostOneRecord(t.stage, t.data, texts[1..], user, day);
      }
    }
  }

  /** Nothing removes a key from `user_data`: after any messages each key holds
      either its old value or one of the texts the user sent. */
  lemma {:induction false} UserDataOnlyOverwritten(stage: Stage, data: UserData, texts: seq<string>, user: int, day: int)
    ensures var d := Run(stage, data, texts, user, day).data;
      && (d.category == data.category || exists i :: 0 <= i < |texts| && d.category == Some(texts[i]))
      && (d.other == data.other || exists i :: 0 <= i < |texts| && d.other == Some(texts[i]))
    decreases |texts|
  {
    if texts != [] {
      var t := Step(stage, data, texts[0], user, day);
      UserDataOnlyOverwritten(t.stage, t.data, texts[1..], user, day);
      var d := Run(stage, data, texts, user, day).data;
      assert d == Run(t.stage, t.data, texts[1..], user, day).data;
      forall i | 0 <= i < |texts| - 1
        ensures texts[1..][i] == texts[i + 1]
      {
      }
    }
  }

}
