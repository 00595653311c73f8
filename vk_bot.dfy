/**
 * The event dispatch of vk_bot.py.
 *
 * The Redis `users_db` becomes the session map `users` (user to current
 * question), the question file the immutable `bank`, and every
 * `vk_api.messages.send` call one `Message` appended to `outbox`.
 */
module VkBot {
  import opened Wrappers
  import opened Questions

  type UserId = int

  /** The long-poll event types; only new messages are handled. */
  datatype EventType = MessageNew | OtherEvent

  /** An inbound event. `text` stands for both `event.text` and `event.message`. */
  datatype Event = Event(kind: EventType, toMe: bool, userId: UserId, text: string)

  /** One outbound `messages.send` call. */
  datatype Message = Message(userId: UserId, text: string)

  /** Why handling an event raises. */
  datatype BotError =
    | StoreFailed(cause: StoreError)   // get_random_question or get_answer raised
    | NoSession                        // users_db.get returned None and `.decode` was called on it

  /** The three commands of the reply keyboard. */
  const NewQuestionText := "Новый вопрос"
  const GiveUpText := "Сдаться"
  const ScoreText := "Мой счёт"

  const ScoreReply := "Десять Вассерманов из десяти. Вы великолепны!"
  const CongratulationReply := "Поздравляем! Ответ верен. Ещё разок?"

  function WelcomeReply(): string {
    "Добрый день! Нажмите \"" + NewQuestionText + "\" для начала игры."
  }

  function GiveUpReply(answer: string): string {
    "Правильный ответ: \"" + answer + "\""
  }

  function WrongAnswerReply(answer: string): string {
    "Неправильно :( Правильный ответ - \"" + answer + "\". Хотите попробовать ещё раз?"
  }

  predicate IsCommand(text: string) {
    text == NewQuestionText || text == GiveUpText || text == ScoreText
  }

  /** Whether handle_event acts on the event at all. */
  predicate IsDelivered(e: Event) {
    e.kind == MessageNew && e.toMe
  }

  /** What one event does: the session map afterwards, the messages sent in order, and whether it raised. */
  datatype Transition = Transition(users: map<UserId, string>, sent: seq<Message>, outcome: Outcome<BotError>)

  /**
   * handle_event as a function of the session map before the event; `pick` is
   * the question the random source chooses if one is asked for.
   */
  function Dispatch(bank: Bank, users: map<UserId, string>, e: Event, pick: string): (t: Transition)
    requires bank == map[] || pick in bank
    ensures t.users - {e.userId} == users - {e.userId}
    ensures t.users == users || (e.userId in t.users && t.users[e.userId] in bank)
    ensures forall i :: 0 <= i < |t.sent| ==> t.sent[i].userId == e.userId
    ensures !IsDelivered(e) ==> t.users == users && t.sent == []
  {
    var uid := e.userId;
    if !IsDelivered(e) then
      Transition(users, [], Pass)
    else if e.text == NewQuestionText then
      match GetRandomQuestion(bank, pick)
      case Failure(err) => Transition(users, [], Fail(StoreFailed(err)))
      case Success(q) => Transition(users[uid := q], [Message(uid, q)], Pass)
    else if e.text == GiveUpText then
      if uid !in users then
        Transition(users, [], Fail(NoSession))
      else
        match GetAnswer(bank, users[uid])
        case Failure(err) => Transition(users, [], Fail(StoreFailed(err)))
        case Success(answer) =>
          var q := GetRandomQuestion(bank, pick).value;
          Transition(users[uid := q], [Message(uid, GiveUpReply(answer)), Message(uid, q)], Pass)
    else if e.text == ScoreText then
      Transition(users, [Message(uid, ScoreReply)], Pass)
    else if uid !in users then
      Transition(users, [Message(uid, WelcomeReply())], Pass)
    else
      match GetAnswer(bank, users[uid])
      case Failure(err) => Transition(users, [], Fail(StoreFailed(err)))
      case Success(answer) =>
        var reply := if IsCorrectAnswer(e.text, answer) then CongratulationReply else WrongAnswerReply(answer);
        Transition(users, [Message(uid, reply)], Pass)
  }

  /** Every session holds a question of the bank. */
  ghost predicate SessionsInBank(bank: Bank, users: map<UserId, string>) {
    forall u :: u in users ==> users[u] in bank
  }

  /** The new-question command, with or without a session: the chosen question is stored and is the only message. */
  lemma NewQuestionCommand(bank: Bank, users: map<UserId, string>, e: Event, pick: string)
    requires IsDelivered(e) && e.text == NewQuestionText && pick in bank
    ensures var t := Dispatch(bank, users, e, pick);
      t.users == users[e.userId := pick] && t.sent == [Message(e.userId, pick)] && t.outcome == Pass
  {
  }

  /** The give-up command: the quoted answer, then the new question, which becomes the session. */
  lemma GiveUpCommand(bank: Bank, users: map<UserId, string>, e: Event, pick: string)
    requires IsDelivered(e) && e.text == GiveUpText && pick in bank
    requires e.userId in users && users[e.userId] in bank
    ensures var t := Dispatch(bank, users, e, pick);
      && t.users == users[e.userId := pick]
      && t.sent == [Message(e.userId, GiveUpReply(bank[users[e.userId]])), Message(e.userId, pick)]
      && t.outcome == Pass
  {
  }

  /** The give-up command needs a session: without one the handler raises before sending or storing anything. */
  lemma GiveUpWithoutSession(bank: Bank, users: map<UserId, string>, e: Event, pick: string)
    requires bank == map[] || pick in bank
    requires IsDelivered(e) && e.text == GiveUpText && e.userId !in users
    ensures Dispatch(bank, users, e, pick) == Transition(users, [], Fail(NoSession))
  {
  }

  /** The score command, in any session state: one fixed message, sessions untouched. */
  lemma ScoreCommand(bank: Bank, users: map<UserId, string>, e: Event, pick: string)
    requires bank == map[] || pick in bank
    requires IsDelivered(e) && e.text == ScoreText
    ensures Dispatch(bank, users, e, pick) == Transition(users, [Message(e.userId, ScoreReply)], Pass)
  {
  }

  /**
   * A user without a session is welcomed exactly when the text is not a
   * command: commands are matched before the session is looked up.
   */
  lemma WelcomeOnlyForPlainText(bank: Bank, users: map<UserId, string>, e: Event, pick: string)
    requires bank == map[] || pick in bank
    requires IsDelivered(e) && e.userId !in users
    ensures var t := Dispatch(bank, users, e, pick);
      (t.users == users && t.sent == [Message(e.userId, WelcomeReply())]) <==> !IsCommand(e.text)
  {
    assert ScoreReply[1] != WelcomeReply()[1];
  }

  /**
   * Plain text from a user with a session is an answer attempt: one message,
   * the congratulation exactly when the answer is correct; sessions untouched.
   */
  lemma SolutionAttempt(bank: Bank, users: map<UserId, string>, e: Event, pick: string)
    requires bank == map[] || pick in bank
    requires IsDelivered(e) && !IsCommand(e.text)
    requires e.userId in users && users[e.userId] in bank
    ensures var t := Dispatch(bank, users, e, pick);
      && t.users == users && t.outcome == Pass
      && |t.sent| == 1 && t.sent[0].userId == e.userId
      && (t.sent[0].text == CongratulationReply <==> IsCorrectAnswer(e.text, bank[users[e.userId]]))
  {
    var answer := bank[users[e.userId]];
    assert WrongAnswerReply(answer)[0] != CongratulationReply[0];
  }

  /** When every session holds a question of the bank, no event meets an unknown question, and that stays so. */
  lemma SessionsStayInBank(bank: Bank, users: map<UserId, string>, e: Event, pick: string)
    requires bank == map[] || pick in bank
    requires SessionsInBank(bank, users)
    ensures var t := Dispatch(bank, users, e, pick);
      SessionsInBank(bank, t.users) && t.outcome != Fail(StoreFailed(UnknownQuestion))
  {
    var t := Dispatch(bank, users, e, pick);
    forall u | u in t.users
      ensures t.users[u] in bank
    {
      if u != e.userId {
        assert u in t.users - {e.userId};
      }
    }
  }

  /** The bot's state: the question bank, the session store and the messages sent so far. */
  class QuizBot {
    const bank: Bank
    var users: map<UserId, string>
    var outbox: seq<Message>

    /** A bot over a question bank and a session store that may already hold entries. */
    constructor (bank: Bank, users: map<UserId, string>)
      ensures this.bank == bank && this.users == users && outbox == []
    {
      this.bank := bank;
      this.users := users;
      outbox := [];
    }

    /** handle_new_player: greet with the command keyboard; no session is written. */
    method HandleNewPlayer(e: Event)
      modifies this
      ensures users == old(users)
      ensures outbox == old(outbox) + [Message(e.userId, WelcomeReply())]
    {
      outbox := outbox + [Message(e.userId, WelcomeReply())];
    }

    /** handle_new_question_request: choose a question, store it as the session, send it. */
    method HandleNewQuestionRequest(e: Event, pick: string) returns (outcome: Outcome<BotError>)
      requires bank == map[] || pick in bank
      modifies this
      ensures bank == map[] ==>
        outcome == Fail(StoreFailed(DataUnavailable)) && users == old(users) && outbox == old(outbox)
      ensures bank != map[] ==>
        outcome == Pass && users == old(users)[e.userId := pick] && outbox == old(outbox) + [Message(e.userId, pick)]
    {
      var question := GetRandomQuestion(bank, pick);
      if question.Failure? {
        return Fail(StoreFailed(question.error));
      }
      users := users[e.userId := question.value];
      outbox := outbox + [Message(e.userId, question.value)];
      outcome := Pass;
    }

    /** handle_give_up_request: reveal the answer to the current question, then pose a new one. */
    method HandleGiveUpRequest(e: Event, pick: string) returns (outcome: Outcome<BotError>)
      requires bank == map[] || pick in bank
      requires e.userId in users
      modifies this
      ensures old(users[e.userId]) !in bank ==>
        outcome == Fail(StoreFailed(UnknownQuestion)) && users == old(users) && outbox == old(outbox)
      ensures old(users[e.userId]) in bank ==>
        && outcome == Pass
        && users == old(users)[e.userId := pick]
        && outbox == old(outbox) + [Message(e.userId, GiveUpReply(bank[old(users[e.userId])])), Message(e.userId, pick)]
    {
      var question := users[e.userId];
      var answer := GetAnswer(bank, question);
      if answer.Failure? {
        return Fail(StoreFailed(answer.error));
      }
      outbox := outbox + [Message(e.userId, GiveUpReply(answer.value))];
      match GetRandomQuestion(bank, pick)
      case Success(newQuestion) =>
        users := users[e.userId := newQuestion];
        outbox := outbox + [Message(e.userId, newQuestion)];
        outcome := Pass;
    }

    /** handle_solution_attempt: compare the text with the answer and send praise or the right answer. */
    method HandleSolutionAttempt(e: Event) returns (outcome: Outcome<BotError>)
      requires e.userId in users
      modifies this
      ensures users == old(users)
      ensures users[e.userId] !in bank ==>
        outcome == Fail(StoreFailed(UnknownQuestion)) && outbox == old(outbox)
      ensures users[e.userId] in bank ==>
        var answer := bank[users[e.userId]];
        && outcome == Pass
        && outbox == old(outbox) + [Message(e.userId,
             if IsCorrectAnswer(e.text, answer) then CongratulationReply else WrongAnswerReply(answer))]
    {
      var question := users[e.userId];
      var answer := GetAnswer(bank, question);
      if answer.Failure? {
        return Fail(StoreFailed(answer.error));
      }
      var reply;
      if IsCorrectAnswer(e.text, answer.value) {
        reply := CongratulationReply;
      } else {
        reply := WrongAnswerReply(answer.value);
      }
      outbox := outbox + [Message(e.userId, reply)];
      outcome := Pass;
    }

    /** handle_score_request: the fixed score message. */
    method HandleScoreRequest(e: Event)
      modifies this
      ensures users == old(users)
      ensures outbox == old(outbox) + [Message(e.userId, ScoreReply)]
    {
      outbox := outbox + [Message(e.userId, ScoreReply)];
    }

    /**
     * handle_event: commands are matched before the session is looked at; a
     * give-up without a session raises before anything is sent.
     */
    method HandleEvent(e: Event, pick: string) returns (outcome: Outcome<BotError>)
      requires bank == map[] || pick in bank
      modifies this
      ensures var t := Dispatch(bank, old(users), e, pick);
        users == t.users && outbox == old(outbox) + t.sent && outcome == t.outcome
      ensures SessionsInBank(bank, old(users)) ==> SessionsInBank(bank, users)
    {
      if !IsDelivered(e) {
        return Pass;
      }
      if e.text == NewQuestionText {
        outcome := HandleNewQuestionRequest(e, pick);
      } else if e.text == GiveUpText {
        if e.userId !in users {
          return Fail(NoSession);
        }
        outcome := HandleGiveUpRequest(e, pick);
      } else if e.text == ScoreText {
        HandleScoreRequest(e);
        outcome := Pass;
      } else if e.userId !in users {
        HandleNewPlayer(e);
        outcome := Pass;
      } else {
        outcome := HandleSolutionAttempt(e);
      }
    }
  }
}
