/**
 * The chatbot page (app/chatbot/page.tsx): an input line and a transcript
 * of lines that only grows. One send appends the user's line, posts it as a
 * single user turn, and appends one bot line read from the reply, or an
 * error line when the request fails.
 */
module Chatbot {
  import opened Wrappers
  import opened Text

  /** One turn of the request body `{ messages: [...] }`. */
  datatype Turn = Turn(role: string, content: string)

  datatype ChoiceMessage = ChoiceMessage(content: Option<string>)

  /** One entry of `choices`; its `message` may be missing. */
  datatype Choice = Choice(message: Option<ChoiceMessage>)

  /**
   * The JSON body of the reply: text that does not parse, or a value
   * whose `choices` is missing (or `null`) or is a list whose entries may be
   * missing.
   */
  datatype Body = Unparseable | Parsed(choices: Option<seq<Option<Choice>>>)

  /** How the `fetch` ended: it threw, or a response with its `ok` flag and body arrived. */
  datatype Outcome = Thrown | Response(ok: bool, body: Body)

  /** What the page makes of a reply. */
  datatype ReplyKind = Answer(content: string) | NoContent | Failure

  const UserPrefix: string := "You: "
  const BotPrefix: string := "Bot: "
  const NoResponseText: string := "No response from bot."
  const ErrorText: string := "Error - Could not get a response."

  /**
   * `data.choices[0]?.message?.content || 'No response from bot.'` inside
   * the `try`: a thrown fetch, a non-OK status, an unparseable body or a
   * missing `choices` all end in the `catch`; otherwise a non-empty first
   * content is the answer, and anything else is no content.
   */
  function Interpret(outcome: Outcome): (kind: ReplyKind)
    ensures kind.Failure? <==> outcome.Thrown? || !outcome.ok || outcome.body.Unparseable? || outcome.body.choices.None?
    ensures kind.Answer? <==> !kind.Failure? && |outcome.body.choices.value| > 0
                              && outcome.body.choices.value[0].Some?
                              && outcome.body.choices.value[0].value.message.Some?
                              && outcome.body.choices.value[0].value.message.value.content.Some?
                              && outcome.body.choices.value[0].value.message.value.content.value != []
    ensures kind.Answer? ==> kind.content != [] && kind.content == outcome.body.choices.value[0].value.message.value.content.value
  {
    match outcome
    case Thrown => Failure
    case Response(ok, body) =>
      if !ok then Failure
      else match body
        case Unparseable => Failure
        case Parsed(None) => Failure
        case Parsed(Some(choices)) =>
          if choices == [] || choices[0].None? then NoContent
          else match choices[0].value.message
            case None => NoContent
            case Some(m) => if m.content.None? || m.content.value == [] then NoContent else Answer(m.content.value)
  }

  /** The transcript line for a reply. */
  function BotLine(kind: ReplyKind): (line: string)
    ensures BotPrefix <= line
    ensures kind.Answer? ==> line[|BotPrefix|..] == kind.content
    ensures kind.NoContent? ==> line[|BotPrefix|..] == NoResponseText
    ensures kind.Failure? ==> line[|BotPrefix|..] == ErrorText
  {
    match kind
    case Answer(c) => BotPrefix + c
    case NoContent => BotPrefix + NoResponseText
    case Failure => BotPrefix + ErrorText
  }

  /** The bubble test `msg.startsWith('You:')`: such a line is drawn on the user's side. */
  predicate IsUserLine(line: string) {
    "You:" <= line
  }

  /** User lines are drawn on the user's side and bot lines never are. */
  lemma LinesLandOnTheirSide(message: string, kind: ReplyKind)
    ensures IsUserLine(UserPrefix + message)
    ensures !IsUserLine(BotLine(kind))
  {
    var line := BotLine(kind);
    assert line[0] == 'B';
  }

  /** The failure line and the no-content line differ, and an answer's line gives its content back. */
  lemma BotLinesTellRepliesApart(c1: string, c2: string)
    ensures BotLine(Failure) != BotLine(NoContent)
    ensures BotLine(Answer(c1)) == BotLine(Answer(c2)) <==> c1 == c2
  {
    assert BotLine(Failure)[|BotPrefix|] != BotLine(NoContent)[|BotPrefix|];
    if BotLine(Answer(c1)) == BotLine(Answer(c2)) {
      assert BotLine(Answer(c1))[|BotPrefix|..] == c1;
    }
  }

  class ChatbotPage {
    var message: string
    var chatHistory: seq<string>

    constructor ()
      ensures message == [] && chatHistory == []
    {
      message := [];
      chatHistory := [];
    }

    /** The input's `onChange`. */
    method SetMessage(text: string)
      modifies this
      ensures message == text && chatHistory == old(chatHistory)
    {
      message := text;
    }

    /**
     * `handleSendMessage` for one send at a time: a blank input sends
     * nothing and changes nothing. Otherwise the untrimmed input goes into
     * the transcript behind `You: `, the input is cleared, the request
     * carries the input as its only user turn, and the bot line for the
     * outcome follows. Earlier lines are never changed.
     */
    method HandleSendMessage(outcome: Outcome) returns (request: Option<seq<Turn>>)
      modifies this
      ensures AllWhitespace(old(message)) ==> request.None? && message == old(message) && chatHistory == old(chatHistory)
      ensures !AllWhitespace(old(message)) ==>
                request == Some([Turn("user", old(message))])
                && message == []
                && chatHistory == old(chatHistory) + [UserPrefix + old(message), BotLine(Interpret(outcome))]
      ensures old(chatHistory) <= chatHistory
    {
      if Trim(message) == [] {
        return None;
      }
      var sent := message;
      chatHistory := chatHistory + [UserPrefix + sent];
      message := [];
      request := Some([Turn("user", sent)]);
      chatHistory := chatHistory + [BotLine(Interpret(outcome))];
    }

    /** The input's `onKeyPress`: Enter sends (Shift is not looked at); other keys do nothing. */
    method HandleKeyPress(key: string, outcome: Outcome) returns (request: Option<seq<Turn>>)
      modifies this
      ensures key != "Enter" ==> request.None? && message == old(message) && chatHistory == old(chatHistory)
      ensures key == "Enter" && AllWhitespace(old(message)) ==>
                request.None? && message == old(message) && chatHistory == old(chatHistory)
      ensures key == "Enter" && !AllWhitespace(old(message)) ==>
                request == Some([Turn("user", old(message))])
                && message == []
                && chatHistory == old(chatHistory) + [UserPrefix + old(message), BotLine(Interpret(outcome))]
      ensures old(chatHistory) <= chatHistory
    {
      if key == "Enter" {
        request := HandleSendMessage(outcome);
      } else {
        request := None;
      }
    }
  }
}
