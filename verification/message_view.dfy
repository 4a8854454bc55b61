/**
 * One message as the chat shows it (components/chat/Message.tsx): the
 * avatar, the status dot, the emotion badge, the content, and the action
 * buttons. The component keeps no state; it is a function of its props.
 * The time label is not modelled.
 */
module MessageView {
  import opened Wrappers
  import opened Text
  import opened Lists
  import opened Emotions
  import opened Session

  /** The props: the message spread out, and `isOwn`, which may be left out. */
  datatype MessageProps = MessageProps(message: ChatMessage, isOwn: Option<bool>)

  datatype Avatar = Picture(url: string) | Letter(text: string)

  datatype Badge = Badge(text: string, icon: Icon, color: string)

  /** What a button does when clicked: the handler it calls and the arguments it passes. */
  datatype Action = EditAction(messageId: string) | DeleteAction(messageId: string) | ReactAction(messageId: string, emotion: Emotion)

  datatype View = View(avatar: Avatar, statusDot: Option<Status>, name: string, badge: Option<Badge>,
                       content: string, actions: seq<Action>)

  /** The avatar: the picture when the sender has a non-empty one, else the upper-cased first letter of the name. */
  function AvatarOf(sender: Sender): (a: Avatar)
    ensures a.Picture? <==> sender.avatar.Some? && sender.avatar.value != []
    ensures a.Picture? ==> a.url == sender.avatar.value
    ensures a.Letter? ==> a.text == Initial(sender.name) && |a.text| <= 1
  {
    if sender.avatar.Some? && sender.avatar.value != [] then Picture(sender.avatar.value) else Letter(Initial(sender.name))
  }

  /** The badge: present exactly when the message has an emotion, showing its name, icon and colours. */
  function BadgeOf(emotion: Option<Emotion>): (b: Option<Badge>)
    ensures b.None? <==> emotion.None?
    ensures b.Some? ==> b.value.text == Key(emotion.value) && b.value.icon == EmotionIcon(emotion.value)
                        && b.value.color == EmotionColor(emotion.value)
  {
    match emotion
    case None => None
    case Some(e) => Some(Badge(Key(e), EmotionIcon(e), EmotionColor(e)))
  }

  /** Two messages carry the same badge exactly when they carry the same emotion. */
  lemma BadgeDeterminesEmotion(e1: Option<Emotion>, e2: Option<Emotion>)
    ensures BadgeOf(e1) == BadgeOf(e2) <==> e1 == e2
  {
    if e1.Some? && e2.Some? {
      BadgeTablesDistinguish(e1.value, e2.value);
    }
  }

  function ReactWith(id: string): Emotion -> Action {
    (e: Emotion) => ReactAction(id, e)
  }

  /** The quick reactions: one per entry of the icon table, in its order, each passing the message id and its key. */
  function Reactions(id: string): (r: seq<Action>)
    ensures |r| == |AllEmotions|
    ensures forall i :: 0 <= i < |r| ==> r[i] == ReactAction(id, AllEmotions[i])
  {
    Map(AllEmotions, ReactWith(id))
  }

  /** Every emotion has its reaction button. */
  lemma ReactionsCoverAll(id: string)
    ensures forall e :: ReactAction(id, e) in Reactions(id)
  {
    var reactions := Reactions(id);
    forall e: Emotion ensures ReactAction(id, e) in reactions {
      AllEmotionsComplete(e);
      var i :| 0 <= i < |AllEmotions| && AllEmotions[i] == e;
      assert reactions[i] == ReactAction(id, e);
    }
  }

  /** The action row: Edit and Delete first, only on the reader's own message, then a reaction for every emotion. */
  function Actions(id: string, isOwn: bool): (r: seq<Action>)
    ensures EditAction(id) in r <==> isOwn
    ensures DeleteAction(id) in r <==> isOwn
    ensures forall e :: ReactAction(id, e) in r
  {
    var own := if isOwn then [EditAction(id), DeleteAction(id)] else [];
    ReactionsCoverAll(id);
    own + Reactions(id)
  }

  /** Every button of the row acts on the message it belongs to. */
  lemma ActionsTargetMessage(id: string, isOwn: bool)
    ensures forall i :: 0 <= i < |Actions(id, isOwn)| ==> Actions(id, isOwn)[i].messageId == id
  {
    var own := if isOwn then [EditAction(id), DeleteAction(id)] else [];
    var reactions := Reactions(id);
    assert forall a :: a in own ==> a.messageId == id;
    assert forall a :: a in reactions ==> a.messageId == id;
    assert Actions(id, isOwn) == own + reactions;
  }

  /** The component: `isOwn` defaults to `false`; the status dot appears exactly when the sender has a status. */
  function Render(props: MessageProps): (v: View)
    ensures v.avatar == AvatarOf(props.message.sender)
    ensures v.statusDot == props.message.sender.status
    ensures v.name == props.message.sender.name && v.content == props.message.content
    ensures v.badge == BadgeOf(props.message.emotion)
    ensures v.actions == Actions(props.message.id, props.isOwn.GetOr(false))
  {
    View(AvatarOf(props.message.sender), props.message.sender.status, props.message.sender.name,
         BadgeOf(props.message.emotion), props.message.content,
         Actions(props.message.id, props.isOwn.GetOr(false)))
  }

  /** Left out, `isOwn` means not own: no Edit and no Delete. */
  lemma IsOwnDefaultsToFalse(m: ChatMessage)
    ensures EditAction(m.id) !in Render(MessageProps(m, None)).actions
    ensures DeleteAction(m.id) !in Render(MessageProps(m, None)).actions
  {
  }

  function PageProps(m: ChatMessage): MessageProps {
    MessageProps(m, Some(IsOwn(m)))
  }

  /** The page's list: each message rendered with `isOwn` set from its sender id. */
  function MessageList(ms: seq<ChatMessage>): (views: seq<View>)
    ensures |views| == |ms|
    ensures forall i :: 0 <= i < |ms| ==> views[i] == Render(PageProps(ms[i]))
  {
    Map(Map(ms, PageProps), Render)
  }

  /** On the page, a message offers Edit and Delete exactly when it was sent from this browser. */
  lemma EditDeleteOnlyOnOwn(ms: seq<ChatMessage>)
    ensures forall i :: 0 <= i < |ms| ==> (EditAction(ms[i].id) in MessageList(ms)[i].actions <==> IsOwn(ms[i]))
    ensures forall i :: 0 <= i < |ms| ==> (DeleteAction(ms[i].id) in MessageList(ms)[i].actions <==> IsOwn(ms[i]))
  {
    var views := MessageList(ms);
    forall i | 0 <= i < |ms|
      ensures EditAction(ms[i].id) in views[i].actions <==> IsOwn(ms[i])
      ensures DeleteAction(ms[i].id) in views[i].actions <==> IsOwn(ms[i])
    {
      assert views[i].actions == Actions(ms[i].id, IsOwn(ms[i]));
    }
  }

  /** None of the welcome messages offers Edit or Delete. */
  lemma WelcomeMessagesLocked(now: int)
    ensures forall i :: 0 <= i < |SeedMessages(now)| ==>
              EditAction(SeedMessages(now)[i].id) !in MessageList(SeedMessages(now))[i].actions
              && DeleteAction(SeedMessages(now)[i].id) !in MessageList(SeedMessages(now))[i].actions
  {
    SeedMessagesNotOwn(now);
    EditDeleteOnlyOnOwn(SeedMessages(now));
  }
}
