/**
 * The emotion tag a message may carry, and the three fixed tables keyed by
 * it: the composer's picker entries, and the badge icon and badge colour
 * used when a message is shown.
 */
module Emotions {
  import opened Wrappers
  import opened Lists
  import opened Text

  /** The five tags of the `emotion` union type. */
  datatype Emotion = Happy | Sad | Angry | Excited | Neutral

  /** The five tags in the order both the picker and the quick reactions list them. */
  const AllEmotions: seq<Emotion> := [Happy, Sad, Angry, Excited, Neutral]

  /** The string key the source passes around for a tag: a lower-case ASCII word. */
  function Key(e: Emotion): (k: string)
    ensures |k| >= 3 && forall i :: 0 <= i < |k| ==> 'a' <= k[i] <= 'z'
  {
    match e
    case Happy => "happy"
    case Sad => "sad"
    case Angry => "angry"
    case Excited => "excited"
    case Neutral => "neutral"
  }

  /** The tag a key names, if it names one: the inverse of `Key`. */
  function ParseKey(k: string): (r: Option<Emotion>)
    ensures r.Some? ==> Key(r.value) == k
    ensures r.None? ==> forall e: Emotion :: Key(e) != k
  {
    if k == "happy" then Some(Happy)
    else if k == "sad" then Some(Sad)
    else if k == "angry" then Some(Angry)
    else if k == "excited" then Some(Excited)
    else if k == "neutral" then Some(Neutral)
    else None
  }

  /** Every tag is listed once, and its key reads back as the same tag. */
  lemma AllEmotionsComplete(e: Emotion)
    ensures e in AllEmotions && ParseKey(Key(e)) == Some(e)
    ensures forall i, j :: 0 <= i < j < |AllEmotions| ==> AllEmotions[i] != AllEmotions[j]
  {
  }

  /** One entry of the composer's `emotions` table (its `label` is `caption` here; its icon is `Smile` for every entry). */
  datatype EmotionChoice = EmotionChoice(key: Emotion, caption: string, color: string)

  const EmotionChoices: seq<EmotionChoice> := [
    EmotionChoice(Happy, "Happy", "text-yellow-400"),
    EmotionChoice(Sad, "Sad", "text-blue-400"),
    EmotionChoice(Angry, "Angry", "text-red-400"),
    EmotionChoice(Excited, "Excited", "text-orange-400"),
    EmotionChoice(Neutral, "Neutral", "text-gray-400")
  ]

  function ChoiceKey(c: EmotionChoice): Emotion {
    c.key
  }

  /** The picker offers exactly the five tags, each once, in the standard order. */
  lemma EmotionChoicesAreAllEmotions()
    ensures Map(EmotionChoices, ChoiceKey) == AllEmotions
  {
  }

  function HasKey(e: Emotion): EmotionChoice -> bool {
    (c: EmotionChoice) => c.key == e
  }

  /** Where a tag's entry sits in the picker table. */
  function ChoiceIndex(e: Emotion): (i: nat)
    ensures i < |EmotionChoices| && EmotionChoices[i].key == e
    ensures forall j :: 0 <= j < i ==> EmotionChoices[j].key != e
  {
    match e
    case Happy => 0
    case Sad => 1
    case Angry => 2
    case Excited => 3
    case Neutral => 4
  }

  /** Each picker caption is its key with the first letter upper-cased. */
  lemma CaptionCapitalisesKey(e: Emotion)
    ensures EmotionChoices[ChoiceIndex(e)].caption == Initial(Key(e)) + Key(e)[1..]
  {
    var k := Key(e);
    assert ToUpper(k[0]) == EmotionChoices[ChoiceIndex(e)].caption[0];
  }

  /**
   * The label shown beside the composer for the selected tag,
   * `emotions.find(e => e.key === selected)?.label`: always found, and it is
   * the key with its first letter upper-cased.
   */
  function ChoiceLabel(e: Emotion): (shown: Option<string>)
    ensures shown.Some?
    ensures shown.value == Initial(Key(e)) + Key(e)[1..]
  {
    FindFirst(EmotionChoices, HasKey(e), ChoiceIndex(e));
    CaptionCapitalisesKey(e);
    match Find(EmotionChoices, HasKey(e))
    case Some(c) => Some(c.caption)
    case None => None
  }

  /** The lucide icons drawn on a message's emotion badge and quick-reaction buttons. */
  datatype Icon = SmileIcon | FrownIcon | AngryIcon | ZapIcon | HeartIcon

  /** The `emotionIcons` table of the message view. */
  function EmotionIcon(e: Emotion): Icon {
    match e
    case Happy => SmileIcon
    case Sad => FrownIcon
    case Angry => AngryIcon
    case Excited => ZapIcon
    case Neutral => HeartIcon
  }

  /** The `emotionColors` table of the message view. */
  function EmotionColor(e: Emotion): string {
    match e
    case Happy => "bg-yellow-400 text-yellow-900"
    case Sad => "bg-blue-400 text-blue-900"
    case Angry => "bg-red-400 text-red-900"
    case Excited => "bg-orange-400 text-orange-900"
    case Neutral => "bg-gray-400 text-gray-900"
  }

  /** Both badge tables cover every tag and tell the tags apart. */
  lemma BadgeTablesDistinguish(e1: Emotion, e2: Emotion)
    ensures EmotionIcon(e1) == EmotionIcon(e2) <==> e1 == e2
    ensures EmotionColor(e1) == EmotionColor(e2) <==> e1 == e2
  {
  }
}
