/**
 * The closed `Emotion` type and the constant `emotionData` table that maps each
 * member to the emoji and title the result display shows.
 */
module Emotions {
  import opened Wrappers
  import opened Text

  datatype Emotion = Happy | Sad | Angry | Neutral | Excited | Fearful

  /** Every member of `Emotion`, in the table's order. */
  const AllEmotions: seq<Emotion> := [Happy, Sad, Angry, Neutral, Excited, Fearful]

  /** The string literal that stands for each member of the `Emotion` union type. */
  function Key(e: Emotion): (k: string)
    ensures |k| > 0 && IsLowerCase(k)
  {
    match e
    case Happy => "happy"
    case Sad => "sad"
    case Angry => "angry"
    case Neutral => "neutral"
    case Excited => "excited"
    case Fearful => "fearful"
  }

  datatype Display = Display(emoji: string, title: string)

  /** The `emotionData` record: one emoji and one title per member. */
  function Entry(e: Emotion): (d: Display)
    ensures |d.emoji| == 1
    ensures |d.title| > 0 && IsUpperAscii(d.title[0]) && IsLowerCase(d.title[1..])
  {
    match e
    case Happy => Display("\U{1F60A}", "Happy")
    case Sad => Display("\U{1F622}", "Sad")
    case Angry => Display("\U{1F620}", "Angry")
    case Neutral => Display("\U{1F610}", "Neutral")
    case Excited => Display("\U{1F603}", "Excited")
    case Fearful => Display("\U{1F628}", "Fearful")
  }

  /** The member of `Emotion` whose key is `k`, if there is one. */
  function FromKey(k: string): (r: Option<Emotion>)
    ensures forall e :: r == Some(e) <==> Key(e) == k
  {
    if k == "happy" then Some(Happy)
    else if k == "sad" then Some(Sad)
    else if k == "angry" then Some(Angry)
    else if k == "neutral" then Some(Neutral)
    else if k == "excited" then Some(Excited)
    else if k == "fearful" then Some(Fearful)
    else None
  }

  /** The table has exactly six entries, one per member, under six distinct keys. */
  lemma TableHasSixKeys()
    ensures |AllEmotions| == 6
    ensures forall e :: e in AllEmotions
    ensures forall i, j :: 0 <= i < j < |AllEmotions| ==> Key(AllEmotions[i]) != Key(AllEmotions[j])
  {
    forall e ensures e in AllEmotions {
      match e
      case Happy => assert AllEmotions[0] == e;
      case Sad => assert AllEmotions[1] == e;
      case Angry => assert AllEmotions[2] == e;
      case Neutral => assert AllEmotions[3] == e;
      case Excited => assert AllEmotions[4] == e;
      case Fearful => assert AllEmotions[5] == e;
    }
  }

  /** Every key is already lower case, so lower-casing a key gives the key back. */
  lemma KeyIsLowerCase(e: Emotion)
    ensures IsLowerCase(Key(e))
    ensures ToLower(Key(e)) == Key(e)
  {
    ToLowerOfLowerCase(Key(e));
  }

  /** Each entry's title, lower-cased, is its key: only the first letter differs, by case. */
  lemma TitleLowerIsKey(e: Emotion)
    ensures ToLower(Entry(e).title) == Key(e)
  {
    KeyIsLowerCase(e);
    var t, k := Entry(e).title, Key(e);
    assert |t| == |k| && LowerChar(t[0]) == k[0] && t[1..] == k[1..] by {
      match e
      case Happy =>
      case Sad =>
      case Angry =>
      case Neutral =>
      case Excited =>
      case Fearful =>
    }
    assert ToLower(t) == [LowerChar(t[0])] + k[1..];
  }
}
