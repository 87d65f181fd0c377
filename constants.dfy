/** The emotion table and the platform's size constants. */
module Constants {
  import opened Types

  /** The canonical order of the sixteen emotions. */
  const Emotions: seq<Emotion> := [
    Hi, Thanks, Received, Bye,
    Confused, Happy, Crying, Angry,
    Fighting, GoodNight, Slacking, Shocked,
    Awkward, Love, OK, Speechless
  ]

  /** Side of a sticker in pixels. */
  const StickerSize: nat := 240
  /** Side of a thumbnail in pixels. */
  const ThumbSize: nat := 120
  /** Largest allowed file, in kilobytes. */
  const MaxFileSizeKb: nat := 100

  /** The caption label of each emotion. */
  function Label(e: Emotion): (r: string)
    ensures |r| == 2
  {
    match e
    case Hi => "你好"
    case Thanks => "谢谢"
    case Received => "收到"
    case Bye => "再见"
    case Confused => "疑惑"
    case Happy => "开心"
    case Crying => "大哭"
    case Angry => "生气"
    case Fighting => "加油"
    case GoodNight => "晚安"
    case Slacking => "摸鱼"
    case Shocked => "震惊"
    case Awkward => "尴尬"
    case Love => "比心"
    case OK => "好的"
    case Speechless => "无语"
  }

  /** The position of an emotion in the canonical order. */
  function IndexOf(e: Emotion): (k: nat)
    ensures k < |Emotions| && Emotions[k] == e
  {
    match e
    case Hi => 0
    case Thanks => 1
    case Received => 2
    case Bye => 3
    case Confused => 4
    case Happy => 5
    case Crying => 6
    case Angry => 7
    case Fighting => 8
    case GoodNight => 9
    case Slacking => 10
    case Shocked => 11
    case Awkward => 12
    case Love => 13
    case OK => 14
    case Speechless => 15
  }

  /** The table lists sixteen emotions, each at its own position, so it is a
      bijection between positions 0..15 and the emotion tags. */
  lemma EmotionsIsCanonicalOrder()
    ensures |Emotions| == 16
    ensures forall e: Emotion :: e in Emotions
    ensures forall k :: 0 <= k < |Emotions| ==> IndexOf(Emotions[k]) == k
  {
    forall e: Emotion
      ensures e in Emotions
    {
      assert Emotions[IndexOf(e)] == e;
    }
  }

  /** No emotion is listed twice. */
  lemma EmotionsDistinct()
    ensures forall i, j :: 0 <= i < j < |Emotions| ==> Emotions[i] != Emotions[j]
  {
    EmotionsIsCanonicalOrder();
    forall i, j | 0 <= i < j < |Emotions|
      ensures Emotions[i] != Emotions[j]
    {
      assert IndexOf(Emotions[i]) == i && IndexOf(Emotions[j]) == j;
    }
  }

  /** Two emotions with the same label are the same emotion. */
  lemma LabelInjective(a: Emotion, b: Emotion)
    requires Label(a) == Label(b)
    ensures a == b
  {
  }

  /** A thumbnail is half a sticker; both are positive. */
  lemma SizesConsistent()
    ensures 0 < ThumbSize && ThumbSize * 2 == StickerSize
    ensures MaxFileSizeKb == 100
  {
  }
}
