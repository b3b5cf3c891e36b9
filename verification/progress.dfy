/**
  The progress strip: a bounded window over the session's cards, centred on
  the current card where possible, each entry numbered by its 1-based
  position in the whole session.
 */
module Progress {

  /** A card key: the numeric id of a real card, or the slot of a padding entry. */
  datatype Key = Number(value: real) | PlaceholderSlot(slot: nat)

  /** The status a card carries into the strip. */
  datatype Mark = Pending | Correct | Incorrect | Current

  /** The status an entry of the strip shows. */
  datatype Shown = Marked(mark: Mark) | Placeholder

  datatype ProgressCard = ProgressCard(id: Key, mark: Mark)

  datatype VisibleCard = VisibleCard(id: Key, status: Shown, displayIndex: int, isVisible: bool)

  /** The window width both screens ask for. */
  const DefaultMaxVisible: nat := 6

  function Min(a: int, b: int): (r: int)
    ensures r <= a && r <= b && (r == a || r == b)
  {
    if a <= b then a else b
  }

  function Max(a: int, b: int): (r: int)
    ensures r >= a && r >= b && (r == a || r == b)
  {
    if a >= b then a else b
  }

  /**
    First absolute position shown: centred on `current` (half the width
    before it, rounded down), then pulled back so that the window does not
    run past the last card.
   */
  function StartIndex(total: nat, current: int, maxVisible: nat): (s: nat)
    ensures s + Min(total, maxVisible) <= total
    ensures current - maxVisible / 2 >= 0 && current - maxVisible / 2 + maxVisible <= total
            ==> s == current - maxVisible / 2
    ensures total <= maxVisible ==> s == 0
    ensures s == Max(0, Min(current - maxVisible / 2, total - maxVisible))
  {
    var centred := Max(0, current - maxVisible / 2);
    if centred + maxVisible > total then Max(0, total - maxVisible) else centred
  }

  /** The entry a real card becomes at 0-based absolute position `pos`. */
  function Entry(card: ProgressCard, pos: int): VisibleCard {
    VisibleCard(card.id, Marked(card.mark), pos + 1, true)
  }

  /** The padding entry appended when the strip holds `slot` entries. */
  function PlaceholderEntry(slot: nat): VisibleCard {
    VisibleCard(PlaceholderSlot(slot), Placeholder, -1, false)
  }

  /**
    The padding loop: while fewer than `maxVisible` entries are present and
    padding is `enabled`, append a hidden placeholder. The source's loop
    guard has a second conjunct (enough cards in total) that never changes
    inside the loop; it arrives here as `enabled`.
   */
  function Pad(entries: seq<VisibleCard>, maxVisible: nat, enabled: bool): (r: seq<VisibleCard>)
    ensures |entries| <= |r|
    ensures r[..|entries|] == entries
    ensures !enabled || |entries| >= maxVisible ==> r == entries
    ensures enabled && |entries| < maxVisible ==> |r| == maxVisible
    ensures forall i :: |entries| <= i < |r| ==> r[i] == PlaceholderEntry(i)
    decreases maxVisible - |entries|
  {
    if |entries| < maxVisible && enabled then
      Pad(entries + [PlaceholderEntry(|entries|)], maxVisible, enabled)
    else
      entries
  }

  /** The real cards of the window, numbered by absolute position. */
  function Numbered(cards: seq<ProgressCard>, start: nat, end: nat): (r: seq<VisibleCard>)
    requires start <= end <= |cards|
    ensures |r| == end - start
    ensures forall i :: 0 <= i < |r| ==> r[i] == Entry(cards[start + i], start + i)
  {
    seq(end - start, i requires 0 <= i < end - start => Entry(cards[start + i], start + i))
  }

  /** The strip as the indicator computes it. */
  function VisibleCards(cards: seq<ProgressCard>, current: int, maxVisible: nat): (r: seq<VisibleCard>)
    ensures |r| == Min(|cards|, maxVisible)
    ensures var s := StartIndex(|cards|, current, maxVisible);
            forall i :: 0 <= i < |r| ==>
              && s + i < |cards|
              && r[i].id == cards[s + i].id
              && r[i].status == Marked(cards[s + i].mark)
              && r[i].displayIndex == s + i + 1
              && r[i].isVisible
  {
    var total := |cards|;
    var start := StartIndex(total, current, maxVisible);
    var end := Min(total, start + maxVisible);
    Pad(Numbered(cards, start, end), maxVisible, total >= maxVisible)
  }

  /** No entry of the strip is ever a placeholder. */
  lemma NoPlaceholderEverShown(cards: seq<ProgressCard>, current: int, maxVisible: nat, i: nat)
    requires i < |VisibleCards(cards, current, maxVisible)|
    ensures VisibleCards(cards, current, maxVisible)[i].status != Placeholder
  {
  }

  /** A current position inside the session is always inside the window. */
  lemma CurrentIsShown(cards: seq<ProgressCard>, current: int, maxVisible: nat)
    requires 0 <= current < |cards| && maxVisible >= 1
    ensures var s := StartIndex(|cards|, current, maxVisible);
            s <= current < s + |VisibleCards(cards, current, maxVisible)|
  {
  }

  /**
    The strip as evidently intended: padded with hidden placeholders up to
    the full width whenever fewer cards than that exist.
   */
  function PaddedVisibleCards(cards: seq<ProgressCard>, current: int, maxVisible: nat): (r: seq<VisibleCard>)
    ensures |r| == maxVisible
    ensures r[..Min(|cards|, maxVisible)] == VisibleCards(cards, current, maxVisible)
    ensures forall i :: Min(|cards|, maxVisible) <= i < maxVisible ==> r[i].status == Placeholder && !r[i].isVisible
  {
    var total := |cards|;
    var start := StartIndex(total, current, maxVisible);
    var end := Min(total, start + maxVisible);
    Pad(Numbered(cards, start, end), maxVisible, true)
  }

  /** As written, an empty session yields an empty strip rather than six placeholders. */
  lemma EmptySessionShowsNothing()
    ensures VisibleCards([], 0, DefaultMaxVisible) == []
    ensures |PaddedVisibleCards([], 0, DefaultMaxVisible)| == DefaultMaxVisible
  {
  }
}
