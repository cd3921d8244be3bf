/** The card-stack controller of the Flashcards screen: the list of cards that
    remain for the selected category, the drag offset of the front card, the
    dismiss-or-snap-back decision taken when a drag is released, the "Next"
    button, the reload of an emptied list, and the stacking of the rendered
    cards. Animations are atomic: each one ends at its target and its
    completion callback runs at once. */
module Flashcards {
  import opened FlashcardsData

  /** Release distance, on either axis, beyond which the front card is dismissed. */
  const Threshold := 100

  /** A drag offset or an animation target, in window units. */
  datatype Point = Point(x: int, y: int)

  /** The rest position of the front card. */
  const Origin := Point(0, 0)

  function Abs(n: int): nat { if n < 0 then -n else n }

  function Max(a: int, b: int): int { if a < b then b else a }

  /** What a released drag does to the front card. */
  datatype Outcome = Dismiss(target: Point) | SnapBack

  // ---------------------------------------------------------------------------
  // The release decision

  /** The decision taken on release with delta (dx, dy) in a window of the given
      size: dismiss when either magnitude exceeds the threshold, heading one full
      window beyond the edge on each axis, toward the positive edge only when the
      delta on that axis is positive. */
  function Decide(dx: int, dy: int, width: int, height: int): (o: Outcome)
    ensures o.Dismiss? <==> Max(Abs(dx), Abs(dy)) > Threshold
    ensures Abs(dx) <= Threshold && Abs(dy) <= Threshold ==> o == SnapBack
    ensures o.Dismiss? && dx > 0 ==> o.target.x == width
    ensures o.Dismiss? && dx <= 0 ==> o.target.x == -width
    ensures o.Dismiss? && dy > 0 ==> o.target.y == height
    ensures o.Dismiss? && dy <= 0 ==> o.target.y == -height
  {
    var isActionActive := Abs(dx) > Threshold || Abs(dy) > Threshold;
    if isActionActive then
      Dismiss(Point(if dx > 0 then width else -width, if dy > 0 then height else -height))
    else
      SnapBack
  }

  // ---------------------------------------------------------------------------
  // The remaining-card list

  /** `s` is a suffix of `t`: what is left of `t` after dropping some front cards. */
  predicate IsSuffix(s: seq<Card>, t: seq<Card>)
  {
    |s| <= |t| && s == t[|t| - |s|..]
  }

  /** The list without its front card; an empty list stays empty. */
  function Dropped(data: seq<Card>): (rest: seq<Card>)
    ensures data == [] ==> rest == []
    ensures data != [] ==> [data[0]] + rest == data
    ensures IsSuffix(rest, data)
  {
    if data == [] then [] else data[1..]
  }

  /** The list after the reload effect has looked at it: an empty list is
      replaced by the category's full list, any other is kept. */
  function Reloaded(data: seq<Card>, source: seq<Card>): (r: seq<Card>)
    ensures data != [] ==> r == data
    ensures r == [] <==> data == [] && source == []
  {
    if |data| == 0 then source else data
  }

  lemma IsSuffixTransitive(a: seq<Card>, b: seq<Card>, c: seq<Card>)
    requires IsSuffix(a, b) && IsSuffix(b, c)
    ensures IsSuffix(a, c)
  {
    assert b[|b| - |a|..] == c[|c| - |a|..];
  }

  /** Dropping the front card of a suffix of the source leaves a suffix of it. */
  lemma DroppedKeepsSuffix(data: seq<Card>, source: seq<Card>)
    requires IsSuffix(data, source)
    ensures IsSuffix(Dropped(data), source)
    ensures |Dropped(data)| == if data == [] then 0 else |data| - 1
  {
    IsSuffixTransitive(Dropped(data), data, source);
  }

  /** The reload effect keeps the list a suffix of the source, restores the
      whole source once the list is empty, and never leaves it empty unless the
      source itself is. */
  lemma ReloadedKeepsSuffix(data: seq<Card>, source: seq<Card>)
    requires IsSuffix(data, source)
    ensures IsSuffix(Reloaded(data, source), source)
    ensures data == [] ==> Reloaded(data, source) == source
    ensures Reloaded(data, source) == [] <==> source == []
  {
  }

  // ---------------------------------------------------------------------------
  // The controller as a state machine over events

  /** What can happen to the controller: a pointer move, a pointer release,
      a press of "Next", and a run of the reload effect after a render. */
  datatype Event = Drag(dx: int, dy: int) | Lift(dx: int, dy: int) | NextPressed | EffectRan

  /** The controller's mutable state: the remaining cards and the drag offset. */
  datatype StackState = StackState(data: seq<Card>, offset: Point)

  /** Removal of the front card, ending every dismiss: the list loses its first
      card and the offset returns to rest. */
  function RemoveFront(s: StackState): (t: StackState)
    ensures t.offset == Origin
    ensures s.data == [] ==> t.data == []
    ensures s.data != [] ==> [s.data[0]] + t.data == s.data
  {
    StackState(Dropped(s.data), Origin)
  }

  /** One event applied to the state of a controller over `source` in a window
      of the given size. */
  function Step(s: StackState, e: Event, source: seq<Card>, width: int, height: int): (t: StackState)
    ensures e.Drag? ==> t == StackState(s.data, Point(e.dx, e.dy))
    ensures e.Lift? || e.NextPressed? ==> t.offset == Origin
    ensures e.Lift? && Decide(e.dx, e.dy, width, height) == SnapBack ==> t.data == s.data
    ensures e.NextPressed? || (e.Lift? && Decide(e.dx, e.dy, width, height).Dismiss?) ==>
              t.data == Dropped(s.data)
    ensures e.EffectRan? ==> t.offset == s.offset && (s.data != [] ==> t.data == s.data)
    ensures e.EffectRan? && s.data == [] ==> t.data == source
    ensures !e.EffectRan? ==> IsSuffix(t.data, s.data)
  {
    match e
    case Drag(dx, dy) => StackState(s.data, Point(dx, dy))
    case Lift(dx, dy) =>
      if Decide(dx, dy, width, height).Dismiss? then RemoveFront(s) else StackState(s.data, Origin)
    case NextPressed => RemoveFront(s)
    case EffectRan => StackState(Reloaded(s.data, source), s.offset)
  }

  /** Events applied in order. */
  function Run(s: StackState, events: seq<Event>, source: seq<Card>, width: int, height: int): (r: StackState)
    ensures (forall i :: 0 <= i < |events| ==> !events[i].EffectRan?) ==> IsSuffix(r.data, s.data)
    decreases |events|
  {
    if events == [] then s
    else
      var t := Step(s, events[0], source, width, height);
      var r := Run(t, events[1..], source, width, height);
      if !events[0].EffectRan? && IsSuffix(r.data, t.data) then
        IsSuffixTransitive(r.data, t.data, s.data);
        r
      else
        r
  }

  /** No event takes the list outside the suffixes of the source. */
  lemma StepKeepsSuffix(s: StackState, e: Event, source: seq<Card>, width: int, height: int)
    requires IsSuffix(s.data, source)
    ensures IsSuffix(Step(s, e, source, width, height).data, source)
  {
    match e
    case Drag(_, _) =>
    case Lift(_, _) => DroppedKeepsSuffix(s.data, source);
    case NextPressed => DroppedKeepsSuffix(s.data, source);
    case EffectRan => ReloadedKeepsSuffix(s.data, source);
  }

  /** Starting from any suffix of the source (the initial list is the source
      itself), the list stays a suffix of the source whatever events follow. */
  lemma {:induction false} RunKeepsSuffix(s: StackState, events: seq<Event>, source: seq<Card>, width: int, height: int)
    requires IsSuffix(s.data, source)
    ensures IsSuffix(Run(s, events, source, width, height).data, source)
    decreases |events|
  {
    if events != [] {
      StepKeepsSuffix(s, events[0], source, width, height);
      RunKeepsSuffix(Step(s, events[0], source, width, height), events[1..], source, width, height);
    }
  }

  /** `k` presses of "Next" in a row. */
  function NextPresses(k: nat): (events: seq<Event>)
    ensures |events| == k && forall i :: 0 <= i < k ==> events[i] == NextPressed
  {
    seq(k, _ => NextPressed)
  }

  function Min(a: int, b: int): int { if a < b then a else b }

  /** Each press of "Next" removes exactly one front card and nothing else: after
      `k` presses the list has lost its first `k` cards (all of them, when it
      held fewer), the rest keeping their order. */
  lemma {:induction false} NextPressesDropPrefix(s: StackState, k: nat, source: seq<Card>, width: int, height: int)
    ensures Run(s, NextPresses(k), source, width, height).data == s.data[Min(k, |s.data|)..]
    decreases k
  {
    if k > 0 {
      var t := Step(s, NextPressed, source, width, height);
      assert NextPresses(k)[1..] == NextPresses(k - 1);
      NextPressesDropPrefix(t, k - 1, source, width, height);
      if s.data != [] {
        assert t.data[Min(k - 1, |t.data|)..] == s.data[Min(k, |s.data|)..];
      }
    }
  }

  // ---------------------------------------------------------------------------
  // Rendering

  /** How a card is drawn: with no transform, or moved by the live drag offset. */
  datatype Transform = Identity | Translate(delta: Point)

  /** What the render map produces for one card. */
  datatype CardView = CardView(card: Card, zIndex: int, dragHandlers: bool, transform: Transform)

  /** The render map over the remaining cards, in list order: the card at index
      i gets zIndex |data| - i, and only the front card receives the drag
      handlers and the drag offset as its transform. */
  function CardViews(data: seq<Card>, swipe: Point): (views: seq<CardView>)
    ensures |views| == |data|
    ensures forall i :: 0 <= i < |data| ==> views[i].card == data[i]
    ensures forall i :: 0 <= i < |data| ==> 1 <= views[i].zIndex <= |data|
    ensures forall i, j :: 0 <= i < j < |data| ==> views[i].zIndex > views[j].zIndex
    ensures forall i :: 0 <= i < |data| ==> (views[i].dragHandlers <==> i == 0)
    ensures forall i :: 0 <= i < |data| ==> (views[i].transform != Identity <==> i == 0)
    ensures data != [] ==> views[0].transform == Translate(swipe)
  {
    seq(|data|, i requires 0 <= i < |data| =>
      var isFirst := i == 0;
      CardView(data[i], |data| - i, isFirst, if isFirst then Translate(swipe) else Identity))
  }

  /** The sequence in reverse order. */
  function Reverse<T>(s: seq<T>): (r: seq<T>)
    ensures |r| == |s|
    ensures forall k :: 0 <= k < |s| ==> r[k] == s[|s| - 1 - k]
  {
    if s == [] then [] else Reverse(s[1..]) + [s[0]]
  }

  /** The cards as the screen lists them (the mapped views, reversed): the
      element at position k carries zIndex k + 1, so the drawing order agrees
      with the stacking order and the front card is drawn last, on top. */
  function Render(data: seq<Card>, swipe: Point): (views: seq<CardView>)
    ensures |views| == |data|
    ensures forall k :: 0 <= k < |data| ==> views[k].card == data[|data| - 1 - k] && views[k].zIndex == k + 1
    ensures data != [] ==> views[|data| - 1] == CardView(data[0], |data|, true, Translate(swipe))
    ensures forall k :: 0 <= k < |data| - 1 ==> !views[k].dragHandlers && views[k].transform == Identity
  {
    Reverse(CardViews(data, swipe))
  }

  /** A nonempty stack has exactly one interactive card: the front one. */
  lemma ExactlyOneInteractive(data: seq<Card>, swipe: Point)
    requires data != []
    ensures |set k | 0 <= k < |data| && Render(data, swipe)[k].dragHandlers| == 1
  {
    var views := Render(data, swipe);
    assert (set k | 0 <= k < |data| && views[k].dragHandlers) == {|data| - 1};
  }

  // ---------------------------------------------------------------------------
  // The controller

  /** One mounted Flashcards screen for one category. `width` and `height` are
      the window size captured when the gesture handlers were created. */
  class CardStack {
    const source: seq<Card>
    const width: int
    const height: int
    var data: seq<Card>
    var offset: Point

    /** The remaining cards are always what is left of the category's cards
        after dropping some from the front. */
    ghost predicate Valid()
      reads this
    {
      IsSuffix(data, source)
    }

    function State(): StackState
      reads this
    {
      StackState(data, offset)
    }

    /** Mounting the screen: the list starts as the category's cards, at rest. */
    constructor (category: Category, width: int, height: int)
      ensures Valid()
      ensures source == category.flashcards && this.width == width && this.height == height
      ensures data == category.flashcards && offset == Origin
    {
      source := category.flashcards;
      this.width := width;
      this.height := height;
      data := category.flashcards;
      offset := Origin;
    }

    /** A pointer move: the offset follows the latest reported delta. */
    method Move(dx: int, dy: int)
      requires Valid()
      modifies this
      ensures Valid()
      ensures data == old(data) && offset == Point(dx, dy)
      ensures State() == Step(old(State()), Drag(dx, dy), source, width, height)
    {
      offset := Point(dx, dy);
    }

    /** The completion of a dismiss: the front card goes, the offset is reset. */
    method RemoveCard()
      requires Valid()
      modifies this
      ensures Valid()
      ensures data == Dropped(old(data)) && offset == Origin
      ensures |data| == if old(data) == [] then 0 else |old(data)| - 1
      ensures State() == RemoveFront(old(State()))
    {
      DroppedKeepsSuffix(data, source);
      data := Dropped(data);
      offset := Origin;
    }

    /** A pointer release: a dismiss runs to its target and then removes the
        front card; a snap-back returns to rest and keeps every card. */
    method Release(dx: int, dy: int) returns (o: Outcome)
      requires Valid()
      modifies this
      ensures Valid()
      ensures o == Decide(dx, dy, width, height)
      ensures o.Dismiss? ==> data == Dropped(old(data))
      ensures o == SnapBack ==> data == old(data)
      ensures offset == Origin
      ensures State() == Step(old(State()), Lift(dx, dy), source, width, height)
    {
      o := Decide(dx, dy, width, height);
      if o.Dismiss? {
        offset := o.target;
        RemoveCard();
      } else {
        offset := Origin;
      }
    }

    /** The "Next" button: a dismiss toward (width, 0) whatever the offset,
        then the same removal of the front card. */
    method Next() returns (o: Outcome)
      requires Valid()
      modifies this
      ensures Valid()
      ensures o == Dismiss(Point(width, 0))
      ensures data == Dropped(old(data)) && offset == Origin
      ensures State() == Step(old(State()), NextPressed, source, width, height)
    {
      o := Dismiss(Point(width, 0));
      offset := o.target;
      RemoveCard();
    }

    /** The effect run after each render: an empty list is reloaded with the
        category's full list; the offset is untouched. */
    method ReloadIfEmpty()
      requires Valid()
      modifies this
      ensures Valid()
      ensures old(data) == [] ==> data == source
      ensures old(data) != [] ==> data == old(data)
      ensures offset == old(offset)
      ensures State() == Step(old(State()), EffectRan, source, width, height)
    {
      ReloadedKeepsSuffix(data, source);
      if |data| == 0 {
        data := source;
      }
    }
  }

  /** A client: three cards, two swipes past the threshold, a short drag that
      snaps back, a press of "Next", then the reload effect. */
  method Walkthrough(a: Card, b: Card, c: Card)
  {
    var stack := new CardStack(Category(1, "Engines", [a, b, c]), 400, 800);
    assert stack.data == [a, b, c];
    stack.Move(150, 0);
    var o := stack.Release(150, 0);
    assert o == Dismiss(Point(400, -800)) && stack.data == [b, c];
    o := stack.Release(-150, 20);
    assert o == Dismiss(Point(-400, 800)) && stack.data == [c];
    stack.Move(30, 0);
    assert stack.offset == Point(30, 0);
    o := stack.Release(30, 0);
    assert o == SnapBack && stack.data == [c] && stack.offset == Origin;
    o := stack.Release(100, -100);
    assert o == SnapBack && stack.data == [c];
    o := stack.Next();
    assert stack.data == [];
    stack.ReloadIfEmpty();
    assert stack.data == [a, b, c];
  }
}
