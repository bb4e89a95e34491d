/** The Telegram mini-app's vertical swiper over the property list: the
    current index, the next/previous steps, the swipe threshold, the card
    classes and the render window, and the navigation bar. */
module PropertySwiper {

  /** The largest index the swiper can show; 0 for an empty list. */
  function LastIndex(count: nat): nat
  {
    if count == 0 then 0 else count - 1
  }

  /** `handleNext`: one card further, unless the last card is shown. */
  function NextIndex(index: nat, count: nat): (r: nat)
    ensures index < count - 1 ==> r == index + 1
    ensures index >= count - 1 ==> r == index
  {
    if index < count - 1 then index + 1 else index
  }

  /** `handlePrev`: one card back, unless the first card is shown. */
  function PrevIndex(index: nat): (r: nat)
    ensures index > 0 ==> r + 1 == index
    ensures index == 0 ==> r == 0
  {
    if index > 0 then index - 1 else index
  }

  /** Neither step leaves `[0, LastIndex(count)]`. */
  lemma StepsStayInRange(index: nat, count: nat)
    requires index <= LastIndex(count)
    ensures NextIndex(index, count) <= LastIndex(count)
    ensures PrevIndex(index) <= LastIndex(count)
  {
  }

  /** A step forward is undone by a step back, and a step back by a step
      forward, whenever the first step moved. */
  lemma StepsUndoEachOther(index: nat, count: nat)
    requires index <= LastIndex(count)
    ensures NextIndex(index, count) != index ==> PrevIndex(NextIndex(index, count)) == index
    ensures PrevIndex(index) != index ==> NextIndex(PrevIndex(index), count) == index
  {
  }

  /** What a finished touch does. */
  datatype Swipe = Stay | Forward | Back

  /** `handleTouchEnd` with `diff` the start height minus the end height: a
      movement of at most 50 pixels is ignored; an upward one goes forward,
      a downward one goes back. */
  function SwipeOf(diff: int): (s: Swipe)
    ensures s == Stay <==> -50 <= diff <= 50
    ensures s == Forward <==> diff > 50
    ensures s == Back <==> diff < -50
  {
    if (if diff < 0 then -diff else diff) > 50 then
      if diff > 0 then Forward else Back
    else Stay
  }

  /** The index after a swipe. */
  function AfterSwipe(index: nat, count: nat, s: Swipe): (r: nat)
    ensures s == Stay ==> r == index
    ensures r <= index + 1 && index <= r + 1
    ensures count > 0 && index <= LastIndex(count) ==> r <= LastIndex(count)
  {
    match s
    case Stay => index
    case Forward => NextIndex(index, count)
    case Back => PrevIndex(index)
  }

  /** A swipe is a button press: forward is the down button, back the up
      button, and a short touch changes nothing. */
  lemma SwipeIsButtonPress(index: nat, count: nat, diff: int)
    ensures -50 <= diff <= 50 ==> AfterSwipe(index, count, SwipeOf(diff)) == index
    ensures diff > 50 ==> AfterSwipe(index, count, SwipeOf(diff)) == NextIndex(index, count)
    ensures diff < -50 ==> AfterSwipe(index, count, SwipeOf(diff)) == PrevIndex(index)
  {
  }

  /** The class of card `i` relative to the shown card. */
  datatype CardClass = Active | Prev | Next

  function ClassOf(i: nat, index: nat): (c: CardClass)
    ensures c == Active <==> i == index
    ensures c == Prev <==> i < index
    ensures c == Next <==> i > index
  {
    if i == index then Active else if i < index then Prev else Next
  }

  /** Whether card `i` draws its property: the shown card and its two
      neighbours. */
  function Renders(i: nat, index: nat): (r: bool)
    ensures r <==> i == index || i + 1 == index || i == index + 1
  {
    (if i < index then index - i else i - index) <= 1
  }

  /** The rendered cards of a list: the active card, at most one card
      before it and at most one after it, so never more than three. */
  lemma RenderWindow(index: nat, count: nat)
    requires count > 0 && index <= LastIndex(count)
    ensures Renders(index, index) && ClassOf(index, index) == Active
    ensures forall i :: 0 <= i < count && Renders(i, index) ==> index - 1 <= i <= index + 1
    ensures forall i :: 0 <= i < count && Renders(i, index) && i != index ==>
              (i + 1 == index && ClassOf(i, index) == Prev) || (i == index + 1 && ClassOf(i, index) == Next)
    ensures |set i | 0 <= i < count && Renders(i, index)| <= 3
  {
    var window := set i | 0 <= i < count && Renders(i, index);
    var around: set<int> := if index == 0 then {0, 1} else {index - 1, index, index + 1};
    assert window <= around;
    SubsetSize(window, around);
  }

  lemma SubsetSize(a: set<int>, b: set<int>)
    requires a <= b
    ensures |a| <= |b|
  {
    assert b == a + (b - a);
  }

  /** The up button is disabled on the first card, the down button on the
      last; the counter shows the 1-based position and the length. */
  function UpDisabled(index: nat): (r: bool)
    ensures r <==> PrevIndex(index) == index
  {
    index == 0
  }

  function DownDisabled(index: nat, count: nat): (r: bool)
    ensures count > 0 && index <= LastIndex(count) ==> (r <==> NextIndex(index, count) == index)
    ensures count == 0 ==> !r
  {
    index == count - 1
  }

  function Counter(index: nat, count: nat): (r: (int, int))
    ensures r.0 == index + 1 && r.1 == count
  {
    (index + 1, count)
  }

  /** On a non-empty list the buttons are enabled exactly when pressing
      them moves, and the counter stays between 1 and the length. */
  lemma ButtonsMatchSteps(index: nat, count: nat)
    requires count > 0 && index <= LastIndex(count)
    ensures !UpDisabled(index) <==> PrevIndex(index) != index
    ensures !DownDisabled(index, count) <==> NextIndex(index, count) != index
    ensures 1 <= Counter(index, count).0 <= Counter(index, count).1
  {
  }

  /** On an empty list the down button is not disabled, though pressing it
      does nothing, and the counter reads "1 / 0". */
  lemma EmptyList()
    ensures UpDisabled(0) && !DownDisabled(0, 0)
    ensures NextIndex(0, 0) == 0
    ensures Counter(0, 0) == (1, 0)
  {
  }

  /** The swiper between renders: the shown index, and the steps whose
      300 ms timers have not fired yet, oldest first. */
  datatype Timed = Timed(index: int, queued: seq<Swipe>)

  /** A press (or long swipe) as written: the guard reads the index of the
      last render, and the step itself is queued behind the timer. */
  function PressAsWritten(st: Timed, count: nat, s: Swipe): (r: Timed)
    ensures r.index == st.index
    ensures s == Forward && st.index < count - 1 ==> r.queued == st.queued + [Forward]
    ensures s == Back && st.index > 0 ==> r.queued == st.queued + [Back]
    ensures s == Stay || (s == Forward && st.index >= count - 1) || (s == Back && st.index <= 0) ==> r == st
  {
    match s
    case Stay => st
    case Forward => if st.index < count - 1 then st.(queued := st.queued + [Forward]) else st
    case Back => if st.index > 0 then st.(queued := st.queued + [Back]) else st
  }

  /** The oldest timer fires as written: `prev => prev + 1` or
      `prev => prev - 1`, with no second look at the bounds. */
  function FireAsWritten(st: Timed): (r: Timed)
    requires st.queued != []
    ensures r.queued == st.queued[1..]
    ensures r.index == st.index + (if st.queued[0] == Forward then 1 else if st.queued[0] == Back then -1 else 0)
  {
    var step := if st.queued[0] == Forward then 1 else if st.queued[0] == Back then -1 else 0;
    Timed(st.index + step, st.queued[1..])
  }

  /** Two presses of the down button within 300 ms on the next-to-last card
      both pass the guard, and the index ends one past the last card; two
      quick presses of the up button on the second card end at -1. */
  lemma QuickPressesLeaveTheList(count: nat)
    requires count >= 2
    ensures var twice := PressAsWritten(PressAsWritten(Timed(count - 2, []), count, Forward), count, Forward);
            FireAsWritten(FireAsWritten(twice)).index == count > LastIndex(count)
    ensures var twice := PressAsWritten(PressAsWritten(Timed(1, []), count, Back), count, Back);
            FireAsWritten(FireAsWritten(twice)).index == -1
  {
    var fwd := PressAsWritten(PressAsWritten(Timed(count - 2, []), count, Forward), count, Forward);
    assert fwd.queued == [Forward, Forward];
    var back := PressAsWritten(PressAsWritten(Timed(1, []), count, Back), count, Back);
    assert back.queued == [Back, Back];
  }

  /** The oldest timer fires with the guard inside the update
      (`prev => prev < len - 1 ? prev + 1 : prev`, and likewise back): the
      step the buttons are meant to make, whenever it fires. */
  function FireGuarded(st: Timed, count: nat): (r: Timed)
    requires st.queued != []
    ensures r.queued == st.queued[1..]
    ensures 0 <= st.index <= LastIndex(count) ==> 0 <= r.index <= LastIndex(count)
    ensures 0 <= st.index ==> r.index == AfterSwipe(st.index, count, st.queued[0])
  {
    var i := st.index;
    var next := match st.queued[0]
      case Stay => i
      case Forward => if i < count - 1 then i + 1 else i
      case Back => if i > 0 then i - 1 else i;
    Timed(next, st.queued[1..])
  }

  /** With the guarded update, no interleaving of presses and timers leaves
      the list: every event keeps the index in range. */
  lemma GuardedEventsStayInRange(st: Timed, count: nat, s: Swipe)
    requires 0 <= st.index <= LastIndex(count)
    ensures 0 <= PressAsWritten(st, count, s).index <= LastIndex(count)
    ensures st.queued != [] ==> 0 <= FireGuarded(st, count).index <= LastIndex(count)
  {
  }

  /** The swiper's state: the shown index over a list of `count` cards. */
  class Swiper {
    var index: nat
    var count: nat

    ghost predicate Valid()
      reads this
    {
      index <= LastIndex(count)
    }

    constructor (count: nat)
      ensures Valid() && index == 0 && this.count == count
    {
      index := 0;
      this.count := count;
    }

    /** `handleNext`, with the animation delay taken as immediate. */
    method Next()
      requires Valid()
      modifies this
      ensures Valid() && count == old(count)
      ensures index == NextIndex(old(index), count)
    {
      if index < count - 1 {
        index := index + 1;
      }
    }

    /** `handlePrev`, with the animation delay taken as immediate. */
    method Prev()
      requires Valid()
      modifies this
      ensures Valid() && count == old(count)
      ensures index == PrevIndex(old(index))
    {
      if index > 0 {
        index := index - 1;
      }
    }

    /** `handleTouchEnd` for a touch from height `startY` to `endY`. */
    method TouchEnd(startY: int, endY: int)
      requires Valid()
      modifies this
      ensures Valid() && count == old(count)
      ensures index == AfterSwipe(old(index), count, SwipeOf(startY - endY))
    {
      var diff := startY - endY;
      var magnitude := if diff < 0 then -diff else diff;
      if magnitude > 50 {
        if diff > 0 {
          Next();
        } else {
          Prev();
        }
      }
    }
  }
}
