/** The pin selector: the fixed ten-pin layout, the selection the user
    toggles (a JavaScript Set, so its contents in insertion order), and the
    classification of each pin for display. */
module PinSelector {
  import opened Basics

  // ---------------------------------------------------------------------
  // Layout
  // ---------------------------------------------------------------------

  /** Rows from the back of the deck (7-10) to the head pin (1). */
  const PinPositions: seq<seq<int>> := [[7, 8, 9, 10], [4, 5, 6], [2, 3], [1]]

  function Flatten(rows: seq<seq<int>>): seq<int>
  {
    if rows == [] then [] else rows[0] + Flatten(rows[1..])
  }

  predicate NoDuplicates(s: seq<int>)
  {
    forall i, j :: 0 <= i < j < |s| ==> s[i] != s[j]
  }

  /** The layout has rows of 4, 3, 2 and 1 and shows each of the pins 1 to 10 once. */
  lemma LayoutHoldsEachPinOnce()
    ensures |PinPositions| == 4
    ensures |PinPositions[0]| == 4 && |PinPositions[1]| == 3
    ensures |PinPositions[2]| == 2 && |PinPositions[3]| == 1
    ensures |Flatten(PinPositions)| == 10
    ensures forall p :: p in Flatten(PinPositions) <==> 1 <= p <= 10
    ensures NoDuplicates(Flatten(PinPositions))
  {
    var rows := PinPositions;
    assert rows[3..][1..] == [];
    assert rows[2..][1..] == rows[3..];
    assert rows[1..][1..] == rows[2..];
    assert Flatten(rows) == [7, 8, 9, 10, 4, 5, 6, 2, 3, 1];
  }

  // ---------------------------------------------------------------------
  // Selection
  // ---------------------------------------------------------------------

  /** `Set.prototype.delete` on the contents in insertion order. */
  function Without(s: seq<int>, p: int): (r: seq<int>)
    ensures forall x :: x in r <==> x in s && x != p
    ensures NoDuplicates(s) ==> NoDuplicates(r)
    ensures p !in s ==> r == s
  {
    if s == [] then []
    else if s[0] == p then Without(s[1..], p)
    else
      assert NoDuplicates(s) ==> s[0] !in s[1..];
      [s[0]] + Without(s[1..], p)
  }

  /** What togglePin stores: the copy with `pin` deleted if it was there,
      added (at the end) if it was not. */
  function Toggled(s: seq<int>, pin: int): (r: seq<int>)
    ensures pin in r <==> pin !in s
    ensures forall x :: x != pin ==> (x in r <==> x in s)
    ensures NoDuplicates(s) ==> NoDuplicates(r)
  {
    if pin in s then Without(s, pin) else s + [pin]
  }

  /** Toggling the same pin twice restores which pins are selected. */
  lemma ToggleTwiceRestoresMembers(s: seq<int>, pin: int)
    ensures forall x :: x in Toggled(Toggled(s, pin), pin) <==> x in s
  {
  }

  /** ... and, for a pin that was not selected, the order too. */
  lemma {:induction false} ToggleTwiceRestoresNewPin(s: seq<int>, pin: int)
    requires pin !in s
    ensures Toggled(Toggled(s, pin), pin) == s
  {
    WithoutLast(s, pin);
  }

  lemma {:induction false} WithoutLast(s: seq<int>, pin: int)
    requires pin !in s
    ensures Without(s + [pin], pin) == s
  {
    if s != [] {
      assert (s + [pin])[1..] == s[1..] + [pin];
      WithoutLast(s[1..], pin);
    }
  }

  /** For a pin that was selected, the order need not come back: the pin
      returns at the end. */
  lemma ToggleTwiceCanReorder()
    ensures Toggled(Toggled([1, 2], 1), 1) == [2, 1]
  {
    assert Without([1, 2], 1) == [2] by {
      assert [1, 2][1..] == [2];
      assert [2][1..] == [];
    }
  }

  /** The props togglePin, handleSubmit and the styling read. */
  datatype Props = Props(
    disabled: bool,
    showAnswer: bool,
    correctPins: Option<seq<int>>,
    userGuess: Option<seq<int>>)

  class Selector {
    /** The `selectedPins` Set, in insertion order. */
    var selected: seq<int>

    ghost predicate Valid()
      reads this
    {
      NoDuplicates(selected)
    }

    constructor ()
      ensures Valid() && selected == []
    {
      selected := [];
    }

    /** Returns the array handed to `onPinsSelected`, or None when the
        selector is locked and nothing is reported. */
    method TogglePin(pin: int, props: Props) returns (reported: Option<seq<int>>)
      requires Valid()
      modifies this
      ensures Valid()
      ensures props.disabled || props.showAnswer ==> selected == old(selected) && reported.None?
      ensures !(props.disabled || props.showAnswer) ==>
        selected == Toggled(old(selected), pin) && reported == Some(selected)
    {
      if props.disabled || props.showAnswer {
        return None;
      }
      var next := selected;
      if pin in next {
        next := Without(next, pin);
      } else {
        next := next + [pin];
      }
      selected := next;
      reported := Some(next);
    }

    /** The array handed to `onSubmit`: exactly the selected pins, each once. */
    method HandleSubmit() returns (submitted: seq<int>)
      requires Valid()
      ensures NoDuplicates(submitted)
      ensures forall p :: p in submitted <==> p in selected
      ensures submitted == selected
    {
      submitted := selected;
    }
  }

  // ---------------------------------------------------------------------
  // Display classification
  // ---------------------------------------------------------------------

  datatype PinStyle =
    | GuessedStanding   // green: standing and guessed
    | MissedStanding    // red: standing, not guessed
    | GuessedFallen     // orange: guessed, but it fell
    | FallenUnguessed   // gray: fell, not guessed
    | Standing          // red: the answer alone, standing
    | Fallen            // gray: the answer alone, fallen
    | Selected          // blue: selected by the user
    | Unselected        // white

  /** getPinStyle: results mode when the answer and the user's guess are
      both given, answer mode with the answer alone, selection mode otherwise. */
  function StyleOf(pin: int, props: Props, selected: seq<int>): (st: PinStyle)
    ensures props.showAnswer && props.correctPins.Some? && props.userGuess.Some? ==>
      var standing := pin in props.correctPins.value;
      var guessed := pin in props.userGuess.value;
      && (st == GuessedStanding <==> standing && guessed)
      && (st == MissedStanding <==> standing && !guessed)
      && (st == GuessedFallen <==> !standing && guessed)
      && (st == FallenUnguessed <==> !standing && !guessed)
    ensures props.showAnswer && props.correctPins.Some? && props.userGuess.None? ==>
      && (st == Standing <==> pin in props.correctPins.value)
      && (st == Fallen <==> pin !in props.correctPins.value)
    ensures !(props.showAnswer && props.correctPins.Some?) ==>
      && (st == Selected <==> pin in selected)
      && (st == Unselected <==> pin !in selected)
  {
    if props.showAnswer && props.correctPins.Some? && props.userGuess.Some? then
      var wasCorrect := pin in props.correctPins.value;
      var wasGuessed := pin in props.userGuess.value;
      if wasCorrect && wasGuessed then GuessedStanding
      else if wasCorrect && !wasGuessed then MissedStanding
      else if !wasCorrect && wasGuessed then GuessedFallen
      else FallenUnguessed
    else if props.showAnswer && props.correctPins.Some? then
      if pin in props.correctPins.value then Standing else Fallen
    else
      if pin in selected then Selected else Unselected
  }

  /** getPinBorder: whether the pin gets the blue ring. */
  function Ring(pin: int, props: Props): (r: bool)
    ensures r ==> props.showAnswer && props.userGuess.Some?
    ensures props.showAnswer && props.userGuess.Some? ==> (r <==> pin in props.userGuess.value)
  {
    props.showAnswer && props.userGuess.Some? && pin in props.userGuess.value
  }

  /** The ring marks the user's guess and nothing else: it appears only when
      answers are shown, and in results mode it marks exactly the two
      "guessed" classes. */
  lemma RingMarksGuesses(pin: int, props: Props, selected: seq<int>)
    ensures !props.showAnswer || props.userGuess.None? ==> !Ring(pin, props)
    ensures props.showAnswer && props.userGuess.Some? ==> (Ring(pin, props) <==> pin in props.userGuess.value)
    ensures props.showAnswer && props.correctPins.Some? && props.userGuess.Some? ==>
      (Ring(pin, props) <==> StyleOf(pin, props, selected) in {GuessedStanding, GuessedFallen})
  {
  }

  /** In results mode two pins look alike exactly when they agree on
      standing and on guessed. */
  lemma ResultClassesSeparate(p: int, q: int, props: Props, selected: seq<int>)
    requires props.showAnswer && props.correctPins.Some? && props.userGuess.Some?
    ensures StyleOf(p, props, selected) == StyleOf(q, props, selected) <==>
      (p in props.correctPins.value <==> q in props.correctPins.value) &&
      (p in props.userGuess.value <==> q in props.userGuess.value)
  {
  }
}
