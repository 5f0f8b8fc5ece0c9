/** The `[pos->n] ` prefix that `error(msg, pos)` puts in front of a message. */
module Messages {
  import opened Core
  import opened Numbers

  /** `String(i)` for an integer. */
  function IntToString(i: int): string
  {
    if i < 0 then "-" + NatToString(-i) else NatToString(i)
  }

  /** The prefix is empty when no position is passed or the position is -1;
      otherwise it is `[pos->`, the position in decimal, and `] `. */
  function PositionPrefix(pos: Option<int>): (s: string)
    ensures s == "" <==> pos.None? || pos.value == -1
  {
    if pos.None? || pos.value == -1 then "" else "[pos->" + IntToString(pos.value) + "] "
  }

  /** The prefix of the message an error is thrown with. */
  function ErrorPrefix(e: Error): string
  {
    PositionPrefix(Position(e))
  }

  /** Only the three scanning errors carry a position. */
  lemma ErrorPrefixPresent(e: Error)
    ensures ErrorPrefix(e) != "" <==>
              (e.IllegalCharacter? || e.InvalidNumber? || e.UnmatchedParenthesis?) && e.pos != -1
  {
  }

  /** The number between `[pos->` and `] ` reads back as the position. */
  lemma {:induction false} PositionPrefixRoundTrip(p: nat)
    ensures var s := PositionPrefix(Some(p));
            |s| > 8 && s[..6] == "[pos->" && s[|s| - 2..] == "] "
            && AllDigits(s[6..|s| - 2]) && DigitsValue(s[6..|s| - 2]) == p
  {
    var s := PositionPrefix(Some(p));
    assert s == "[pos->" + NatToString(p) + "] ";
    assert s[6..|s| - 2] == NatToString(p);
  }
}
