/** What the terminal's control sequences do, as the text a device sends. */
module TerminalControls {
  import opened Numbers
  import opened Terminal
  import JD = JunosDialect

  /** A control sequence with a number, as a device writes it. */
  function Control(n: nat, final: char): string {
    [ESC, '['] + JD.Decimal(n) + [final]
  }

  lemma {:induction false} DecimalReads(n: nat)
    ensures IsDecimal(JD.Decimal(n)) && ToInt(JD.Decimal(n)) == n
  {
    if n >= 10 {
      DecimalReads(n / 10);
      assert JD.Decimal(n)[..|JD.Decimal(n)| - 1] == JD.Decimal(n / 10);
    } else {
      assert JD.Decimal(n)[..0] == "";
    }
  }

  lemma {:induction false} DigitsCollect(t: Screen, s: string)
    requires t.Valid() && t.escape == Csi && AllDigits(s) && |t.parameters| + |s| <= PARAMETER_LIMIT
    ensures AfterFeed(t, s) == t.(parameters := t.parameters + s)
  {
    if s == "" {
      assert t.parameters + s == t.parameters;
    } else {
      DigitsCollect(t, s[..|s| - 1]);
      assert t.parameters + s == t.parameters + s[..|s| - 1] + [s[|s| - 1]];
    }
  }

  lemma ControlOpens(t: Screen, rest: string)
    requires t.Valid() && t.escape == Ground
    ensures AfterFeed(t, [ESC, '['] + rest) == AfterFeed(t.(escape := Csi, parameters := ""), rest)
  {
    var inner := ['['] + rest;
    var escaped := t.(escape := Esc);
    assert [ESC, '['] + rest == [ESC] + inner;
    FeedFirst(t, ESC, inner);
    assert AfterKey(t, ESC) == escaped;
    FeedFirst(escaped, '[', rest);
    assert AfterKey(escaped, '[') == t.(escape := Csi, parameters := "");
  }

  lemma ControlEnds(t: Screen, digits: string, final: char)
    requires t.Valid() && t.escape == Csi && t.parameters == "" && '@' <= final <= '~'
    requires AllDigits(digits) && |digits| <= PARAMETER_LIMIT
    ensures AfterFeed(t, digits + [final]) == AfterControl(t.(parameters := digits), final).(escape := Ground)
  {
    FeedInChunks(t, digits, [final]);
    DigitsCollect(t, digits);
    assert t.parameters + digits == digits;
    FeedOne(t.(parameters := digits), final);
  }

  /** A control sequence whose number fits takes effect with that number, and leaves the terminal at ground. */
  lemma ControlTyped(t: Screen, n: nat, final: char)
    requires t.Valid() && t.escape == Ground && |JD.Decimal(n)| <= PARAMETER_LIMIT && '@' <= final <= '~'
    ensures AfterFeed(t, Control(n, final))
         == AfterControl(t.(escape := Csi, parameters := JD.Decimal(n)), final).(escape := Ground)
  {
    DecimalReads(n);
    assert Control(n, final) == [ESC, '['] + (JD.Decimal(n) + [final]);
    ControlOpens(t, JD.Decimal(n) + [final]);
    ControlEnds(t.(escape := Csi, parameters := ""), JD.Decimal(n), final);
  }

  /** CUB of ECMA-48 within the line, a zero counting as one: back no further than its start; the line and what was
      emitted stay. */
  lemma CursorBack(t: Screen, n: nat)
    requires t.Valid() && t.escape == Ground && |JD.Decimal(n)| <= PARAMETER_LIMIT
    ensures var to := AfterFeed(t, Control(n, 'D'));
            to == t.(column := to.column, parameters := to.parameters) && to.column == Max(0, t.column - Max(1, n))
  {
    DecimalReads(n);
    ControlTyped(t, n, 'D');
  }

  /** CUF: forward no further than the line's end. */
  lemma CursorForward(t: Screen, n: nat)
    requires t.Valid() && t.escape == Ground && |JD.Decimal(n)| <= PARAMETER_LIMIT
    ensures var to := AfterFeed(t, Control(n, 'C'));
            to == t.(column := to.column, parameters := to.parameters) && to.column
                == Min(|t.line|, t.column + Max(1, n))
  {
    DecimalReads(n);
    ControlTyped(t, n, 'C');
  }

  /** CHA: to a column counted from one. */
  lemma CursorToColumn(t: Screen, n: nat)
    requires t.Valid() && t.escape == Ground && |JD.Decimal(n)| <= PARAMETER_LIMIT
    ensures var to := AfterFeed(t, Control(n, 'G'));
            to == t.(column := to.column, parameters := to.parameters) && to.column == Min(|t.line|, Max(1, n) - 1)
  {
    DecimalReads(n);
    ControlTyped(t, n, 'G');
  }

  /** EL of ECMA-48: 0 erases from the cursor on, 2 the whole line, anything else nothing here. */
  lemma Erases(t: Screen, n: nat)
    requires t.Valid() && t.escape == Ground && |JD.Decimal(n)| <= PARAMETER_LIMIT
    ensures var after := AfterFeed(t, Control(n, 'K'));
            && after.emitted == t.emitted && after.escape == Ground
            && after.line == (if n == 0 then t.line[..t.column] else if n == 2 then "" else t.line)
            && after.column == if n == 2 then 0 else t.column
  {
    DecimalReads(n);
    ControlTyped(t, n, 'K');
  }

  lemma RedrawErasing(t: Screen, zero: nat, text: string)
    requires t.Valid() && t.escape == Ground && zero == 0 && forall i :: 0 <= i < |text| ==> Printed(text[i])
    ensures var end := AfterFeed(t, ['\r'] + (Control(zero, 'K') + text));
            end.line == text && end.column == |text| && end.emitted == t.emitted && end.escape == Ground
  {
    var home, erase := t.(column := 0), Control(zero, 'K');
    FeedFirst(t, '\r', erase + text);
    assert AfterKey(t, '\r') == home;
    FeedInChunks(home, erase, text);
    Erases(home, zero);
    Overtype(AfterFeed(home, erase), text);
  }

  /** A line editor's redraw: return, erase from the cursor on, and the new text show that text alone, whatever the
      line and the cursor were. */
  lemma Redraw(t: Screen, text: string)
    requires t.Valid() && t.escape == Ground && forall i :: 0 <= i < |text| ==> Printed(text[i])
    ensures var end := AfterFeed(t, ['\r'] + (Control(0, 'K') + text));
            end.line == text && end.column == |text| && end.emitted == t.emitted && end.escape == Ground
  {
    RedrawErasing(t, 0, text);
  }
}
