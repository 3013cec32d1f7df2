/**
 The display of a stream of docker messages. Each layer's progress line is redrawn in
 place by moving the cursor up by the distance to that line, and down again.
 */
module ProgressDisplay {
  import opened Options
  import opened Screen

  datatype JSONError = JSONError(code: int, message: string)

  /** What the display reports to its caller. */
  datatype DisplayError = NoError | AuthenticationRequired | Reported(error: JSONError)

  /** A decoded message; `bar` is the text of its progress detail, `time` its formatted time. */
  datatype Message = Message(
    stream: string,
    status: string,
    bar: Option<string>,
    progressMessage: string,
    id: string,
    from: string,
    time: Option<string>,
    error: Option<JSONError>,
    aux: bool
  )

  /** The output: what the screen shows, and how many control sequences were sent. */
  class Output {
    var screen: Screen
    var controls: nat

    constructor (screen: Screen)
      ensures this.screen == screen && controls == 0
    {
      this.screen := screen;
      controls := 0;
    }

    method Print(text: string)
      modifies this`screen
      ensures screen == PutText(old(screen), text)
    {
      screen := PutText(screen, text);
    }

    /** A move by zero rows sends nothing. */
    method CursorUp(n: nat)
      modifies this
      ensures screen == Up(old(screen), n)
    {
      screen := Up(screen, n);
      controls := controls + if n == 0 then 0 else 1;
    }

    method CursorDown(n: nat)
      modifies this
      ensures screen == Down(old(screen), n)
    {
      screen := Down(screen, n);
      controls := controls + if n == 0 then 0 else 1;
    }

    method ClearLine()
      modifies this
      ensures screen == Erase(old(screen))
    {
      screen := Erase(screen);
      controls := controls + 1;
    }
  }

  function ErrorOf(jm: Message): DisplayError {
    if jm.error.None? then NoError
    else if jm.error.value.code == 401 then AuthenticationRequired
    else Reported(jm.error.value)
  }

  /** A message that has a line of its own. */
  predicate IsProgress(jm: Message) {
    jm.id != "" && (jm.bar.Some? || jm.progressMessage != "")
  }

  /** Is the message drawn as a bar in place of the line's old text? */
  predicate Redraws(jm: Message, isTerminal: bool) {
    isTerminal && jm.stream == "" && jm.bar.Some?
  }

  /** Is the message suppressed: a bar that is not drawn in place? */
  predicate Suppressed(jm: Message, isTerminal: bool) {
    !Redraws(jm, isTerminal) && jm.bar.Some? && jm.bar.value != ""
  }

  /** What precedes the status. */
  function Heading(jm: Message): string {
    (if jm.time.Some? then jm.time.value + " " else "")
    + (if jm.id != "" then jm.id + ": " else "")
    + (if jm.from != "" then "(from " + jm.from + ") " else "")
  }

  /** The line a redrawn message shows. */
  function Rendered(jm: Message): string
    requires jm.bar.Some?
  {
    Heading(jm) + (jm.status + " " + jm.bar.value)
  }

  /** Heading and text of a message that is printed at the cursor. */
  function Printed(jm: Message, isTerminal: bool): string {
    Heading(jm)
    + if jm.bar.Some? && isTerminal then jm.status + " " + jm.bar.value
      else if jm.progressMessage != "" then jm.status + " " + jm.progressMessage
      else if jm.stream != "" then jm.stream
      else jm.status + "\n"
  }

  /** The screen after one message is displayed where the cursor is. */
  function Displayed(sc: Screen, jm: Message, isTerminal: bool): Screen {
    if ErrorOf(jm) != NoError then sc
    else if Redraws(jm, isTerminal) then PutText(PutText(PutText(Erase(sc), "\r"), Rendered(jm)), "\r")
    else if Suppressed(jm, isTerminal) then sc
    else PutText(sc, Printed(jm, isTerminal))
  }

  /** Prints the optional pieces before the status. */
  method PrintHeading(jm: Message, out: Output)
    modifies out`screen
    ensures out.screen == PutText(old(out.screen), Heading(jm))
    ensures Heading(jm) == (if jm.time.Some? then jm.time.value + " " else "")
                           + (if jm.id != "" then jm.id + ": " else "")
                           + (if jm.from != "" then "(from " + jm.from + ") " else "")
  {
    hide PutText;
    ghost var start := out.screen;
    ghost var time := if jm.time.Some? then jm.time.value + " " else "";
    ghost var id := if jm.id != "" then jm.id + ": " else "";
    ghost var from := if jm.from != "" then "(from " + jm.from + ") " else "";
    PutNothing(start);
    if jm.time.Some? {
      out.Print(jm.time.value + " ");
    }
    PutNothing(out.screen);
    PutTextAppend(start, time, id);
    if jm.id != "" {
      out.Print(jm.id + ": ");
    }
    PutNothing(out.screen);
    PutTextAppend(start, time + id, from);
    if jm.from != "" {
      out.Print("(from " + jm.from + ") ");
    }
  }

  lemma PutNothing(sc: Screen)
    ensures PutText(sc, "") == sc
  {
  }

  /** Displays one message, printing piece by piece. */
  method Display(jm: Message, out: Output, isTerminal: bool) returns (error: DisplayError)
    modifies out
    ensures error == ErrorOf(jm)
    ensures match jm.error
            case None => error == NoError
            case Some(e) => error == if e.code == 401 then AuthenticationRequired else Reported(e)
    ensures out.screen == Displayed(old(out.screen), jm, isTerminal)
    ensures !isTerminal ==> out.controls == old(out.controls)
  {
    hide PutText, Heading;
    if jm.error.Some? {
      if jm.error.value.code == 401 {
        return AuthenticationRequired;
      }
      return Reported(jm.error.value);
    }
    var endl := "";
    if isTerminal && jm.stream == "" && jm.bar.Some? {
      out.ClearLine();
      endl := "\r";
      out.Print(endl);
    } else if jm.bar.Some? && jm.bar.value != "" {
      return NoError;
    }
    ghost var start := out.screen;
    PrintHeading(jm, out);
    ghost var body :=
      if jm.bar.Some? && isTerminal then jm.status + " " + jm.bar.value
      else if jm.progressMessage != "" then jm.status + " " + jm.progressMessage
      else if jm.stream != "" then jm.stream
      else jm.status + "\n";
    PutTextAppend(start, Heading(jm), body);
    PutTextAppend(out.screen, body, endl);
    assert body + "" == body;
    if jm.bar.Some? && isTerminal {
      out.Print(jm.status + " " + jm.bar.value + endl);
    } else if jm.progressMessage != "" {
      out.Print(jm.status + " " + jm.progressMessage + endl);
    } else if jm.stream != "" {
      out.Print(jm.stream + endl);
    } else {
      assert jm.status + endl + "\n" == body;
      out.Print(jm.status + endl + "\n");
    }
    error := NoError;
  }

  /** A bar takes the whole line on a terminal; elsewhere it is not shown unless its text is empty. */
  lemma BarReads(sc: Screen, jm: Message)
    requires jm.error.None? && Plain(jm) && jm.bar.Some?
    ensures jm.stream == "" ==>
              var after := Displayed(sc, jm, true);
              && after.row == sc.row
              && LineAt(after.lines, sc.row) == Heading(jm) + (jm.status + " " + jm.bar.value)
    ensures jm.bar.value != "" ==> Displayed(sc, jm, false) == sc
  {
    hide PutText, Heading;
    if jm.stream == "" {
      RedrawLine(sc, Rendered(jm));
    }
  }

  /** Anything else is written on from the end of the line; a status ends the line. */
  lemma TextReads(sc: Screen, jm: Message, isTerminal: bool)
    requires jm.error.None? && Plain(jm) && OneLine(jm.stream) && jm.bar.None?
    requires sc.col == |LineAt(sc.lines, sc.row)|
    ensures var after := Displayed(sc, jm, isTerminal);
            var text := if jm.progressMessage != "" then jm.status + " " + jm.progressMessage
                        else if jm.stream != "" then jm.stream else jm.status;
            && LineAt(after.lines, sc.row) == LineAt(sc.lines, sc.row) + (Heading(jm) + text)
            && (if jm.progressMessage == "" && jm.stream == "" then after.row == sc.row + 1 && after.col == 0 else after.row == sc.row)
  {
    hide PutText, Heading;
    var heading := Heading(jm);
    if jm.progressMessage == "" && jm.stream == "" {
      PutTextAppend(sc, heading + jm.status, "\n");
      assert Printed(jm, isTerminal) == heading + jm.status + "\n";
      PutTextAtEnd(sc, heading + jm.status);
      LineFeed(PutText(sc, heading + jm.status));
    } else {
      PutTextAtEnd(sc, Printed(jm, isTerminal));
    }
  }

  // ----- One message of a stream.

  type Ids = map<string, nat>

  /** The layers have the rows 0 to |ids| - 1, one each. */
  ghost predicate Lined(ids: Ids) {
    && (forall a | a in ids :: ids[a] < |ids|)
    && (forall a, b | a in ids && b in ids && ids[a] == ids[b] :: a == b)
  }

  /** A new layer gets the next row. */
  function WithLayer(ids: Ids, id: string): Ids {
    if id in ids then ids else ids[id := |ids|]
  }

  lemma WithLayerLined(ids: Ids, id: string)
    requires Lined(ids)
    ensures Lined(WithLayer(ids, id)) && id in WithLayer(ids, id)
    ensures forall a | a in ids :: a in WithLayer(ids, id) && WithLayer(ids, id)[a] == ids[a]
    ensures |WithLayer(ids, id)| == |ids| + if id in ids then 0 else 1
    ensures id !in ids ==> WithLayer(ids, id)[id] == |ids|
  {
  }

  datatype Shown = Shown(ids: Ids, screen: Screen, error: DisplayError)

  /** The layers and the screen after one message, by the relative moves of the cursor. */
  ghost function ShowOne(ids: Ids, sc: Screen, jm: Message, isTerminal: bool): (r: Shown)
    requires Lined(ids)
    ensures Lined(r.ids)
  {
    if jm.aux then Shown(ids, sc, NoError)
    else if IsProgress(jm) then
      WithLayerLined(ids, jm.id);
      var sc1 := if isTerminal && jm.id !in ids then PutText(sc, "\n") else sc;
      var sc2 := Displayed(if isTerminal then Up(sc1, Distance(ids, jm.id)) else sc1, jm, isTerminal);
      Shown(WithLayer(ids, jm.id), if isTerminal then Down(sc2, Distance(ids, jm.id)) else sc2, ErrorOf(jm))
    else Shown(map[], Displayed(sc, jm, isTerminal), ErrorOf(jm))
  }

  /** From the row below the layers up to the layer's row. */
  ghost function Distance(ids: Ids, id: string): nat
    requires Lined(ids)
  {
    if id in ids then |ids| - ids[id] else 1
  }

  /** The layers and the screen after a stream of messages; an error ends it. */
  ghost function ShowAll(ids: Ids, sc: Screen, msgs: seq<Message>, isTerminal: bool): (r: Shown)
    requires Lined(ids)
    ensures Lined(r.ids)
    decreases |msgs|
  {
    if msgs == [] then Shown(ids, sc, NoError)
    else
      var r := ShowOne(ids, sc, msgs[0], isTerminal);
      if r.error != NoError then r else ShowAll(r.ids, r.screen, msgs[1..], isTerminal)
  }

  lemma LayerDistance(ids: Ids, id: string)
    requires Lined(ids)
    ensures Lined(WithLayer(ids, id)) && id in WithLayer(ids, id)
    ensures WithLayer(ids, id)[id] < |WithLayer(ids, id)|
    ensures |WithLayer(ids, id)| - WithLayer(ids, id)[id] == Distance(ids, id)
  {
  }

  lemma ShowAllStep(ids: Ids, sc: Screen, msgs: seq<Message>, k: nat, isTerminal: bool)
    requires Lined(ids) && k < |msgs|
    ensures var r := ShowOne(ids, sc, msgs[k], isTerminal);
            ShowAll(ids, sc, msgs[k..], isTerminal)
            == if r.error != NoError then r else ShowAll(r.ids, r.screen, msgs[k + 1..], isTerminal)
  {
  }

  lemma NoLayersLined()
    ensures Lined(map[])
  {
  }

  lemma ShowNothing(ids: Ids, sc: Screen, isTerminal: bool)
    requires Lined(ids)
    ensures ShowAll(ids, sc, [], isTerminal) == Shown(ids, sc, NoError)
  {
  }

  /** The display loop. */
  method DisplayStream(msgs: seq<Message>, out: Output, isTerminal: bool) returns (error: DisplayError, ids: Ids)
    modifies out
    ensures Shown(ids, out.screen, error) == ShowAll(map[], old(out.screen), msgs, isTerminal)
    // What is no terminal gets no cursor move and no erasure.
    ensures !isTerminal ==> out.controls == old(out.controls)
  {
    hide PutText, Displayed, ShowAll, Lined, Distance;
    ids := map[];
    NoLayersLined();
    ghost var whole := ShowAll(map[], out.screen, msgs, isTerminal);
    for k := 0 to |msgs|
      invariant Lined(ids)
      invariant ShowAll(ids, out.screen, msgs[k..], isTerminal) == whole
      invariant !isTerminal ==> out.controls == old(out.controls)
    {
      var jm := msgs[k];
      ShowAllStep(ids, out.screen, msgs, k, isTerminal);
      if jm.aux {
        continue;
      }
      LayerDistance(ids, jm.id);
      var diff: nat := 0;
      if jm.id != "" && (jm.bar.Some? || jm.progressMessage != "") {
        if jm.id !in ids {
          ids := ids[jm.id := |ids|];
          if isTerminal {
            out.Print("\n");
          }
        }
        diff := |ids| - ids[jm.id];
        if isTerminal {
          out.CursorUp(diff);
        }
      } else {
        ids := map[];
      }
      error := Display(jm, out, isTerminal);
      if jm.id != "" && isTerminal {
        out.CursorDown(diff);
      }
      if error != NoError {
        return;
      }
    }
    error := NoError;
    ShowNothing(ids, out.screen, isTerminal);
    assert msgs[|msgs|..] == [];
  }

  // ----- Relative moves are absolute rows.

  /** Progress text that stays in one line. */
  ghost predicate OneLine(text: string) {
    '\n' !in text && '\r' !in text
  }

  /** Nothing a progress message prints breaks the line. */
  ghost predicate Plain(jm: Message) {
    && OneLine(Heading(jm)) && OneLine(jm.status) && OneLine(jm.progressMessage)
    && (jm.bar.Some? ==> OneLine(jm.bar.value))
  }

  /** Displaying a plain progress message changes its row only, and leaves the cursor in it. */
  lemma DisplayedInRow(sc: Screen, jm: Message)
    requires IsProgress(jm) && Plain(jm)
    ensures var after := Displayed(sc, jm, true);
            && after.row == sc.row && OnlyRow(sc.row, sc.lines, after.lines)
            && (ErrorOf(jm) == NoError && Redraws(jm, true) ==> LineAt(after.lines, sc.row) == Rendered(jm))
            && (ErrorOf(jm) != NoError ==> after == sc)
  {
    hide PutText, Heading;
    if ErrorOf(jm) == NoError {
      if Redraws(jm, true) {
        RedrawLine(sc, Rendered(jm));
      } else if !Suppressed(jm, true) {
        PutTextInRow(sc, Printed(jm, true));
      }
    }
  }

  /**
   One progress message on a terminal whose cursor rests below the layers: with the layers
   starting at row `base`, the message touches exactly row `base` plus its line, which
   stays its line, and the cursor rests below the layers again - one row further down
   just if the layer is new. An error message moves the cursor in the same way and
   draws nothing.
   */
  lemma ProgressIsAbsolute(ids: Ids, sc: Screen, jm: Message, base: nat)
    requires Lined(ids) && sc.row == base + |ids|
    requires !jm.aux && IsProgress(jm) && Plain(jm)
    ensures var r := ShowOne(ids, sc, jm, true);
            && Lined(r.ids) && jm.id in r.ids
            && (forall a | a in ids :: a in r.ids && r.ids[a] == ids[a])
            && r.screen.row == base + |r.ids| == sc.row + (if jm.id in ids then 0 else 1)
            && OnlyRow(base + r.ids[jm.id], sc.lines, r.screen.lines)
            && (ErrorOf(jm) == NoError && Redraws(jm, true) ==>
                  LineAt(r.screen.lines, base + r.ids[jm.id]) == Rendered(jm))
            && (ErrorOf(jm) != NoError ==> r.screen.lines == sc.lines)
  {
    hide PutText, Displayed, Rendered, Lined, Plain, Redraws;
    WithLayerLined(ids, jm.id);
    LayerDistance(ids, jm.id);
    LineFeed(sc);
    var sc1 := if jm.id !in ids then PutText(sc, "\n") else sc;
    DisplayedInRow(Up(sc1, Distance(ids, jm.id)), jm);
  }

  // ----- Whole streams.

  /** The latest text of the layers drawn as bars, told from the messages alone. */
  function LatestAfter(latest: map<string, string>, jm: Message): map<string, string> {
    if jm.aux then latest
    else if !IsProgress(jm) then map[]
    else if ErrorOf(jm) != NoError then latest
    else if Redraws(jm, true) then latest[jm.id := Rendered(jm)]
    else latest - {jm.id}
  }

  function Latest(latest: map<string, string>, msgs: seq<Message>): map<string, string>
    decreases |msgs|
  {
    if msgs == [] then latest
    else if !msgs[0].aux && ErrorOf(msgs[0]) != NoError then LatestAfter(latest, msgs[0])
    else Latest(LatestAfter(latest, msgs[0]), msgs[1..])
  }

  /**
   The screen during an epoch that began at row `base`: the cursor rests below the layers,
   and each layer in `latest` can be read on its own row.
   */
  ghost predicate Legible(ids: Ids, sc: Screen, base: nat, latest: map<string, string>) {
    && Lined(ids) && sc.row == base + |ids|
    && (forall a | a in latest :: a in ids && LineAt(sc.lines, base + ids[a]) == latest[a])
  }

  /** Is this a message that leaves the epoch as it is? */
  predicate Continues(jm: Message) {
    jm.aux || IsProgress(jm)
  }

  ghost predicate AllPlain(msgs: seq<Message>) {
    forall jm | jm in msgs && !jm.aux && IsProgress(jm) :: Plain(jm)
  }

  /** Rows outside the layers of an epoch are as before. */
  ghost predicate OutsideKept(base: nat, layers: nat, a: Lines, b: Lines) {
    forall row: nat | row < base || row >= base + layers :: LineAt(a, row) == LineAt(b, row)
  }

  lemma LegibleNext(ids: Ids, sc: Screen, jm: Message, base: nat, latest: map<string, string>) returns (base': nat)
    requires Legible(ids, sc, base, latest)
    requires !jm.aux && IsProgress(jm) ==> Plain(jm)
    ensures var r := ShowOne(ids, sc, jm, true);
            && Legible(r.ids, r.screen, base', LatestAfter(latest, jm))
            && (Continues(jm) ==>
                  && base' == base && |ids| <= |r.ids|
                  && (forall a | a in ids :: a in r.ids && r.ids[a] == ids[a])
                  && OutsideKept(base, |r.ids|, sc.lines, r.screen.lines))
  {
    base' := base;
    if !jm.aux {
      if IsProgress(jm) {
        hide ShowOne, LatestAfter, Legible;
        LegibleProgress(ids, sc, jm, base, latest);
      } else {
        base' := ShowOne(ids, sc, jm, true).screen.row;
      }
    }
  }

  lemma LegibleProgress(ids: Ids, sc: Screen, jm: Message, base: nat, latest: map<string, string>)
    requires Legible(ids, sc, base, latest)
    requires !jm.aux && IsProgress(jm) && Plain(jm)
    ensures var r := ShowOne(ids, sc, jm, true);
            && Legible(r.ids, r.screen, base, LatestAfter(latest, jm))
            && |ids| <= |r.ids|
            && (forall a | a in ids :: a in r.ids && r.ids[a] == ids[a])
            && OutsideKept(base, |r.ids|, sc.lines, r.screen.lines)
  {
    hide ShowOne, Plain, IsProgress, Redraws, Rendered, ErrorOf, LatestAfter;
    ProgressIsAbsolute(ids, sc, jm, base);
    var r := ShowOne(ids, sc, jm, true);
    LatestAfterProgress(latest, jm);
    StillLegible(ids, r.ids, jm.id, base, latest, sc.lines, r.screen.lines);
  }

  lemma LatestAfterProgress(latest: map<string, string>, jm: Message)
    requires !jm.aux && IsProgress(jm)
    ensures LatestAfter(latest, jm)
         == if ErrorOf(jm) != NoError then latest
            else if Redraws(jm, true) then latest[jm.id := Rendered(jm)] else latest - {jm.id}
  {
  }

  /** Drawing one layer's row leaves the other layers legible. */
  lemma StillLegible(ids: Ids, ids1: Ids, id: string, base: nat, latest: map<string, string>, a: Lines, b: Lines)
    requires Lined(ids1) && id in ids1 && (forall k | k in ids :: k in ids1 && ids1[k] == ids[k])
    requires forall k | k in latest :: k in ids && LineAt(a, base + ids[k]) == latest[k]
    requires OnlyRow(base + ids1[id], a, b)
    ensures forall k | k in latest && k != id :: k in ids1 && LineAt(b, base + ids1[k]) == latest[k]
    ensures OutsideKept(base, |ids1|, a, b)
  {
  }

  /**
   Row stability, for every stream of messages: at its end each layer of the current epoch
   that was last drawn as a bar shows exactly its latest text, on a row of its own. As
   long as the epoch lasts its base row and the lines of its layers stay fixed, and no row
   outside the layers is touched.
   */
  lemma {:induction false} RowsAreStable(ids: Ids, sc: Screen, msgs: seq<Message>, base: nat, latest: map<string, string>)
    returns (base': nat)
    requires Legible(ids, sc, base, latest) && AllPlain(msgs)
    ensures var r := ShowAll(ids, sc, msgs, true);
            && Legible(r.ids, r.screen, base', Latest(latest, msgs))
            && ((forall jm | jm in msgs :: Continues(jm)) ==>
                  && base' == base && |ids| <= |r.ids|
                  && (forall a | a in ids :: a in r.ids && r.ids[a] == ids[a])
                  && OutsideKept(base, |r.ids|, sc.lines, r.screen.lines))
    decreases |msgs|
  {
    hide ShowOne, Legible, LatestAfter, Plain, Continues, OutsideKept;
    LegibleMeans(ids, sc, base, latest);
    base' := base;
    if msgs != [] {
      var r := ShowOne(ids, sc, msgs[0], true);
      ShowOneError(ids, sc, msgs[0]);
      base' := LegibleNext(ids, sc, msgs[0], base, latest);
      if r.error == NoError {
        var base1 := base';
        base' := RowsAreStable(r.ids, r.screen, msgs[1..], base1, LatestAfter(latest, msgs[0]));
        var all := ShowAll(r.ids, r.screen, msgs[1..], true);
        OutsideKeptTwice(base, |r.ids|, |all.ids|, sc.lines, r.screen.lines, all.screen.lines);
      }
    } else {
      OutsideKeptTwice(base, |ids|, |ids|, sc.lines, sc.lines, sc.lines);
    }
  }

  lemma OutsideKeptTwice(base: nat, n: nat, m: nat, a: Lines, b: Lines, c: Lines)
    ensures OutsideKept(base, n, a, a)
    ensures n <= m && OutsideKept(base, n, a, b) && OutsideKept(base, m, b, c) ==> OutsideKept(base, m, a, c)
  {
  }

  lemma LegibleMeans(ids: Ids, sc: Screen, base: nat, latest: map<string, string>)
    requires Legible(ids, sc, base, latest)
    ensures Lined(ids)
  {
  }

  lemma ShowOneError(ids: Ids, sc: Screen, jm: Message)
    requires Lined(ids)
    ensures ShowOne(ids, sc, jm, true).error == if jm.aux then NoError else ErrorOf(jm)
  {
  }

  // ----- The end of an epoch.

  /** Whatever a message shows, the rows above the cursor are kept. */
  lemma DisplayedBelow(sc: Screen, jm: Message)
    ensures KeptAbove(sc, Displayed(sc, jm, true))
  {
    hide PutText, Printed, Rendered;
    if Redraws(jm, true) {
      var sc1 := Erase(sc);
      PutTextBelow(sc1, "\r");
      PutTextBelow(PutText(sc1, "\r"), Rendered(jm));
      PutTextBelow(PutText(PutText(sc1, "\r"), Rendered(jm)), "\r");
    } else {
      PutTextBelow(sc, Printed(jm, true));
    }
  }

  /** The layers are all below `floor`, and so is the cursor. */
  ghost predicate Below(ids: Ids, sc: Screen, floor: nat) {
    Lined(ids) && floor + |ids| <= sc.row
  }

  /** The rows above `floor` read the same. */
  ghost predicate SameAbove(floor: nat, a: Lines, b: Lines) {
    forall row: nat | row < floor :: LineAt(a, row) == LineAt(b, row)
  }

  lemma BelowNext(ids: Ids, sc: Screen, jm: Message, floor: nat)
    requires Below(ids, sc, floor) && (!jm.aux && IsProgress(jm) ==> Plain(jm))
    ensures var r := ShowOne(ids, sc, jm, true);
            Below(r.ids, r.screen, floor) && SameAbove(floor, sc.lines, r.screen.lines)
  {
    hide Displayed, Plain;
    if !jm.aux && IsProgress(jm) {
      hide ShowOne;
      ProgressIsAbsolute(ids, sc, jm, sc.row - |ids|);
    } else {
      DisplayedBelow(sc, jm);
    }
  }

  /** What is above all layers is never touched. */
  lemma {:induction false} RowsAboveAreKept(ids: Ids, sc: Screen, msgs: seq<Message>, floor: nat)
    requires Below(ids, sc, floor) && AllPlain(msgs)
    ensures var r := ShowAll(ids, sc, msgs, true);
            Below(r.ids, r.screen, floor) && SameAbove(floor, sc.lines, r.screen.lines)
    decreases |msgs|
  {
    hide ShowOne, Plain, IsProgress;
    if msgs != [] {
      var r := ShowOne(ids, sc, msgs[0], true);
      BelowNext(ids, sc, msgs[0], floor);
      if r.error == NoError {
        RowsAboveAreKept(r.ids, r.screen, msgs[1..], floor);
      }
    }
  }

  /** A stream is displayed message after message. */
  lemma {:induction false} ShowAllAppend(ids: Ids, sc: Screen, a: seq<Message>, b: seq<Message>, isTerminal: bool)
    requires Lined(ids)
    ensures var r := ShowAll(ids, sc, a, isTerminal);
            ShowAll(ids, sc, a + b, isTerminal) == if r.error != NoError then r else ShowAll(r.ids, r.screen, b, isTerminal)
    decreases |a|
  {
    hide ShowOne;
    if a == [] {
      assert a + b == b;
    } else {
      var r := ShowOne(ids, sc, a[0], isTerminal);
      assert (a + b)[1..] == a[1..] + b;
      if r.error == NoError {
        ShowAllAppend(r.ids, r.screen, a[1..], b, isTerminal);
      }
    }
  }

  /** Is this a message that starts a new epoch? */
  predicate EndsEpoch(jm: Message) {
    !Continues(jm) && jm.error.None?
  }

  /**
   A message without progress ends the epoch: the layers are forgotten, and whatever follows,
   every row above the cursor stays as it is from then on.
   */
  lemma EpochEnds(sc: Screen, a: seq<Message>, jm: Message, b: seq<Message>)
    requires EndsEpoch(jm) && AllPlain(b)
    ensures var r, all := ShowAll(map[], sc, a + [jm], true), ShowAll(map[], sc, a + [jm] + b, true);
            && KeptAbove(r.screen, all.screen)
            && (r.error == NoError ==> r.ids == map[] && all == ShowAll(map[], r.screen, b, true))
  {
    hide ShowOne, ShowAll, Plain;
    NoLayersLined();
    var r := ShowAll(map[], sc, a + [jm], true);
    ShowAllAppend(map[], sc, a + [jm], b, true);
    if r.error == NoError {
      var first := ShowAll(map[], sc, a, true);
      ShowAllAppend(map[], sc, a, [jm], true);
      ShowAllOne(first.ids, first.screen, jm);
      RowsAboveAreKept(map[], r.screen, b, r.screen.row);
    }
  }

  lemma ShowAllOne(ids: Ids, sc: Screen, jm: Message)
    requires Lined(ids) && EndsEpoch(jm)
    ensures ShowAll(ids, sc, [jm], true).ids == map[]
  {
    assert [jm][1..] == [];
  }

  /**
   The display loop on a terminal, in these terms: when it returns, every layer of the last
   epoch that was last drawn as a bar can be read on its own row below `base`.
   */
  method DisplayOnTerminal(msgs: seq<Message>, out: Output) returns (error: DisplayError, ids: Ids, ghost base: nat)
    requires AllPlain(msgs)
    modifies out
    ensures Legible(ids, out.screen, base, Latest(map[], msgs))
    // What stood above the cursor at the end of an earlier epoch still stands there.
    ensures forall k | 0 <= k < |msgs| && EndsEpoch(msgs[k]) ::
              KeptAbove(ShowAll(map[], old(out.screen), msgs[..k + 1], true).screen, out.screen)
  {
    hide ShowAll, Plain, EndsEpoch, KeptAbove;
    ghost var sc := out.screen;
    NoLayersLined();
    forall k | 0 <= k < |msgs| && EndsEpoch(msgs[k])
      ensures KeptAbove(ShowAll(map[], sc, msgs[..k + 1], true).screen, ShowAll(map[], sc, msgs, true).screen)
    {
      EpochEnds(sc, msgs[..k], msgs[k], msgs[k + 1..]);
      assert msgs[..k] + [msgs[k]] == msgs[..k + 1] && msgs[..k + 1] + msgs[k + 1..] == msgs;
    }
    base := RowsAreStable(map[], sc, msgs, sc.row, map[]);
    error, ids := DisplayStream(msgs, out, true);
  }
}
