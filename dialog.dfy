/**
 * The dialog box: a typewriter reveal of dialog pages. A session holds blocks of pages
 * (one block per speaker); `render` reveals one more letter per frame, turns the page when
 * the current one is fully shown, moves to the next block after the last page and closes
 * the box after the last block. `next_text` turns the page at once.
 */
module Dialog {
  import opened Util

  /** The cursor state of a dialog box; `S` is the type of the speakers. */
  datatype Cursor<S> = Cursor(
    dialogs: seq<seq<string>>,   // the blocks of the session
    npcs: seq<S>,                // the speaker of each block
    texts: seq<string>,          // pages of the current block
    currentDialog: int,
    textIndex: int,
    letterIndex: int,
    reading: bool,
    npc: Option<S>)

  /** Invariant of the cursor: indices in range while reading, letter cursor at 0 when idle. */
  predicate CursorOk<S>(c: Cursor<S>)
  {
    && c.letterIndex >= 0 && c.textIndex >= 0 && c.currentDialog >= 0
    && (!c.reading ==> c.letterIndex == 0)
    && (c.reading ==>
          && c.currentDialog < |c.dialogs| <= |c.npcs|
          && c.texts == c.dialogs[c.currentDialog]
          && (|c.texts| > 0 ==> c.textIndex < |c.texts|))
  }

  /** A closed box, as created. */
  function Idle<S>(): (c: Cursor<S>)
    ensures CursorOk(c) && !c.reading
  {
    Cursor([], [], [], 0, 0, 0, false, None)
  }

  /** Renders a page takes before it is turned: its length, and one for an empty page. */
  function PageCost(page: string): nat
  {
    if |page| == 0 then 1 else |page|
  }

  function PagesCost(pages: seq<string>): nat
  {
    if |pages| == 0 then 0 else PageCost(pages[0]) + PagesCost(pages[1..])
  }

  function BlocksCost(blocks: seq<seq<string>>): nat
  {
    if |blocks| == 0 then 0 else PagesCost(blocks[0]) + BlocksCost(blocks[1..])
  }

  predicate AllBlocksNonEmpty(blocks: seq<seq<string>>)
  {
    forall i :: 0 <= i < |blocks| ==> |blocks[i]| > 0
  }

  /** A session that `render` alone brings to its end: every block has a page, and the letter cursor is inside the page. */
  predicate Finishing<S>(c: Cursor<S>)
  {
    && CursorOk(c)
    && (c.reading ==> AllBlocksNonEmpty(c.dialogs) && c.letterIndex < PageCost(c.texts[c.textIndex]))
  }

  /** Renders left until the box closes. */
  function Remaining<S>(c: Cursor<S>): int
    requires Finishing(c)
  {
    if !c.reading then 0
    else PageCost(c.texts[c.textIndex]) - c.letterIndex
         + PagesCost(c.texts[c.textIndex + 1..]) + BlocksCost(c.dialogs[c.currentDialog + 1..])
  }

  /** `execute(dialogs, npcs)`: a closed box opens on the first page of the first block; an open one turns the page. */
  function Executed<S>(c: Cursor<S>, dialogs: seq<seq<string>>, npcs: seq<S>): Cursor<S>
    requires CursorOk(c)
    requires !c.reading ==> 1 <= |dialogs| <= |npcs|
  {
    if c.reading then PageTurned(c)
    else c.(reading := true, textIndex := 0, dialogs := dialogs, npcs := npcs, currentDialog := 0,
            texts := dialogs[0], npc := Some(npcs[0]))
  }

  /** The cursor part of `render`: one more letter, page turn, block change or end of the session. */
  function Rendered<S>(c: Cursor<S>): Cursor<S>
    requires CursorOk(c)
  {
    if !c.reading || |c.texts| == 0 then c
    else
      var letter := c.letterIndex + 1;
      if letter < |c.texts[c.textIndex]| then c.(letterIndex := letter)
      else if c.textIndex + 1 < |c.texts| then c.(letterIndex := 0, textIndex := c.textIndex + 1)
      else if c.currentDialog + 1 >= |c.dialogs| then
        c.(letterIndex := 0, textIndex := 0, currentDialog := c.currentDialog + 1, reading := false)
      else
        c.(letterIndex := 0, textIndex := 0, currentDialog := c.currentDialog + 1,
           texts := c.dialogs[c.currentDialog + 1], npc := Some(c.npcs[c.currentDialog + 1]))
  }

  /** `next_text`: turn the page now; turning past the block's last page closes the whole box. */
  function PageTurned<S>(c: Cursor<S>): Cursor<S>
  {
    var t := c.textIndex + 1;
    c.(textIndex := t, letterIndex := 0, reading := if t >= |c.texts| then false else c.reading)
  }

  /** The text the box shows after a render: the first `letterIndex` letters of the current page. */
  function Revealed<S>(c: Cursor<S>): (s: string)
    requires CursorOk(c) && c.reading && |c.texts| > 0 && c.letterIndex <= |c.texts[c.textIndex]|
    ensures |s| == c.letterIndex && s <= c.texts[c.textIndex]
  {
    c.texts[c.textIndex][..c.letterIndex]
  }

  /** `render` keeps the invariant; it changes nothing when the box is closed or the block has no page. */
  lemma RenderSpec<S>(c: Cursor<S>)
    requires CursorOk(c)
    ensures CursorOk(Rendered(c))
    ensures !c.reading || |c.texts| == 0 ==> Rendered(c) == c
    ensures c.reading && |c.texts| > 0 && Rendered(c).reading && Rendered(c).currentDialog == c.currentDialog ==>
              (Rendered(c).textIndex == c.textIndex && Rendered(c).letterIndex == c.letterIndex + 1)
              || (Rendered(c).textIndex == c.textIndex + 1 && Rendered(c).letterIndex == 0)
    ensures c.reading && |c.texts| > 0 && !Rendered(c).reading ==>
              c.currentDialog == |c.dialogs| - 1 && c.textIndex == |c.texts| - 1
              && c.letterIndex + 1 >= |c.texts[c.textIndex]|
  {
  }

  /** With non-empty pages the letter cursor stays inside the page, so the revealed text is a proper prefix. */
  lemma RenderKeepsLetterInPage<S>(c: Cursor<S>)
    requires Finishing(c) && c.reading
    requires forall i, j :: 0 <= i < |c.dialogs| && 0 <= j < |c.dialogs[i]| ==> |c.dialogs[i][j]| > 0
    ensures var d := Rendered(c);
      d.reading ==> 0 <= d.letterIndex < |d.texts[d.textIndex]| && d.textIndex < |d.texts|
  {
  }

  /** `execute` on an open box is exactly `next_text`; on a closed box it opens the first block at page 0. */
  lemma ExecuteSpec<S>(c: Cursor<S>, dialogs: seq<seq<string>>, npcs: seq<S>)
    requires CursorOk(c)
    requires !c.reading ==> 1 <= |dialogs| <= |npcs|
    ensures CursorOk(Executed(c, dialogs, npcs))
    ensures c.reading ==> Executed(c, dialogs, npcs) == PageTurned(c)
    ensures !c.reading ==> var d := Executed(c, dialogs, npcs);
      d.reading && d.textIndex == 0 && d.currentDialog == 0 && d.letterIndex == 0
      && d.texts == dialogs[0] && d.npc == Some(npcs[0])
  {
  }

  /** `next_text` on the last page of a block ends the session even when later blocks remain. */
  lemma NextTextClosesAfterLastPage<S>(c: Cursor<S>)
    requires CursorOk(c) && c.reading
    ensures CursorOk(PageTurned(c))
    ensures PageTurned(c).letterIndex == 0 && PageTurned(c).textIndex == c.textIndex + 1
    ensures !PageTurned(c).reading <==> c.textIndex + 1 >= |c.texts|
    ensures PageTurned(c).currentDialog == c.currentDialog
  {
  }

  lemma {:induction false} PagesCostSplit(pages: seq<string>, i: nat)
    requires i < |pages|
    ensures PagesCost(pages[i..]) == PageCost(pages[i]) + PagesCost(pages[i + 1..])
  {
    assert pages[i..][1..] == pages[i + 1..];
  }

  /** Each render of an unfinished session uses up exactly one of the remaining renders. */
  lemma RenderCountsDown<S>(c: Cursor<S>)
    requires Finishing(c) && c.reading
    ensures Finishing(Rendered(c))
    ensures Remaining(Rendered(c)) == Remaining(c) - 1
    ensures Remaining(c) >= 1
  {
    var d := Rendered(c);
    var ti, cd := c.textIndex, c.currentDialog;
    var later := BlocksCost(c.dialogs[cd + 1..]);
    if c.letterIndex + 1 >= |c.texts[ti]| {
      assert PageCost(c.texts[ti]) - c.letterIndex == 1;
      if ti + 1 < |c.texts| {
        PagesCostSplit(c.texts, ti + 1);
        assert Remaining(d) == PageCost(c.texts[ti + 1]) + PagesCost(c.texts[ti + 2..]) + later;
      } else {
        assert c.texts[ti + 1..] == [];
        assert Remaining(c) == 1 + later;
        if cd + 1 < |c.dialogs| {
          var rest := c.dialogs[cd + 1..];
          assert rest[0] == c.dialogs[cd + 1] && rest[1..] == c.dialogs[cd + 2..];
          assert later == PagesCost(d.texts) + BlocksCost(c.dialogs[cd + 2..]);
          PagesCostSplit(d.texts, 0);
          assert d.texts[0..] == d.texts;
          assert Remaining(d) == PageCost(d.texts[0]) + PagesCost(d.texts[1..]) + BlocksCost(c.dialogs[cd + 2..]);
        } else {
          assert c.dialogs[cd + 1..] == [];
          assert !d.reading;
        }
      }
    } else {
      assert d == c.(letterIndex := c.letterIndex + 1);
      assert Remaining(d) == PageCost(c.texts[ti]) - c.letterIndex - 1 + PagesCost(c.texts[ti + 1..]) + later;
    }
  }

  /** `k` renders in a row. */
  function RenderN<S>(c: Cursor<S>, k: nat): (d: Cursor<S>)
    requires CursorOk(c)
    ensures CursorOk(d)
    decreases k
  {
    if k == 0 then c else RenderN(Rendered(c), k - 1)
  }

  /** An unfinished session stays open for `Remaining` - 1 renders and is closed by the next one. */
  lemma {:induction false} SessionLength<S>(c: Cursor<S>, k: nat)
    requires Finishing(c)
    ensures k < Remaining(c) ==> Finishing(RenderN(c, k)) && RenderN(c, k).reading
                                 && Remaining(RenderN(c, k)) == Remaining(c) - k
    ensures k >= Remaining(c) ==> !RenderN(c, k).reading && RenderN(c, k).letterIndex == 0
    decreases k
  {
    if k > 0 {
      if c.reading {
        RenderCountsDown(c);
        SessionLength(Rendered(c), k - 1);
      } else {
        SessionLength(c, k - 1);
        assert RenderN(c, k) == RenderN(Rendered(c), k - 1);
      }
    }
  }

  lemma {:induction false} PagesCostOfNonEmpty(pages: seq<string>)
    requires forall j :: 0 <= j < |pages| ==> |pages[j]| > 0
    ensures PagesCost(pages) == TotalLength(pages)
  {
    if |pages| > 0 {
      PagesCostOfNonEmpty(pages[1..]);
    }
  }

  function TotalLength(pages: seq<string>): nat
  {
    if |pages| == 0 then 0 else |pages[0]| + TotalLength(pages[1..])
  }

  /**
   * A one-block session of non-empty pages p1..pn, begun on a closed box, is still open after
   * every render before the len(p1) + ... + len(pn)-th, and closed with the letter cursor at 0 after it.
   */
  lemma OneBlockSessionLength<S>(c: Cursor<S>, pages: seq<string>, speaker: S)
    requires CursorOk(c) && !c.reading && |pages| > 0
    requires forall j :: 0 <= j < |pages| ==> |pages[j]| > 0
    ensures var begun := Executed(c, [pages], [speaker]);
      && (forall k: nat :: k < TotalLength(pages) ==> RenderN(begun, k).reading)
      && !RenderN(begun, TotalLength(pages)).reading
      && RenderN(begun, TotalLength(pages)).letterIndex == 0
  {
    var begun := Executed(c, [pages], [speaker]);
    assert begun.dialogs[1..] == [];
    PagesCostSplit(pages, 0);
    assert pages[0..] == pages;
    PagesCostOfNonEmpty(pages);
    assert Remaining(begun) == TotalLength(pages);
    forall k: nat | k < TotalLength(pages) ensures RenderN(begun, k).reading {
      SessionLength(begun, k);
    }
    SessionLength(begun, TotalLength(pages));
  }

  /** The dialog box object. */
  class DialogBox<S> {
    var texts: seq<string>
    var textIndex: int
    var letterIndex: int
    var reading: bool
    var dialogs: seq<seq<string>>
    var npcs: seq<S>
    var currentDialog: int
    var npc: Option<S>

    function State(): Cursor<S>
      reads this
    {
      Cursor(dialogs, npcs, texts, currentDialog, textIndex, letterIndex, reading, npc)
    }

    ghost predicate Valid()
      reads this
    {
      CursorOk(State())
    }

    /** `DialogBox()`: closed, with no pages. */
    constructor ()
      ensures Valid() && State() == Idle()
    {
      texts, textIndex, letterIndex, reading := [], 0, 0, false;
      dialogs, npcs, currentDialog, npc := [], [], 0, None;
    }

    method Execute(dialogs: seq<seq<string>>, npcs: seq<S>)
      requires Valid()
      requires !reading ==> 1 <= |dialogs| <= |npcs|
      modifies this
      ensures Valid() && State() == Executed(old(State()), dialogs, npcs)
    {
      ExecuteSpec(State(), dialogs, npcs);
      if reading {
        NextText();
      } else {
        reading := true;
        textIndex := 0;
        this.dialogs := dialogs;
        this.npcs := npcs;
        currentDialog := 0;
        texts := this.dialogs[currentDialog];
        npc := Some(this.npcs[currentDialog]);
      }
    }

    /**
     * `render`: the cursor part, followed by the text the box draws (`None` when it returns
     * before drawing). `crashed` reports the `IndexError` raised when the session moves on to
     * a block with no page: the draw then reads page 0 of an empty list.
     */
    method Render() returns (shown: Option<string>, crashed: bool)
      requires Valid()
      modifies this
      ensures Valid() && State() == Rendered(old(State()))
      ensures crashed <==> old(reading) && |old(texts)| > 0 && reading && |texts| == 0
      ensures crashed ==> currentDialog == old(currentDialog) + 1 && dialogs[currentDialog] == []
      ensures shown.Some? <==> reading && |texts| > 0 && old(reading) && |old(texts)| > 0
      ensures shown.Some? ==> letterIndex <= |texts[textIndex]| && shown.value == Revealed(State())
    {
      RenderSpec(State());
      crashed := false;
      if !reading || |texts| == 0 {
        return None, false;
      }
      letterIndex := letterIndex + 1;
      var currentText := texts[textIndex];
      if letterIndex >= |currentText| {
        letterIndex := 0;
        textIndex := textIndex + 1;
        if textIndex >= |texts| {
          textIndex := 0;
          currentDialog := currentDialog + 1;
          if currentDialog >= |dialogs| {
            reading := false;
            return None, false;
          } else {
            texts := dialogs[currentDialog];
            npc := Some(npcs[currentDialog]);
          }
        }
      }
      if |texts| == 0 {
        return None, true;
      }
      currentText := texts[textIndex];
      shown := Some(currentText[0..letterIndex]);
    }

    method NextText()
      requires Valid()
      modifies this
      ensures Valid() && State() == PageTurned(old(State()))
    {
      textIndex := textIndex + 1;
      letterIndex := 0;
      if textIndex >= |texts| {
        reading := false;
      }
    }

    /** The waiting loop of an interaction: render until the box closes. */
    method RenderUntilClosed()
      requires Valid() && Finishing(State())
      modifies this
      ensures Valid() && !reading
      ensures State() == RenderN(old(State()), Remaining(old(State())))
    {
      ghost var start := State();
      ghost var k: nat := 0;
      SessionLength(start, 0);
      while reading
        invariant Valid() && Finishing(State())
        invariant k <= Remaining(start) && State() == RenderN(start, k)
        invariant Remaining(State()) == Remaining(start) - k
        decreases Remaining(State())
      {
        RenderCountsDown(State());
        var _, crashed := Render();
        assert !crashed;
        RenderNStep(start, k);
        k := k + 1;
      }
    }
  }

  lemma {:induction false} RenderNStep<S>(c: Cursor<S>, k: nat)
    requires CursorOk(c)
    ensures RenderN(c, k + 1) == Rendered(RenderN(c, k))
    decreases k
  {
    if k > 0 {
      RenderNStep(Rendered(c), k - 1);
    }
  }
}
