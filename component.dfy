/** The LoveConfession component as an object: its state fields and one
    method per event handler. Each method is proved to perform the
    transition the corresponding Machine function describes, so every
    property proved there holds of the object. */
module Component {
  import opened Types
  import opened Buttons
  import opened Effects
  import opened Machine

  class LoveConfession {
    var gameState: GameState
    var noButtons: seq<NoButton>
    var showKuromiWink: bool
    var isGlitching: bool
    var confettiPieces: seq<ConfettiPiece>
    /** The 'tilt' and 'corrupted-cursor' classes on the document body. */
    var tilt: bool
    var corruptedCursor: bool
    /** The body's temporary background colour. */
    var flashed: bool
    /** Timeouts scheduled and not yet fired. */
    var pending: seq<Timeout>

    function Snapshot(): State
      reads this
    {
      State(gameState, noButtons, showKuromiWink, isGlitching, confettiPieces, tilt, corruptedCursor, flashed, pending)
    }

    ghost predicate Valid()
      reads this
    {
      Machine.Valid(Snapshot())
    }

    constructor ()
      ensures Snapshot() == Start()
      ensures Valid()
    {
      gameState := Initial;
      noButtons := [NoButton(MainId, 0.0, 0.0, FullSize, NoLabel, true)];
      showKuromiWink := false;
      isGlitching := false;
      confettiPieces := [];
      tilt, corruptedCursor := false, false;
      flashed := false;
      pending := [];
      StartValid();
    }

    /** triggerGlitch: glitch on, its clear scheduled. */
    method TriggerGlitch()
      modifies this
      ensures Snapshot() == old(Snapshot()).(isGlitching := true, pending := old(pending) + [Timeout(ClearGlitch, GlitchMs)])
    {
      isGlitching := true;
      pending := pending + [Timeout(ClearGlitch, GlitchMs)];
    }

    /** showKuromiWinkEffect: wink on, its clear scheduled. */
    method ShowKuromiWinkEffect()
      modifies this
      ensures Snapshot() == old(Snapshot()).(showKuromiWink := true, pending := old(pending) + [Timeout(ClearWink, WinkMs)])
    {
      showKuromiWink := true;
      pending := pending + [Timeout(ClearWink, WinkMs)];
    }

    /** The effect keyed on the stage, run after a handler with the stage it
        started from. */
    method RunBackgroundFlash(before: GameState)
      modifies this
      ensures Snapshot() == BackgroundFlash(before, old(Snapshot()))
    {
      if gameState != before && gameState == SecondClick {
        flashed := true;
        pending := pending + [Timeout(ClearFlash, FlashMs)];
      }
    }

    method Hover(pos: Position)
      requires Valid()
      modifies this
      ensures Snapshot() == OnHover(old(Snapshot()), pos)
      ensures Valid()
    {
      ghost var s := Snapshot();
      var before := gameState;
      if gameState == Initial {
        gameState := Chase;
        noButtons := [MainButton(pos, FullSize, NoLabel)];
      }
      RunBackgroundFlash(before);
      OnHoverValid(s, pos);
    }

    method NoClick(id: string, draw: nat -> Position)
      requires Valid()
      modifies this
      ensures Snapshot() == OnNoClick(old(Snapshot()), id, draw)
      ensures Valid()
    {
      ghost var s := Snapshot();
      OnNoClickValid(s, id, draw);
      var clicked := Find(noButtons, id);
      if clicked.None? || !clicked.value.isReal {
        return;
      }
      var before := gameState;
      match gameState {
        case Initial | Chase =>
          gameState := FirstClick;
          noButtons := [NoButton(MainId, noButtons[0].x, noButtons[0].y, HalfSize, ReallyLabel, true)];
          ShowKuromiWinkEffect();
          TriggerGlitch();
        case FirstClick =>
          gameState := SecondClick;
          var newButtons := BuildScatter(draw);
          noButtons := newButtons;
        case SecondClick =>
          gameState := ThirdClick;
          noButtons := [MainButton(draw(0), HalfSize, LastChanceLabel)];
          tilt, corruptedCursor := true, true;
        case ThirdClick =>
          gameState := FinalTakeover;
          noButtons := [];
          tilt, corruptedCursor := false, false;
        case FinalTakeover | HappyEnding =>
      }
      RunBackgroundFlash(before);
    }

    method YesClick()
      requires Valid()
      modifies this
      ensures Snapshot() == OnYesClick(old(Snapshot()))
      ensures Valid()
    {
      ghost var s := Snapshot();
      var before := gameState;
      gameState := HappyEnding;
      noButtons := [];
      var pieces := GenerateConfetti();
      confettiPieces := pieces;
      pending := pending + [Timeout(ClearConfetti, ConfettiMs)];
      tilt, corruptedCursor := false, false;
      RunBackgroundFlash(before);
      OnYesClickValid(s);
    }

    method FakeClick(id: string)
      requires Valid() && NamesNoRealButton(noButtons, id)
      modifies this
      ensures Snapshot() == HandleFakeButtonClick(old(Snapshot()), id)
      ensures Valid()
    {
      FakeClickValid(Snapshot(), id);
      noButtons := RemoveId(noButtons, id);
    }

    /** A click on rendered button `j`: real buttons go to the click handler,
        decoys to the filter. */
    method ClickButton(j: nat, draw: nat -> Position)
      requires Valid() && j < |noButtons|
      modifies this
      ensures Snapshot() == OnButtonClick(old(Snapshot()), j, draw)
      ensures Valid()
    {
      var b := noButtons[j];
      if b.isReal {
        NoClick(b.id, draw);
      } else {
        DecoyIdNamesNoReal(noButtons, j);
        FakeClick(b.id);
      }
    }

    /** Pending timeout `k` fires. */
    method Expire(k: nat)
      requires Valid() && k < |pending|
      modifies this
      ensures Snapshot() == OnTimeout(old(Snapshot()), k)
      ensures Valid()
    {
      OnTimeoutValid(Snapshot(), k);
      var t := pending[k];
      pending := pending[..k] + pending[k + 1..];
      match t.clear {
        case ClearGlitch => isGlitching := false;
        case ClearWink => showKuromiWink := false;
        case ClearConfetti => confettiPieces := [];
        case ClearFlash => flashed := false;
      }
    }
  }

  // ---------------------------------------------------------------------
  // Walk-throughs of a fresh component
  // ---------------------------------------------------------------------

  /** Hover, then four clicks on the real button: the stages and the number
      of "No" buttons after each event. */
  method Escalation(pos: Position, draw: nat -> Position) returns (stages: seq<GameState>, counts: seq<nat>)
    ensures stages == [Chase, FirstClick, SecondClick, ThirdClick, FinalTakeover]
    ensures counts == [1, 1, 5, 1, 0]
  {
    var c := new LoveConfession();
    c.Hover(pos);
    HoverTransition(Start(), pos);
    assert c.gameState == Chase && c.noButtons == [MainButton(pos, FullSize, NoLabel)];
    stages, counts := [c.gameState], [|c.noButtons|];
    ClickFirst(c, draw);
    stages, counts := stages + [c.gameState], counts + [|c.noButtons|];
    ClickSecond(c, draw);
    stages, counts := stages + [c.gameState], counts + [|c.noButtons|];
    ScatterShape(draw);
    assert c.noButtons[RealDecoyIndex].isReal;
    ClickThird(c, draw, RealDecoyIndex);
    stages, counts := stages + [c.gameState], counts + [|c.noButtons|];
    ClickFourth(c, draw);
    stages, counts := stages + [c.gameState], counts + [|c.noButtons|];
  }

  /** One click on the only button of an 'initial' or 'chase' component. */
  method ClickFirst(c: LoveConfession, draw: nat -> Position)
    requires c.Valid() && (c.gameState == Initial || c.gameState == Chase)
    modifies c
    ensures c.Valid() && c.gameState == FirstClick && |c.noButtons| == 1
  {
    ValidShape(c.Snapshot());
    RealButtonRoute(c.Snapshot(), 0, draw);
    FirstRealClick(c.Snapshot(), c.noButtons[0].id, draw);
    c.ClickButton(0, draw);
  }

  /** One click on the only button of a 'first-click' component. */
  method ClickSecond(c: LoveConfession, draw: nat -> Position)
    requires c.Valid() && c.gameState == FirstClick
    modifies c
    ensures c.Valid() && c.gameState == SecondClick && c.noButtons == ScatterLayout(draw)
    ensures |c.noButtons| == 5
  {
    ValidShape(c.Snapshot());
    RealButtonRoute(c.Snapshot(), 0, draw);
    SecondRealClick(c.Snapshot(), c.noButtons[0].id, draw);
    c.ClickButton(0, draw);
  }

  /** A click on the real button `j` of a 'second-click' component. */
  method ClickThird(c: LoveConfession, draw: nat -> Position, j: nat)
    requires c.Valid() && c.gameState == SecondClick && j < |c.noButtons| && c.noButtons[j].isReal
    modifies c
    ensures c.Valid() && c.gameState == ThirdClick && |c.noButtons| == 1 && c.tilt
  {
    RealButtonRoute(c.Snapshot(), j, draw);
    ThirdRealClick(c.Snapshot(), c.noButtons[j].id, draw);
    c.ClickButton(j, draw);
  }

  /** One click on the only button of a 'third-click' component. */
  method ClickFourth(c: LoveConfession, draw: nat -> Position)
    requires c.Valid() && c.gameState == ThirdClick
    modifies c
    ensures c.Valid() && c.gameState == FinalTakeover && c.noButtons == [] && !c.tilt
  {
    ValidShape(c.Snapshot());
    RealButtonRoute(c.Snapshot(), 0, draw);
    FourthRealClick(c.Snapshot(), c.noButtons[0].id, draw);
    c.ClickButton(0, draw);
  }

  /** A click on decoy `j` of a 'second-click' component. */
  method ClickDecoy(c: LoveConfession, draw: nat -> Position, j: nat)
    requires c.Valid() && c.gameState == SecondClick && j < |c.noButtons| && !c.noButtons[j].isReal
    modifies c
    ensures c.Valid() && c.gameState == SecondClick
    ensures c.noButtons == old(c.noButtons[..j] + c.noButtons[j + 1..])
  {
    DecoyClick(c.Snapshot(), j, draw);
    c.ClickButton(j, draw);
  }

  /** Clicking the four decoys of a fresh scatter ("fake-0", "fake-1",
      "fake-3", "fake-4" in turn) removes one button each and leaves the
      real "fake-2" alone, in stage 'second-click'. */
  method ClickAllDecoys(c: LoveConfession, draw: nat -> Position) returns (counts: seq<nat>)
    requires c.Valid() && c.gameState == SecondClick && c.noButtons == ScatterLayout(draw)
    modifies c
    ensures c.Valid() && c.gameState == SecondClick
    ensures counts == [4, 3, 2, 1]
    ensures c.noButtons == [ScatterLayout(draw)[RealDecoyIndex]]
  {
    ghost var bs := c.noButtons;
    ScatterShape(draw);
    assert !bs[0].isReal && !bs[1].isReal && bs[2].isReal && !bs[3].isReal && !bs[4].isReal;
    ClickDecoy(c, draw, 0);
    assert c.noButtons == bs[1..];
    counts := [|c.noButtons|];
    ClickDecoy(c, draw, 0);
    assert c.noButtons == bs[2..];
    counts := counts + [|c.noButtons|];
    ClickDecoy(c, draw, 1);
    assert c.noButtons == [bs[2], bs[4]];
    counts := counts + [|c.noButtons|];
    ClickDecoy(c, draw, 1);
    counts := counts + [|c.noButtons|];
  }

  /** From a fresh component: two real clicks reach the scatter, the four
      decoys go one by one, and the remaining real button advances the stage. */
  method ClearDecoys(draw: nat -> Position) returns (counts: seq<nat>, last: NoButton, stage: GameState)
    ensures counts == [4, 3, 2, 1]
    ensures last.id == "fake-2" && last.isReal
    ensures stage == ThirdClick
  {
    var c := new LoveConfession();
    ClickFirst(c, draw);
    ClickSecond(c, draw);
    counts := ClickAllDecoys(c, draw);
    ScatterShape(draw);
    last := c.noButtons[0];
    ClickThird(c, draw, 0);
    stage := c.gameState;
  }

  /** After the takeover the "Yes" button still ends the game happily. */
  method YesAfterTakeover(draw: nat -> Position) returns (stage: GameState, buttons: nat, confetti: seq<ConfettiPiece>, tilted: bool)
    ensures stage == HappyEnding && buttons == 0 && !tilted
    ensures |confetti| == 50 && forall i :: 0 <= i < 50 ==> confetti[i].id == i
  {
    var c := new LoveConfession();
    ClickFirst(c, draw);
    ClickSecond(c, draw);
    ScatterShape(draw);
    ClickThird(c, draw, RealDecoyIndex);
    ClickFourth(c, draw);
    YesFromAnyStage(c.Snapshot());
    c.YesClick();
    stage, buttons, confetti, tilted := c.gameState, |c.noButtons|, c.confettiPieces, c.tilt;
  }
}
