/** The interaction state machine as pure functions on the component's state:
    one function per event handler, the background-flash effect that runs
    when the stage changes, and the invariant every event preserves. */
module Machine {
  import opened Types
  import opened Buttons
  import opened Effects

  /** Everything the component holds. `tilt` and `corruptedCursor` stand for
      the classes on the document body, `flashed` for the body's temporary
      background colour, `pending` for the timeouts not yet fired. */
  datatype State = State(
    gameState: GameState,
    noButtons: seq<NoButton>,
    showKuromiWink: bool,
    isGlitching: bool,
    confettiPieces: seq<ConfettiPiece>,
    tilt: bool,
    corruptedCursor: bool,
    flashed: bool,
    pending: seq<Timeout>)

  /** The state on mount. */
  function Start(): State {
    State(Initial, [InitialButton()], false, false, [], false, false, false, [])
  }

  // ---------------------------------------------------------------------
  // Handlers
  // ---------------------------------------------------------------------

  /** Hovering (or touching) the "main" button: only the initial stage reacts,
      moving the button to a drawn position. */
  function HandleNoButtonHover(s: State, pos: Position): State {
    if s.gameState == Initial then
      s.(gameState := Chase, noButtons := [MainButton(pos, FullSize, NoLabel)])
    else
      s
  }

  /** A click on a real "No" button; `draw(i)` is the `i`-th random position
      the handler asks for. A click whose id is missing, or whose first match
      is not real, is ignored. */
  function HandleNoButtonClick(s: State, id: string, draw: nat -> Position): State {
    var clicked := Find(s.noButtons, id);
    if clicked.None? || !clicked.value.isReal then s
    else
      match s.gameState
      case Initial | Chase =>
        s.(gameState := FirstClick,
           noButtons := [NoButton(MainId, s.noButtons[0].x, s.noButtons[0].y, HalfSize, ReallyLabel, true)],
           showKuromiWink := true,
           isGlitching := true,
           pending := s.pending + [Timeout(ClearWink, WinkMs), Timeout(ClearGlitch, GlitchMs)])
      case FirstClick =>
        s.(gameState := SecondClick, noButtons := ScatterLayout(draw))
      case SecondClick =>
        s.(gameState := ThirdClick,
           noButtons := [MainButton(draw(0), HalfSize, LastChanceLabel)],
           tilt := true,
           corruptedCursor := true)
      case ThirdClick =>
        s.(gameState := FinalTakeover, noButtons := [], tilt := false, corruptedCursor := false)
      case FinalTakeover | HappyEnding =>
        s
  }

  /** The "Yes" button, rendered in every stage. */
  function HandleYesClick(s: State): State {
    s.(gameState := HappyEnding,
       noButtons := [],
       confettiPieces := ConfettiBatch(),
       pending := s.pending + [Timeout(ClearConfetti, ConfettiMs)],
       tilt := false,
       corruptedCursor := false)
  }

  /** A click on a decoy: drops every button with that id. */
  function HandleFakeButtonClick(s: State, id: string): State {
    s.(noButtons := RemoveId(s.noButtons, id))
  }

  /** The effect keyed on the stage: it runs when the stage has changed, and
      flashes the background when the new stage is 'second-click'. */
  function BackgroundFlash(before: GameState, s: State): State {
    if s.gameState != before && s.gameState == SecondClick then
      s.(flashed := true, pending := s.pending + [Timeout(ClearFlash, FlashMs)])
    else
      s
  }

  // ---------------------------------------------------------------------
  // Events: a handler followed by the effect
  // ---------------------------------------------------------------------

  function OnHover(s: State, pos: Position): State {
    BackgroundFlash(s.gameState, HandleNoButtonHover(s, pos))
  }

  function OnNoClick(s: State, id: string, draw: nat -> Position): State {
    BackgroundFlash(s.gameState, HandleNoButtonClick(s, id, draw))
  }

  function OnYesClick(s: State): State {
    BackgroundFlash(s.gameState, HandleYesClick(s))
  }

  /** A click on rendered button `j`, routed by its `isReal` flag. */
  function OnButtonClick(s: State, j: nat, draw: nat -> Position): State
    requires j < |s.noButtons|
  {
    var b := s.noButtons[j];
    if b.isReal then OnNoClick(s, b.id, draw) else HandleFakeButtonClick(s, b.id)
  }

  /** Pending timeout `k` fires: it clears its flag or batch and is gone. */
  function OnTimeout(s: State, k: nat): State
    requires k < |s.pending|
  {
    var rest := s.pending[..k] + s.pending[k + 1..];
    match s.pending[k].clear
    case ClearGlitch => s.(isGlitching := false, pending := rest)
    case ClearWink => s.(showKuromiWink := false, pending := rest)
    case ClearConfetti => s.(confettiPieces := [], pending := rest)
    case ClearFlash => s.(flashed := false, pending := rest)
  }

  // ---------------------------------------------------------------------
  // Invariant
  // ---------------------------------------------------------------------

  /** The shape a button must have in a stage. */
  predicate Conforms(g: GameState, b: NoButton) {
    match g
    case Initial | Chase => b.id == MainId && b.isReal && b.size == FullSize && b.text == NoLabel
    case FirstClick => b.id == MainId && b.isReal && b.size == HalfSize && b.text == ReallyLabel
    case SecondClick =>
      b.size == HalfSize && b.text == ReallyLabel && (b.isReal <==> b.id == FakeId(RealDecoyIndex))
    case ThirdClick => b.id == MainId && b.isReal && b.size == HalfSize && b.text == LastChanceLabel
    case FinalTakeover | HappyEnding => false
  }

  /** The buttons fit the stage. The single-button stages hold one button
      and the scatter one to five; the end stages hold none. There is exactly
      one real button whenever there is any button. */
  predicate ButtonsFit(g: GameState, bs: seq<NoButton>) {
    && DistinctIds(bs)
    && (forall b :: b in bs ==> Conforms(g, b))
    && RealCount(bs) == (if bs == [] then 0 else 1)
    && (g in {Initial, Chase, FirstClick, ThirdClick} ==> |bs| == 1)
    && (g == SecondClick ==> 1 <= |bs| <= DecoyCount)
    && (g == FinalTakeover || g == HappyEnding ==> bs == [])
  }

  /** Every flag that is on, and a confetti batch on screen, has the timeout
      that clears it pending. */
  predicate ClearsPending(s: State) {
    && (s.isGlitching ==> Timeout(ClearGlitch, GlitchMs) in s.pending)
    && (s.showKuromiWink ==> Timeout(ClearWink, WinkMs) in s.pending)
    && (s.confettiPieces != [] ==> Timeout(ClearConfetti, ConfettiMs) in s.pending)
    && (s.flashed ==> Timeout(ClearFlash, FlashMs) in s.pending)
  }

  predicate Valid(s: State) {
    && ButtonsFit(s.gameState, s.noButtons)
    && (s.tilt <==> s.gameState == ThirdClick)
    && s.corruptedCursor == s.tilt
    && (s.confettiPieces == [] || (s.gameState == HappyEnding && s.confettiPieces == ConfettiBatch()))
    && (s.isGlitching || s.showKuromiWink ==> s.gameState != Initial && s.gameState != Chase)
    && (s.flashed ==> s.gameState in {SecondClick, ThirdClick, FinalTakeover, HappyEnding})
    && ClearsPending(s)
  }

  /** What the decoy handler's only caller guarantees: the id is not the id
      of a real button. */
  predicate NamesNoRealButton(bs: seq<NoButton>, id: string) {
    forall b :: b in bs && b.isReal ==> b.id != id
  }

  /** The stage a real click leads to. */
  function Successor(g: GameState): GameState {
    match g
    case Initial | Chase => FirstClick
    case FirstClick => SecondClick
    case SecondClick => ThirdClick
    case ThirdClick => FinalTakeover
    case FinalTakeover => FinalTakeover
    case HappyEnding => HappyEnding
  }

  // ---------------------------------------------------------------------
  // Lemmas: the invariant
  // ---------------------------------------------------------------------

  /** A valid state shows exactly one real button whenever it shows any,
      one button in the single-button stages, one to five in the scatter,
      and none at the end. */
  lemma ValidShape(s: State)
    requires Valid(s)
    ensures s.noButtons != [] ==> RealCount(s.noButtons) == 1
    ensures s.noButtons != [] ==> exists k :: 0 <= k < |s.noButtons| && s.noButtons[k].isReal
    ensures s.gameState in {Initial, Chase, FirstClick, ThirdClick} ==> |s.noButtons| == 1 && s.noButtons[0].isReal
    ensures s.gameState == SecondClick ==> 1 <= |s.noButtons| <= 5
    ensures s.gameState in {FinalTakeover, HappyEnding} <==> s.noButtons == []
  {
    if s.noButtons != [] {
      RealCountWitness(s.noButtons);
      assert Conforms(s.gameState, s.noButtons[0]);
    }
  }

  /** A positive count has a real button behind it. */
  lemma {:induction false} RealCountWitness(bs: seq<NoButton>)
    requires RealCount(bs) > 0
    ensures exists k :: 0 <= k < |bs| && bs[k].isReal
  {
    if !bs[0].isReal {
      RealCountWitness(bs[1..]);
      var k :| 0 <= k < |bs| - 1 && bs[1..][k].isReal;
      assert bs[k + 1].isReal;
    }
  }

  lemma StartValid()
    ensures Valid(Start())
    ensures Start().gameState == Initial && Start().noButtons == [InitialButton()]
  {
    SingleButtonFits(Initial, InitialButton());
  }

  /** One button that fits a single-button stage is a fitting list. */
  lemma SingleButtonFits(g: GameState, b: NoButton)
    requires g in {Initial, Chase, FirstClick, ThirdClick} && Conforms(g, b)
    ensures ButtonsFit(g, [b])
  {
    assert [b][1..] == [];
  }

  /** A timeout other than the one that fires is still pending afterwards. */
  lemma StillPending(p: seq<Timeout>, k: nat, x: Timeout)
    requires k < |p| && x in p && x != p[k]
    ensures x in p[..k] + p[k + 1..]
  {
    var i :| 0 <= i < |p| && p[i] == x;
    if i < k {
      assert (p[..k] + p[k + 1..])[i] == x;
    } else {
      assert (p[..k] + p[k + 1..])[i - 1] == x;
    }
  }

  lemma {:induction false} OnHoverValid(s: State, pos: Position)
    requires Valid(s)
    ensures Valid(OnHover(s, pos))
  {
    if s.gameState == Initial {
      SingleButtonFits(Chase, MainButton(pos, FullSize, NoLabel));
    }
  }

  lemma {:induction false} OnNoClickValid(s: State, id: string, draw: nat -> Position)
    requires Valid(s)
    ensures Valid(OnNoClick(s, id, draw))
  {
    if RealClick(s, id) {
      match s.gameState
      case Initial | Chase => FirstClickValid(s, id, draw);
      case FirstClick => SecondClickValid(s, id, draw);
      case SecondClick => ThirdClickValid(s, id, draw);
      case ThirdClick => FourthRealClick(s, id, draw);
      case FinalTakeover | HappyEnding =>
    }
  }

  lemma FirstClickValid(s: State, id: string, draw: nat -> Position)
    requires Valid(s) && RealClick(s, id) && (s.gameState == Initial || s.gameState == Chase)
    ensures Valid(OnNoClick(s, id, draw))
  {
    FirstRealClick(s, id, draw);
    SingleButtonFits(FirstClick, NoButton(MainId, s.noButtons[0].x, s.noButtons[0].y, HalfSize, ReallyLabel, true));
  }

  lemma SecondClickValid(s: State, id: string, draw: nat -> Position)
    requires Valid(s) && RealClick(s, id) && s.gameState == FirstClick
    ensures Valid(OnNoClick(s, id, draw))
  {
    SecondRealClick(s, id, draw);
    ScatterShape(draw);
    var bs := ScatterLayout(draw);
    forall b | b in bs ensures Conforms(SecondClick, b) {
      var i :| 0 <= i < |bs| && bs[i] == b;
      FakeIdInjective(i, RealDecoyIndex);
    }
  }

  lemma ThirdClickValid(s: State, id: string, draw: nat -> Position)
    requires Valid(s) && RealClick(s, id) && s.gameState == SecondClick
    ensures Valid(OnNoClick(s, id, draw))
  {
    ThirdRealClick(s, id, draw);
    SingleButtonFits(ThirdClick, MainButton(draw(0), HalfSize, LastChanceLabel));
  }

  lemma OnYesClickValid(s: State)
    requires Valid(s)
    ensures Valid(OnYesClick(s))
  {
  }

  /** A decoy click whose id names no real button keeps the invariant; in
      the single-button stages it removes nothing. */
  lemma {:induction false} FakeClickValid(s: State, id: string)
    requires Valid(s) && NamesNoRealButton(s.noButtons, id)
    ensures Valid(HandleFakeButtonClick(s, id))
    ensures s.gameState != SecondClick ==> HandleFakeButtonClick(s, id) == s
  {
    var bs := s.noButtons;
    RemoveIdRealCount(bs, id);
    RemoveIdDistinct(bs, id);
    if s.gameState != SecondClick {
      forall b | b in bs ensures b.id != id {
        assert Conforms(s.gameState, b);
      }
    }
  }

  lemma OnButtonClickValid(s: State, j: nat, draw: nat -> Position)
    requires Valid(s) && j < |s.noButtons|
    ensures Valid(OnButtonClick(s, j, draw))
    ensures var t := OnButtonClick(s, j, draw);
      t.noButtons != [] ==> RealCount(t.noButtons) == 1
  {
    var t := OnButtonClick(s, j, draw);
    if s.noButtons[j].isReal {
      OnNoClickValid(s, s.noButtons[j].id, draw);
    } else {
      DecoyIdNamesNoReal(s.noButtons, j);
      FakeClickValid(s, s.noButtons[j].id);
    }
    ValidShape(t);
  }

  lemma OnTimeoutValid(s: State, k: nat)
    requires Valid(s) && k < |s.pending|
    ensures Valid(OnTimeout(s, k))
  {
    var t := OnTimeout(s, k);
    var p := s.pending;
    assert t.gameState == s.gameState && t.noButtons == s.noButtons;
    assert t.tilt == s.tilt && t.corruptedCursor == s.corruptedCursor;
    assert t.pending == p[..k] + p[k + 1..];
    assert t.confettiPieces == [] || (t.confettiPieces == s.confettiPieces && p[k].clear != ClearConfetti);
    assert t.isGlitching ==> s.isGlitching && p[k].clear != ClearGlitch;
    assert t.showKuromiWink ==> s.showKuromiWink && p[k].clear != ClearWink;
    assert t.flashed ==> s.flashed && p[k].clear != ClearFlash;
    if t.isGlitching { StillPending(p, k, Timeout(ClearGlitch, GlitchMs)); }
    if t.showKuromiWink { StillPending(p, k, Timeout(ClearWink, WinkMs)); }
    if t.confettiPieces != [] { StillPending(p, k, Timeout(ClearConfetti, ConfettiMs)); }
    if t.flashed { StillPending(p, k, Timeout(ClearFlash, FlashMs)); }
  }

  // ---------------------------------------------------------------------
  // Lemmas: the transitions
  // ---------------------------------------------------------------------

  /** Hover moves 'initial' to 'chase' with one real "main" button of full
      size labelled "No" at the drawn position; in any other stage it does
      nothing. */
  lemma HoverTransition(s: State, pos: Position)
    ensures s.gameState == Initial ==>
      OnHover(s, pos) == s.(gameState := Chase, noButtons := [NoButton(MainId, pos.x, pos.y, 100, "No", true)])
    ensures s.gameState != Initial ==> OnHover(s, pos) == s
  {
  }

  /** A click whose id is absent, or whose button is not real, changes nothing. */
  lemma GuardedClick(s: State, id: string, draw: nat -> Position)
    requires (forall b :: b in s.noButtons ==> b.id != id) || !Find(s.noButtons, id).value.isReal
    ensures OnNoClick(s, id, draw) == s
  {
  }

  /** In the two end stages there is no "No" button, so every click is ignored. */
  lemma EndStageClickIgnored(s: State, id: string, draw: nat -> Position)
    requires Valid(s) && (s.gameState == FinalTakeover || s.gameState == HappyEnding)
    ensures s.noButtons == []
    ensures OnNoClick(s, id, draw) == s
  {
  }

  /** A click the guard lets through. */
  predicate RealClick(s: State, id: string) {
    Find(s.noButtons, id).Some? && Find(s.noButtons, id).value.isReal
  }

  /** First real click: one real "main" button, half size, "Really?", kept at
      the first button's position; wink and glitch on, their clears pending. */
  lemma FirstRealClick(s: State, id: string, draw: nat -> Position)
    requires RealClick(s, id) && (s.gameState == Initial || s.gameState == Chase)
    ensures var t := OnNoClick(s, id, draw);
      && t.gameState == FirstClick
      && |s.noButtons| > 0
      && t.noButtons == [NoButton("main", s.noButtons[0].x, s.noButtons[0].y, 50, "Really?", true)]
      && t.showKuromiWink && t.isGlitching
      && t.pending == s.pending + [Timeout(ClearWink, 1500), Timeout(ClearGlitch, 500)]
      && t.tilt == s.tilt && t.corruptedCursor == s.corruptedCursor
      && t.flashed == s.flashed && t.confettiPieces == s.confettiPieces
  {
  }

  /** Second real click: the five-button scatter with the real button at
      index 2 ("fake-2"); entering 'second-click' flashes the background. */
  lemma SecondRealClick(s: State, id: string, draw: nat -> Position)
    requires RealClick(s, id) && s.gameState == FirstClick
    ensures var t := OnNoClick(s, id, draw);
      && t.gameState == SecondClick
      && t.noButtons == ScatterLayout(draw)
      && |t.noButtons| == 5
      && (forall i :: 0 <= i < 5 ==>
            t.noButtons[i].id == FakeId(i) && t.noButtons[i].size == 50
            && t.noButtons[i].text == "Really?" && (t.noButtons[i].isReal <==> i == 2))
      && RealCount(t.noButtons) == 1
      && t.noButtons[2].id == "fake-2"
      && t == s.(gameState := SecondClick, noButtons := ScatterLayout(draw),
                 flashed := true, pending := s.pending + [Timeout(ClearFlash, 100)])
  {
    ScatterShape(draw);
  }

  /** Third real click: one real "main" button, half size, "Last chance...",
      tilt and corrupted cursor on. */
  lemma ThirdRealClick(s: State, id: string, draw: nat -> Position)
    requires RealClick(s, id) && s.gameState == SecondClick
    ensures OnNoClick(s, id, draw) == s.(gameState := ThirdClick,
      noButtons := [NoButton("main", draw(0).x, draw(0).y, 50, "Last chance...", true)],
      tilt := true, corruptedCursor := true)
  {
  }

  /** Fourth real click: no "No" button left, tilt and corrupted cursor off. */
  lemma FourthRealClick(s: State, id: string, draw: nat -> Position)
    requires RealClick(s, id) && s.gameState == ThirdClick
    ensures OnNoClick(s, id, draw) == s.(gameState := FinalTakeover, noButtons := [], tilt := false, corruptedCursor := false)
  {
  }

  /** The flash fires on exactly one transition: entering 'second-click'. */
  lemma FlashOnlyEnteringSecondClick(s: State, id: string, draw: nat -> Position)
    ensures var t := OnNoClick(s, id, draw);
      t.flashed != s.flashed ==> s.gameState == FirstClick && t.gameState == SecondClick
    ensures forall pos :: OnHover(s, pos).flashed == s.flashed
    ensures OnYesClick(s).flashed == s.flashed
  {
  }

  /** A decoy click removes exactly the buttons with that id, keeps the rest
      in order, leaves stage, flags and timers alone, and repeating it
      changes nothing further. */
  lemma FakeClickTransition(s: State, id: string)
    ensures var t := HandleFakeButtonClick(s, id);
      && t == s.(noButtons := RemoveId(s.noButtons, id))
      && (forall b :: b in t.noButtons <==> b in s.noButtons && b.id != id)
      && HandleFakeButtonClick(t, id) == t
    ensures NamesNoRealButton(s.noButtons, id) ==>
      RealCount(HandleFakeButtonClick(s, id).noButtons) == RealCount(s.noButtons)
  {
    RemoveIdIdempotent(s.noButtons, id);
    RemoveIdRealCount(s.noButtons, id);
  }

  /** A routed click on decoy `j` removes that one button only; the stage and
      the real button stay. */
  lemma {:induction false} DecoyClick(s: State, j: nat, draw: nat -> Position)
    requires Valid(s) && j < |s.noButtons| && !s.noButtons[j].isReal
    ensures var t := OnButtonClick(s, j, draw);
      && t.noButtons == s.noButtons[..j] + s.noButtons[j + 1..]
      && |t.noButtons| == |s.noButtons| - 1
      && t.gameState == s.gameState
      && RealCount(t.noButtons) == RealCount(s.noButtons)
      && t == s.(noButtons := t.noButtons)
  {
    var bs := s.noButtons;
    RemoveIdAt(bs, j);
    DecoyIdNamesNoReal(bs, j);
    RemoveIdRealCount(bs, bs[j].id);
  }

  /** A routed click on a real button always advances the stage. */
  lemma {:induction false} RealButtonClick(s: State, j: nat, draw: nat -> Position)
    requires Valid(s) && j < |s.noButtons| && s.noButtons[j].isReal
    ensures OnButtonClick(s, j, draw).gameState == Successor(s.gameState)
    ensures OnButtonClick(s, j, draw).gameState != s.gameState
  {
    FindUnique(s.noButtons, j);
    assert Conforms(s.gameState, s.noButtons[j]);
  }

  /** The route a rendered real button takes: the guard lets its click through. */
  lemma {:induction false} RealButtonRoute(s: State, j: nat, draw: nat -> Position)
    requires Valid(s) && j < |s.noButtons| && s.noButtons[j].isReal
    ensures RealClick(s, s.noButtons[j].id)
    ensures OnButtonClick(s, j, draw) == OnNoClick(s, s.noButtons[j].id, draw)
  {
    FindUnique(s.noButtons, j);
  }

  /** "Yes" wins from every stage, 'final-takeover' included: no "No" button,
      tilt and cursor off, a fresh batch of 50 confetti keyed 0 .. 49. */
  lemma YesFromAnyStage(s: State)
    ensures var t := OnYesClick(s);
      && t.gameState == HappyEnding
      && t.noButtons == []
      && !t.tilt && !t.corruptedCursor
      && |t.confettiPieces| == 50
      && (forall i :: 0 <= i < 50 ==> t.confettiPieces[i].id == i)
      && t.pending == s.pending + [Timeout(ClearConfetti, 3000)]
      && t.isGlitching == s.isGlitching && t.showKuromiWink == s.showKuromiWink && t.flashed == s.flashed
  {
  }

  /** A timeout clears only its own flag or batch, whatever happened since it
      was scheduled. */
  lemma TimeoutClears(s: State, k: nat)
    requires k < |s.pending|
    ensures var t := OnTimeout(s, k);
      && t.gameState == s.gameState && t.noButtons == s.noButtons
      && t.pending == s.pending[..k] + s.pending[k + 1..]
      && t.isGlitching == (s.isGlitching && s.pending[k].clear != ClearGlitch)
      && t.showKuromiWink == (s.showKuromiWink && s.pending[k].clear != ClearWink)
      && t.flashed == (s.flashed && s.pending[k].clear != ClearFlash)
      && t.confettiPieces == (if s.pending[k].clear == ClearConfetti then [] else s.confettiPieces)
  {
  }

  /** The timers are not restarted on a second "Yes": the clear scheduled by
      the first click empties the batch the second click produced. */
  lemma StaleConfettiClear(s: State)
    ensures var t := OnYesClick(OnYesClick(s));
      && |t.pending| == |s.pending| + 2
      && t.pending[|s.pending|] == Timeout(ClearConfetti, 3000)
      && |t.confettiPieces| == 50
      && OnTimeout(t, |s.pending|).confettiPieces == []
  {
  }
}
