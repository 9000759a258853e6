/** The experiment control buttons (gui/panels/control_panel.py): which
    widgets are visible, the pause button's caption, the `_is_paused` and
    `_preparing` flags, and the pause/resume signals the panel emits. */
module ControlPanelModel {
  import opened Enums

  datatype Widget = StartButton | PauseButton | ConfirmButton | SkipButton | StopButton | WaitLabel

  const AllWidgets: set<Widget> := {StartButton, PauseButton, ConfirmButton, SkipButton, StopButton, WaitLabel}

  /** The pause button's caption. */
  datatype Caption = PauseCaption | ResumeCaption

  datatype Signal = PauseClicked | ResumeClicked

  datatype PanelState = PanelState(isPaused: bool, preparing: bool, visible: set<Widget>,
                                   pauseCaption: Caption, emitted: seq<Signal>)

  /** _on_pause_toggle: emit resume when paused, pause otherwise, and flip the flag. */
  function TogglePause(p: PanelState): (r: PanelState)
    ensures r.isPaused == !p.isPaused
    ensures r.emitted == p.emitted + [if p.isPaused then ResumeClicked else PauseClicked]
    ensures r.pauseCaption == if p.isPaused then PauseCaption else ResumeCaption
    ensures r.preparing == p.preparing && r.visible == p.visible
  {
    if p.isPaused then p.(emitted := p.emitted + [ResumeClicked], pauseCaption := PauseCaption, isPaused := false)
    else p.(emitted := p.emitted + [PauseClicked], pauseCaption := ResumeCaption, isPaused := true)
  }

  /** set_preparing: raise the flag and show only the wait label. */
  function Preparing(p: PanelState): (r: PanelState)
    ensures r.preparing && r.visible == {WaitLabel}
    ensures r.isPaused == p.isPaused && r.pauseCaption == p.pauseCaption && r.emitted == p.emitted
  {
    p.(preparing := true, visible := {WaitLabel})
  }

  /** update_for_state: hide everything, then show the widgets of the new state. */
  function ForState(p: PanelState, state: ExperimentState): (r: PanelState)
    ensures state == Idle ==> r == p.(visible := {StartButton})
    ensures state == Running && p.preparing ==> r == p.(visible := {WaitLabel})
    ensures state == Running && !p.preparing ==> r == p.(visible := {PauseButton, StopButton})
    ensures state == Paused ==>
              r == p.(visible := {PauseButton, StopButton}, pauseCaption := ResumeCaption, isPaused := true)
    ensures state == WaitingConfirm ==>
              r == p.(visible := {ConfirmButton, SkipButton, StopButton}, preparing := false)
    ensures state.IsTerminal() ==> r == p.(visible := {}, preparing := false)
  {
    match state
    case Idle => p.(visible := {StartButton})
    case Running => if p.preparing then p.(visible := {WaitLabel}) else p.(visible := {PauseButton, StopButton})
    case Paused => p.(visible := {PauseButton, StopButton}, pauseCaption := ResumeCaption, isPaused := true)
    case WaitingConfirm => p.(visible := {ConfirmButton, SkipButton, StopButton}, preparing := false)
    case _ => p.(visible := {}, preparing := false)
  }

  /** set_idle: clear the pause flag and caption, then show the Idle widgets. */
  function IdleState(p: PanelState): (r: PanelState)
    ensures !r.isPaused && r.pauseCaption == PauseCaption && r.visible == {StartButton}
    ensures r.preparing == p.preparing && r.emitted == p.emitted
  {
    ForState(p.(isPaused := false, pauseCaption := PauseCaption), Idle)
  }

  /** The widgets update_for_state shows depend only on the state and the
      preparing flag, never on what was visible before. */
  lemma ForStateVisibilityDependsOnlyOnStateAndPreparing(p: PanelState, q: PanelState, state: ExperimentState)
    requires p.preparing == q.preparing
    ensures ForState(p, state).visible == ForState(q, state).visible
    ensures ForState(p, state).preparing == ForState(q, state).preparing
  {
  }

  /** The wait label is never shown beside a button, Start never beside
      another widget, and Pause never beside Confirm. */
  lemma ForStateExclusive(p: PanelState, state: ExperimentState)
    ensures var v := ForState(p, state).visible;
      && (WaitLabel in v ==> v == {WaitLabel})
      && (StartButton in v ==> v == {StartButton})
      && !(PauseButton in v && ConfirmButton in v)
  {
  }

  /** Stop is offered exactly while an experiment is under way and not preparing. */
  lemma ForStateStopVisible(p: PanelState, state: ExperimentState)
    ensures StopButton in ForState(p, state).visible <==>
              (state == Running && !p.preparing) || state == Paused || state == WaitingConfirm
  {
  }

  /** n clicks on the pause button. */
  function Toggles(p: PanelState, n: nat): PanelState
    decreases n
  {
    if n == 0 then p else TogglePause(Toggles(p, n - 1))
  }

  /** From an unpaused panel, clicks alternate pause and resume signals,
      starting with pause, and the flag is set after an odd number. */
  lemma {:induction false} TogglesAlternate(p: PanelState, n: nat)
    requires !p.isPaused
    ensures var r := Toggles(p, n);
      && |r.emitted| == |p.emitted| + n
      && r.emitted[..|p.emitted|] == p.emitted
      && (forall i :: 0 <= i < n ==>
            r.emitted[|p.emitted| + i] == if i % 2 == 0 then PauseClicked else ResumeClicked)
      && r.isPaused == (n % 2 == 1)
      && r.pauseCaption == (if n % 2 == 1 then ResumeCaption else (if n == 0 then p.pauseCaption else PauseCaption))
    decreases n
  {
    if n > 0 {
      TogglesAlternate(p, n - 1);
      var prev := Toggles(p, n - 1);
      var r := TogglePause(prev);
      assert r.emitted == prev.emitted + [if prev.isPaused then ResumeClicked else PauseClicked];
      forall i | 0 <= i < n
        ensures r.emitted[|p.emitted| + i] == if i % 2 == 0 then PauseClicked else ResumeClicked
      {
        if i < n - 1 {
          assert r.emitted[|p.emitted| + i] == prev.emitted[|p.emitted| + i];
        }
      }
      assert r.emitted[..|p.emitted|] == prev.emitted[..|p.emitted|];
    }
  }

  /** Two clicks restore the flag and the caption shown after any click. */
  lemma ToggleTwice(p: PanelState)
    ensures TogglePause(TogglePause(p)).isPaused == p.isPaused
    ensures TogglePause(TogglePause(p)).visible == p.visible
  {
  }

  /** The panel widget with its flags. */
  class ControlPanel {
    var isPaused: bool
    var preparing: bool
    var visible: set<Widget>
    var pauseCaption: Caption
    /** the pause_clicked / resume_clicked emissions so far */
    var emitted: seq<Signal>

    function State(): PanelState
      reads this
    {
      PanelState(isPaused, preparing, visible, pauseCaption, emitted)
    }

    /** __init__ and _build_ui: only Start is visible, nothing is emitted. */
    constructor ()
      ensures State() == PanelState(false, false, {StartButton}, PauseCaption, [])
    {
      isPaused := false;
      preparing := false;
      visible := {StartButton};
      pauseCaption := PauseCaption;
      emitted := [];
    }

    method OnPauseToggle()
      modifies this
      ensures State() == TogglePause(old(State()))
    {
      if isPaused {
        emitted := emitted + [ResumeClicked];
        pauseCaption := PauseCaption;
        isPaused := false;
      } else {
        emitted := emitted + [PauseClicked];
        pauseCaption := ResumeCaption;
        isPaused := true;
      }
    }

    method SetPreparing()
      modifies this
      ensures State() == Preparing(old(State()))
    {
      preparing := true;
      visible := {};
      visible := visible + {WaitLabel};
    }

    method UpdateForState(state: ExperimentState)
      modifies this
      ensures State() == ForState(old(State()), state)
    {
      visible := {};
      match state {
        case Idle =>
          visible := visible + {StartButton};
        case Running =>
          if preparing {
            visible := visible + {WaitLabel};
            return;
          }
          visible := visible + {PauseButton, StopButton};
        case Paused =>
          visible := visible + {PauseButton};
          pauseCaption := ResumeCaption;
          isPaused := true;
          visible := visible + {StopButton};
        case WaitingConfirm =>
          preparing := false;
          visible := visible + {ConfirmButton, SkipButton, StopButton};
        case _ =>
          preparing := false;
      }
    }

    method SetIdle()
      modifies this
      ensures State() == IdleState(old(State()))
    {
      isPaused := false;
      pauseCaption := PauseCaption;
      UpdateForState(Idle);
    }
  }
}
