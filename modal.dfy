/**
 * The modal's state machine (app/components/impl/Modal.tsx). The reducer is a JavaScript
 * `switch` whose cases without a `return` fall through to the next case; each `Case...`
 * function below is one case of the `switch (stateObj.state)` and ends by calling the case
 * textually after it, so the fall-through order is the source's own.
 */
module ModalState {
  import opened Wrappers

  datatype Phase = Closed | Opening | Open | Closing

  /**
   * A state record. `children` is the ReactNode shown by the modal; the record spread
   * `{...stateObj, state: 'closed'}` keeps the children of a closing modal, so a closed
   * record may still hold children.
   */
  datatype State<C> = State(phase: Phase, canClose: bool, children: Option<C>)

  datatype Action<C> = OpenStart(payload: C) | OpenEnd | CloseStart | CloseEnd | PreventClose | AllowClose

  /** The initial state: closed, closable, no children. */
  function InitialState<C>(): (s: State<C>)
    ensures s.phase == Closed && s.canClose && s.children == None
  {
    State(Closed, true, None)
  }

  /** The action creators `open`, `close`, `allowClose` and `preventClose`. */
  function OpenAction<C>(children: C): Action<C> { OpenStart(children) }
  function CloseAction<C>(): Action<C> { CloseStart }
  function AllowCloseAction<C>(): Action<C> { AllowClose }
  function PreventCloseAction<C>(): Action<C> { PreventClose }

  function Opened<C>(s: State<C>, children: C): State<C> {
    s.(phase := Opening, children := Some(children))
  }

  function CaseDefault<C>(s: State<C>, a: Action<C>): State<C> { s }

  function CaseOpen<C>(s: State<C>, a: Action<C>): State<C> {
    if a.CloseStart? && s.canClose then s.(phase := Closing) else CaseDefault(s, a)
  }

  function CaseOpening<C>(s: State<C>, a: Action<C>): State<C> {
    match a
    case OpenEnd => s.(phase := Open)
    case CloseStart => if s.canClose then s.(phase := Closing) else CaseOpen(s, a)
    case _ => CaseOpen(s, a)
  }

  /** `case 'closed'` ends in `default: return stateObj`, so nothing falls past it. */
  function CaseClosed<C>(s: State<C>, a: Action<C>): State<C> {
    match a
    case OpenStart(children) => Opened(s, children)
    case _ => s
  }

  function CaseClosing<C>(s: State<C>, a: Action<C>): State<C> {
    match a
    case CloseEnd => s.(phase := Closed)
    case OpenStart(children) => Opened(s, children)
    case _ => CaseClosed(s, a)
  }

  /**
   * The reducer. The two `canClose` actions act the same in every state; every other action
   * is dispatched on the phase, with fall-through between cases.
   */
  function Reduce<C>(s: State<C>, a: Action<C>): (r: State<C>)
    // canClose actions: only the flag changes
    ensures a == AllowClose ==> r == s.(canClose := true)
    ensures a == PreventClose ==> r == s.(canClose := false)
    // OPEN_START opens a closed or closing modal with the new children, and is ignored otherwise
    ensures a.OpenStart? && (s.phase == Closed || s.phase == Closing) ==>
              r == State(Opening, s.canClose, Some(a.payload))
    ensures a.OpenStart? && (s.phase == Opening || s.phase == Open) ==> r == s
    // OPEN_END only finishes an opening
    ensures a == OpenEnd ==> r == if s.phase == Opening then s.(phase := Open) else s
    // CLOSE_START closes an opening or open modal only when allowed
    ensures a == CloseStart ==>
              r == if (s.phase == Opening || s.phase == Open) && s.canClose then s.(phase := Closing) else s
    // CLOSE_END only finishes a closing
    ensures a == CloseEnd ==> r == if s.phase == Closing then s.(phase := Closed) else s
    // a closed modal ignores everything except OPEN_START and the canClose actions
    ensures s.phase == Closed && !a.OpenStart? && a != AllowClose && a != PreventClose ==> r == s
  {
    match a
    case AllowClose => s.(canClose := true)
    case PreventClose => s.(canClose := false)
    case _ =>
      match s.phase
      case Closing => CaseClosing(s, a)
      case Closed => CaseClosed(s, a)
      case Opening => CaseOpening(s, a)
      case Open => CaseOpen(s, a)
  }

  /** `isClosed`, `isOpen` and `isVisible` of useDerivedModalState. */
  predicate IsClosed<C>(s: State<C>) { s.phase == Closed }
  predicate IsOpen<C>(s: State<C>) { s.phase == Open }
  predicate IsVisible<C>(s: State<C>) { s.phase in [Opening, Open, Closing] }

  /** The `isOpen` that drives the dialog's transition in `Modal`: open or opening. */
  predicate ShowsDialog<C>(s: State<C>) { s.phase == Open || s.phase == Opening }

  /** The derived flags partition the phases: visible exactly when not closed. */
  lemma DerivedFlags<C>(s: State<C>)
    ensures IsVisible(s) <==> !IsClosed(s)
    ensures IsOpen(s) ==> IsVisible(s) && ShowsDialog(s)
    ensures ShowsDialog(s) <==> IsVisible(s) && s.phase != Closing
  {
  }

  /** The state after dispatching `actions` in order. */
  function ReduceAll<C>(s: State<C>, actions: seq<Action<C>>): State<C>
    decreases |actions|
  {
    if |actions| == 0 then s else ReduceAll(Reduce(s, actions[0]), actions[1..])
  }

  /** Every state reached from the initial state shows children whenever it is not closed. */
  lemma {:induction false} ReachableHasChildren<C>(s: State<C>, actions: seq<Action<C>>)
    requires s.phase != Closed ==> s.children.Some?
    ensures var r := ReduceAll(s, actions); r.phase != Closed ==> r.children.Some?
    decreases |actions|
  {
    if |actions| > 0 {
      ReachableHasChildren(Reduce(s, actions[0]), actions[1..]);
    }
  }

  /** The action creators drive a full open/close cycle from the initial state. */
  lemma OpenCloseCycle<C>(children: C)
    ensures var opening := Reduce(InitialState(), OpenAction(children));
            var open := Reduce(opening, OpenEnd);
            var closing := Reduce(open, CloseAction());
            var closed := Reduce(closing, CloseEnd);
            && opening == State(Opening, true, Some(children))
            && open.phase == Open && closing.phase == Closing
            && closed == State(Closed, true, Some(children))
  {
  }

  /** After PREVENT_CLOSE, no sequence of CLOSE_START actions moves the modal to closing. */
  lemma {:induction false} PreventCloseHolds<C>(s: State<C>, n: nat)
    requires s.phase == Opening || s.phase == Open
    ensures ReduceAll(Reduce(s, PreventClose), seq(n, _ => CloseStart)) == s.(canClose := false)
    decreases n
  {
    var t := Reduce(s, PreventClose);
    if n > 0 {
      var closes := seq(n, _ => CloseStart);
      assert closes[1..] == seq(n - 1, _ => CloseStart);
      assert Reduce(t, closes[0]) == t;
      PreventCloseHolds(s, n - 1);
    }
  }
}
