/**
 * The toast's state machine (app/components/impl/Toast.tsx): the modal's reducer without
 * the `canClose` actions. Cases fall through exactly as in the JavaScript `switch`.
 */
module ToastState {
  import opened Wrappers

  datatype Phase = Closed | Opening | Open | Closing

  datatype State<C> = State(phase: Phase, canClose: bool, children: Option<C>)

  datatype Action<C> = OpenStart(payload: C) | OpenEnd | CloseStart | CloseEnd

  function InitialState<C>(): (s: State<C>)
    ensures s.phase == Closed && s.canClose && s.children == None
  {
    State(Closed, true, None)
  }

  /** The action creators `open` and `close`. */
  function OpenAction<C>(children: C): Action<C> { OpenStart(children) }
  function CloseAction<C>(): Action<C> { CloseStart }

  function Opened<C>(s: State<C>, children: C): State<C> {
    s.(phase := Opening, children := Some(children))
  }

  function CaseDefault<C>(s: State<C>, a: Action<C>): State<C> { s }

  function CaseOpen<C>(s: State<C>, a: Action<C>): State<C> {
    if a.CloseStart? && s.canClose then s.(phase := Closing) else CaseDefault(s, a)
  }

  function CaseOpening<C>(s: State<C>, a: Action<C>): State<C> {
    match a
    case OpenEnd => s.(phase := Open)
    case CloseStart => if s.canClose then s.(phase := Closing) else CaseOpen(s, a)
    case _ => CaseOpen(s, a)
  }

  function CaseClosed<C>(s: State<C>, a: Action<C>): State<C> {
    match a
    case OpenStart(children) => Opened(s, children)
    case _ => s
  }

  function CaseClosing<C>(s: State<C>, a: Action<C>): State<C> {
    match a
    case CloseEnd => s.(phase := Closed)
    case OpenStart(children) => Opened(s, children)
    case _ => CaseClosed(s, a)
  }

  function Reduce<C>(s: State<C>, a: Action<C>): (r: State<C>)
    // no action touches canClose
    ensures r.canClose == s.canClose
    ensures a.OpenStart? && (s.phase == Closed || s.phase == Closing) ==>
              r == State(Opening, s.canClose, Some(a.payload))
    ensures a.OpenStart? && (s.phase == Opening || s.phase == Open) ==> r == s
    ensures a == OpenEnd ==> r == if s.phase == Opening then s.(phase := Open) else s
    ensures a == CloseStart ==>
              r == if (s.phase == Opening || s.phase == Open) && s.canClose then s.(phase := Closing) else s
    ensures a == CloseEnd ==> r == if s.phase == Closing then s.(phase := Closed) else s
  {
    match s.phase
    case Closing => CaseClosing(s, a)
    case Closed => CaseClosed(s, a)
    case Opening => CaseOpening(s, a)
    case Open => CaseOpen(s, a)
  }

  predicate IsClosed<C>(s: State<C>) { s.phase == Closed }
  predicate IsOpen<C>(s: State<C>) { s.phase == Open }
  predicate IsVisible<C>(s: State<C>) { s.phase in [Opening, Open, Closing] }
  predicate ShowsDialog<C>(s: State<C>) { s.phase == Open || s.phase == Opening }

  lemma DerivedFlags<C>(s: State<C>)
    ensures IsVisible(s) <==> !IsClosed(s)
    ensures IsOpen(s) ==> IsVisible(s) && ShowsDialog(s)
    ensures ShowsDialog(s) <==> IsVisible(s) && s.phase != Closing
  {
  }

  function ReduceAll<C>(s: State<C>, actions: seq<Action<C>>): State<C>
    decreases |actions|
  {
    if |actions| == 0 then s else ReduceAll(Reduce(s, actions[0]), actions[1..])
  }

  /** Dispatching any actions never changes `canClose`. */
  lemma {:induction false} CanCloseInvariant<C>(s: State<C>, actions: seq<Action<C>>)
    ensures ReduceAll(s, actions).canClose == s.canClose
    decreases |actions|
  {
    if |actions| > 0 {
      CanCloseInvariant(Reduce(s, actions[0]), actions[1..]);
    }
  }

  /** Every state reachable from the initial state can be closed. */
  lemma ReachableCanClose<C>(actions: seq<Action<C>>)
    ensures ReduceAll(InitialState<C>(), actions).canClose
  {
    CanCloseInvariant(InitialState<C>(), actions);
  }

  /** So, in a reachable state, CLOSE_START from opening or open always starts closing. */
  lemma ReachableCloseStarts<C>(actions: seq<Action<C>>)
    ensures var s := ReduceAll(InitialState<C>(), actions);
            (s.phase == Opening || s.phase == Open) ==> Reduce(s, CloseAction()) == s.(phase := Closing)
  {
    ReachableCanClose(actions);
  }

  /** Every reached state shows children whenever it is not closed. */
  lemma {:induction false} ReachableHasChildren<C>(s: State<C>, actions: seq<Action<C>>)
    requires s.phase != Closed ==> s.children.Some?
    ensures var r := ReduceAll(s, actions); r.phase != Closed ==> r.children.Some?
    decreases |actions|
  {
    if |actions| > 0 {
      ReachableHasChildren(Reduce(s, actions[0]), actions[1..]);
    }
  }
}
