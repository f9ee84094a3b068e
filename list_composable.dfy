/**
 * The list destination (`ListComposable.kt`) together with the effects of
 * the list screen it shows (`ListScreen.kt`): the handshake that turns a
 * navigation action into exactly one table mutation and one snackbar.
 *
 * Three values take part: `myAction`, the last navigation action the
 * destination copied; `tag`, the coordinator's action field; and
 * `screenKey`, the tag value the list screen's effects (the mutation
 * dispatch and the snackbar, both keyed on the tag) last ran with, None
 * before the screen's first composition.
 */
module ListComposable {
  import opened Wrappers
  import opened Util
  import opened TaskStore
  import opened ViewModel
  import opened ListScreen

  datatype Handshake = Handshake(myAction: Action, tag: Action, screenKey: Option<Action>)

  /** A fresh destination: nothing copied yet, the screen not yet composed. */
  function Fresh(tag: Action): (h: Handshake)
    ensures h.myAction == NO_ACTION && h.tag == tag && h.screenKey.None?
  {
    Handshake(NO_ACTION, tag, None)
  }

  /** The screen's effects have run with the current tag. */
  predicate Settled(h: Handshake) {
    h.screenKey == Some(h.tag)
  }

  /**
   * The destination's effect with navigation action `nav`: when `nav`
   * differs from `myAction`, copy it into both `myAction` and the tag;
   * otherwise write nothing. Either way `myAction` ends equal to `nav`.
   */
  function Arrive(h: Handshake, nav: Action): (r: Handshake)
    ensures r.myAction == nav && r.screenKey == h.screenKey
    ensures nav == h.myAction ==> r == h
    ensures nav != h.myAction ==> r.tag == nav
  {
    if nav != h.myAction then h.(myAction := nav, tag := nav) else h
  }

  /** The table mutation a composition in state `h` runs, if any. */
  function Fired(h: Handshake): (r: Option<Action>)
    ensures r.Some? <==> h.tag != NO_ACTION && !Settled(h)
    ensures r.Some? ==> r.value == h.tag
  {
    if h.screenKey != Some(h.tag) && h.tag != NO_ACTION then Some(h.tag) else None
  }

  /**
   * One composition of the list screen: if the tag differs from the key
   * the effects last ran with, they run again, dispatching the tag and
   * resetting it to NO_ACTION.
   */
  function Compose(h: Handshake): (r: Handshake)
    ensures r.myAction == h.myAction
    ensures Settled(h) ==> r == h
    ensures !Settled(h) ==> r.tag == NO_ACTION && r.screenKey == Some(h.tag)
  {
    if Settled(h) then h else h.(tag := NO_ACTION, screenKey := Some(h.tag))
  }

  /**
   * The first frame of a new list destination entered with `nav`. The
   * screen composes with the tag it finds; then its effects run in
   * composition order: the destination's effect copies `nav` into the tag,
   * the dispatch runs with the tag as composed, and the snackbar, when
   * that tag was not NO_ACTION, resets the tag, overwriting `nav`.
   */
  function FirstFrame(tag: Action, nav: Action): (r: Handshake)
    ensures r.myAction == nav && r.screenKey == Some(tag)
    ensures tag == NO_ACTION ==> r.tag == nav
    ensures tag != NO_ACTION ==> r.tag == NO_ACTION
  {
    var arrived := Arrive(Fresh(tag), nav);
    arrived.(tag := if tag != NO_ACTION then NO_ACTION else arrived.tag, screenKey := Some(tag))
  }

  /** What can happen between compositions. */
  datatype Event =
    | Enter(action: Action)      // a new list destination, entered with its argument, has its first frame
    | Navigate(action: Action)   // the destination's effect with its navigation argument
    | Recompose                  // the list screen composes again
    | WriteTag(action: Action)   // a direct write of the tag, as the swipe handler does

  /** A run's final state and the mutations it fired, in order. */
  datatype Trace = Trace(final: Handshake, fired: seq<Action>)

  function OptionToSeq(o: Option<Action>): seq<Action> {
    if o.Some? then [o.value] else []
  }

  /** The number of compositions among `events`: recompositions and first frames. */
  function Compositions(events: seq<Event>): nat
    decreases |events|
  {
    if events == [] then 0
    else (if events[0].Recompose? || events[0].Enter? then 1 else 0) + Compositions(events[1..])
  }

  /**
   * Run the events from `h`: only compositions fire mutations, each at
   * most one, and NO_ACTION is never fired.
   */
  function Run(h: Handshake, events: seq<Event>): (r: Trace)
    ensures |r.fired| <= Compositions(events)
    ensures forall i :: 0 <= i < |r.fired| ==> r.fired[i] != NO_ACTION
    decreases |events|
  {
    if events == [] then Trace(h, [])
    else
      var (next, fired) := match events[0]
        case Enter(nav) => (FirstFrame(h.tag, nav), OptionToSeq(Fired(Fresh(h.tag))))
        case Navigate(nav) => (Arrive(h, nav), [])
        case Recompose => (Compose(h), OptionToSeq(Fired(h)))
        case WriteTag(a) => (h.(tag := a), []);
      var rest := Run(next, events[1..]);
      Trace(rest.final, fired + rest.fired)
  }

  /** `n` compositions in a row. */
  function Recomposes(n: nat): (es: seq<Event>)
    ensures |es| == n && forall i :: 0 <= i < n ==> es[i] == Recompose
  {
    if n == 0 then [] else [Recompose] + Recomposes(n - 1)
  }

  /** Repeating a navigation step changes nothing: the step is idempotent. */
  lemma ArriveIdempotent(h: Handshake, nav: Action)
    ensures Arrive(Arrive(h, nav), nav) == Arrive(h, nav)
  {
  }

  /** Two compositions always settle the screen. */
  lemma TwoCompositionsSettle(h: Handshake)
    ensures Settled(Compose(Compose(h)))
  {
  }

  /**
   * However often the screen recomposes, it fires at most one mutation:
   * the one pending when the first composition happens.
   */
  lemma {:induction false} RecomposesFireAtMostOnce(h: Handshake, n: nat)
    ensures Run(h, Recomposes(n)).fired == if n == 0 then [] else OptionToSeq(Fired(h))
    decreases n
  {
    if n > 0 {
      var es := Recomposes(n);
      assert es[0] == Recompose && es[1..] == Recomposes(n - 1);
      var h1 := Compose(h);
      RecomposesFireAtMostOnce(h1, n - 1);
      assert Fired(h1).None?;
    }
  }

  /**
   * A genuine change fires once: a navigation action other than NO_ACTION
   * and other than the last one copied fires exactly that action's
   * mutation, once, over any number of compositions, unless the screen's
   * effects already hold that very action as their key.
   */
  lemma GenuineChangeFiresOnce(h: Handshake, a: Action, n: nat)
    requires a != h.myAction && a != NO_ACTION && h.screenKey != Some(a) && n >= 1
    requires h.screenKey.None? ==> h.tag == NO_ACTION
    ensures Run(h, [Navigate(a)] + Recomposes(n)).fired == [a]
  {
    var es := [Navigate(a)] + Recomposes(n);
    assert es[0] == Navigate(a) && es[1..] == Recomposes(n);
    RecomposesFireAtMostOnce(Arrive(h, a), n);
  }

  /**
   * Returning with the action last copied fires nothing: the repeated
   * action is not written, and no mutation replays, both on a settled
   * screen and on a screen composed anew (its effects' key lost, the
   * saved copy and a reset tag kept).
   */
  lemma RepeatedActionFiresNothing(h: Handshake, n: nat)
    requires Settled(h) || h.tag == NO_ACTION
    ensures Run(h, [Navigate(h.myAction)] + Recomposes(n)).fired == []
  {
    var es := [Navigate(h.myAction)] + Recomposes(n);
    assert es[0] == Navigate(h.myAction) && es[1..] == Recomposes(n);
    RecomposesFireAtMostOnce(h, n);
  }

  /**
   * A new list destination entered with an action other than NO_ACTION,
   * while no action is pending, fires that action once.
   */
  lemma EnteringWithActionFiresOnce(h: Handshake, a: Action, n: nat)
    requires h.tag == NO_ACTION && a != NO_ACTION && n >= 1
    ensures Run(h, [Enter(a)] + Recomposes(n)).fired == [a]
  {
    var es := [Enter(a)] + Recomposes(n);
    assert es[0] == Enter(a) && es[1..] == Recomposes(n);
    var h1 := FirstFrame(h.tag, a);
    RecomposesFireAtMostOnce(h1, n);
  }

  /**
   * A new list destination entered while an action is still pending
   * replays that pending action and loses its own: the snackbar's reset
   * overwrites the argument the destination's effect has just copied.
   */
  lemma StaleTagReplacesNewAction(h: Handshake, a: Action, n: nat)
    requires h.tag != NO_ACTION
    ensures Run(h, [Enter(a)] + Recomposes(n)).fired == [h.tag]
  {
    var es := [Enter(a)] + Recomposes(n);
    assert es[0] == Enter(a) && es[1..] == Recomposes(n);
    RecomposesFireAtMostOnce(FirstFrame(h.tag, a), n);
  }

  /**
   * Each return to the list is a new destination sharing the coordinator's
   * tag: returning with NO_ACTION fires nothing, and a later return with
   * ADD fires ADD again, although the previous return before them was ADD
   * as well.
   */
  lemma NoneThenAddFiresAgain(h: Handshake)
    requires h.tag == NO_ACTION
    ensures Run(h, [Enter(NO_ACTION), Recompose, Enter(ADD), Recompose]).fired == [ADD]
  {
    var es := [Enter(NO_ACTION), Recompose, Enter(ADD), Recompose];
    var h2 := Compose(FirstFrame(h.tag, NO_ACTION));
    assert h2.tag == NO_ACTION;
    assert es[1..] == [Recompose, Enter(ADD), Recompose];
    assert es[1..][1..] == [Enter(ADD), Recompose];
    assert Run(h2, [Enter(ADD), Recompose]).fired == [ADD] by {
      EnteringWithActionFiresOnce(h2, ADD, 1);
      assert [Enter(ADD)] + Recomposes(1) == [Enter(ADD), Recompose];
    }
  }

  /** A swipe's tag write on a settled screen fires exactly the swiped action once. */
  lemma SwipeFiresOnce(h: Handshake, a: Action, n: nat)
    requires Settled(h) && h.tag == NO_ACTION && a != NO_ACTION && n >= 1
    ensures Run(h, [WriteTag(a)] + Recomposes(n)).fired == [a]
  {
    var es := [WriteTag(a)] + Recomposes(n);
    assert es[0] == WriteTag(a) && es[1..] == Recomposes(n);
    RecomposesFireAtMostOnce(h.(tag := a), n);
  }

  /**
   * The swipe is reported from the item's composition, not from an effect:
   * when the report comes again after the first one has fired and the tag
   * has been reset, DELETE fires a second time.
   */
  lemma RepeatedSwipeReportFiresAgain(h: Handshake)
    requires Settled(h) && h.tag == NO_ACTION
    ensures Run(h, [WriteTag(DELETE), Recompose, Recompose, WriteTag(DELETE), Recompose]).fired == [DELETE, DELETE]
  {
    var h3 := Handshake(h.myAction, NO_ACTION, Some(NO_ACTION));
    var second := [WriteTag(DELETE), Recompose];
    assert second[1..] == [Recompose];
    assert Run(h3, second).fired == [DELETE];
    var first := [Recompose, Recompose] + second;
    assert first[1..] == [Recompose] + second && first[1..][1..] == second;
    assert Run(h.(tag := DELETE), first).fired == [DELETE, DELETE];
    var es := [WriteTag(DELETE)] + first;
    assert es == [WriteTag(DELETE), Recompose, Recompose, WriteTag(DELETE), Recompose];
    assert es[1..] == first;
  }

  /**
   * One list destination on the navigation graph, driving the list screen
   * with the coordinator's tag rather than with its navigation argument.
   */
  class ListDestination {
    const vm: SharedViewModel
    /** The saved copy of the last navigation action. */
    var myAction: Action
    /** The tag value the screen's effects last ran with. */
    var screenKey: Option<Action>

    function State(): Handshake
      reads this, vm
    {
      Handshake(myAction, vm.action, screenKey)
    }

    constructor (vm: SharedViewModel)
      ensures this.vm == vm
      ensures State() == Fresh(vm.action)
    {
      this.vm := vm;
      myAction := NO_ACTION;
      screenKey := None;
    }

    /** The destination's effect, run with this entry's navigation argument. */
    method OnNavigate(action: Action)
      modifies this, vm
      ensures State() == Arrive(old(State()), action)
      ensures vm.State() == old(vm.State()).(action := vm.action)
    {
      if action != myAction {
        myAction := action;
        vm.action := action;
      }
    }

    /**
     * The first frame of a new destination entered with `action`: the
     * destination's effect copies the argument into the tag, the dispatch
     * runs with the tag as composed, and the snackbar reports that tag and,
     * unless it was NO_ACTION, resets the tag.
     */
    method ComposeFirstFrame(action: Action) returns (snackBar: Option<string>)
      requires vm.Valid() && myAction == NO_ACTION && screenKey.None?
      modifies this, vm
      ensures vm.Valid()
      ensures State() == FirstFrame(old(vm.action), action)
      ensures vm.State() == old(vm.State()).(
          action := vm.action,
          store := Dispatch(old(vm.store), old(vm.Buffer()), old(vm.action)),
          searchAppBarState := if old(vm.action) == ADD then CLOSED else old(vm.searchAppBarState))
      ensures snackBar == DisplaySnackBar(old(vm.action), old(vm.title))
    {
      var tag := vm.action;
      var taskTitle := vm.title;
      if action != myAction {
        myAction := action;
        vm.action := action;
      }
      vm.HandleDatabaseActions(tag);
      snackBar := DisplaySnackBar(tag, taskTitle);
      if tag != NO_ACTION {
        vm.action := NO_ACTION;
      }
      screenKey := Some(tag);
    }

    /**
     * One composition of the list screen with the tag as its action: when
     * the tag changed since the effects last ran, dispatch it to the
     * coordinator and let the snackbar report it and reset the tag; the
     * snackbar's title is the buffer's title at composition time.
     */
    method ComposeScreen() returns (snackBar: Option<string>)
      requires vm.Valid()
      modifies this, vm
      ensures vm.Valid()
      ensures State() == Compose(old(State()))
      ensures var fired := Fired(old(State()));
        vm.State() == old(vm.State()).(
          action := vm.action,
          store := if fired.Some? then Dispatch(old(vm.store), old(vm.Buffer()), fired.value) else old(vm.store),
          searchAppBarState := if fired == Some(ADD) then CLOSED else old(vm.searchAppBarState))
      ensures snackBar == if Fired(old(State())).Some? then Some(SetMessage(old(vm.action), old(vm.title))) else None
    {
      var action := vm.action;
      var taskTitle := vm.title;
      if screenKey != Some(action) {
        vm.HandleDatabaseActions(action);
        snackBar := DisplaySnackBar(action, taskTitle);
        if action != NO_ACTION {
          vm.action := NO_ACTION;
        }
        screenKey := Some(action);
      } else {
        snackBar := None;
      }
    }
  }
}
