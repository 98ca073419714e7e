/** The onboarding tour (frontend/src/components/tutorial/OnboardingTutorial.jsx):
    six steps shown one at a time, opened on a first visit and closed for
    good once the `hasSeenTutorial` flag is stored. The one-second delay
    before opening is not modelled; the tour opens on mount. */
module Onboarding {
  import opened Common

  const SeenKey := "hasSeenTutorial"

  /** The number of steps of the tour. */
  const StepCount := 6

  /** The tour's state: whether it is open and the step shown. */
  datatype Tour = Tour(isOpen: bool, step: int)

  /** Every step shown is one of the six. */
  predicate ValidTour(t: Tour)
  {
    0 <= t.step < StepCount
  }

  /** The tour opens on mount exactly when the flag is not stored (absent or
      empty). */
  function Mounted(store: Store): (t: Tour)
    ensures t.isOpen <==> !StoredTruthy(store, SeenKey)
    ensures t.step == 0 && ValidTour(t)
  {
    Tour(!StoredTruthy(store, SeenKey), 0)
  }

  /** `handleClose`: the flag is stored and the tour closes on the step it
      was on. */
  function Closed(t: Tour, store: Store): (r: (Tour, Store))
    ensures !r.0.isOpen && r.0.step == t.step
    ensures StoredTruthy(r.1, SeenKey)
    ensures forall key :: key != SeenKey ==> (key in r.1 <==> key in store) && (key in store ==> r.1[key] == store[key])
  {
    (Tour(false, t.step), store[SeenKey := Text("true")])
  }

  /** The buttons of a step. */
  datatype Action = Next | Prev | Skip

  /** The tour and the storage after `action`. */
  function Act(t: Tour, store: Store, action: Action): (r: (Tour, Store))
    ensures action == Next && t.step < StepCount - 1 ==> r == (Tour(t.isOpen, t.step + 1), store)
    ensures action == Next && t.step >= StepCount - 1 ==> r == Closed(t, store)
    ensures action == Prev ==>
      r.1 == store && r.0.isOpen == t.isOpen && r.0.step == (if t.step > 0 then t.step - 1 else t.step)
    ensures action == Skip ==> r == Closed(t, store)
  {
    match action
    case Next => if t.step < StepCount - 1 then (t.(step := t.step + 1), store) else Closed(t, store)
    case Prev => (if t.step > 0 then t.(step := t.step - 1) else t, store)
    case Skip => Closed(t, store)
  }

  /** No button takes the tour outside its six steps, and every button
      either moves one step, stays, or closes the tour with the flag
      stored. */
  lemma ActKeepsValid(t: Tour, store: Store, action: Action)
    requires ValidTour(t)
    ensures ValidTour(Act(t, store, action).0)
    ensures var (t', store') := Act(t, store, action);
      || (store' == store && t'.isOpen == t.isOpen && -1 <= t'.step - t.step <= 1)
      || (!t'.isOpen && t'.step == t.step && StoredTruthy(store', SeenKey))
  {
  }

  /** The tour and the storage after the buttons of `actions`, in order. */
  function Run(t: Tour, store: Store, actions: seq<Action>): (Tour, Store)
    decreases |actions|
  {
    if actions == [] then (t, store) else
      var (t', store') := Act(t, store, actions[0]);
      Run(t', store', actions[1..])
  }

  /** Any sequence of buttons keeps the step among the six, and once the
      flag is stored it stays stored. */
  lemma {:induction false} RunKeepsValid(t: Tour, store: Store, actions: seq<Action>)
    requires ValidTour(t)
    ensures ValidTour(Run(t, store, actions).0)
    ensures StoredTruthy(store, SeenKey) ==> StoredTruthy(Run(t, store, actions).1, SeenKey)
    decreases |actions|
  {
    if actions != [] {
      ActKeepsValid(t, store, actions[0]);
      var (t', store') := Act(t, store, actions[0]);
      RunKeepsValid(t', store', actions[1..]);
    }
  }

  /** Pressing Next on every step from the first walks the whole tour: the
      last press closes it on the last step and stores the flag, so the
      tour does not open on the next mount. */
  lemma {:induction false} NextThroughTour(store: Store, k: nat)
    requires k < StepCount
    ensures Run(Tour(true, 0), store, seq(k, _ => Next)) == (Tour(true, k), store)
    ensures var (t, store') := Run(Tour(true, 0), store, seq(StepCount, _ => Next));
      t == Tour(false, StepCount - 1) && StoredTruthy(store', SeenKey) && !Mounted(store').isOpen
  {
    NextRun(store, 0, k);
    NextRun(store, 0, StepCount - 1);
    var nexts := seq(StepCount, _ => Next);
    RunAppend(Tour(true, 0), store, seq(StepCount - 1, _ => Next), [Next]);
    assert nexts == seq(StepCount - 1, _ => Next) + [Next];
  }

  lemma {:induction false} NextRun(store: Store, from: nat, k: nat)
    requires from + k < StepCount
    ensures Run(Tour(true, from), store, seq(k, _ => Next)) == (Tour(true, from + k), store)
    decreases k
  {
    if k > 0 {
      assert seq(k, _ => Next)[1..] == seq(k - 1, _ => Next);
      NextRun(store, from + 1, k - 1);
    }
  }

  lemma {:induction false} RunAppend(t: Tour, store: Store, a: seq<Action>, b: seq<Action>)
    ensures Run(t, store, a + b) == var (t', store') := Run(t, store, a); Run(t', store', b)
    decreases |a|
  {
    if a == [] {
      assert a + b == b;
    } else {
      assert (a + b)[0] == a[0] && (a + b)[1..] == a[1..] + b;
      var (t', store') := Act(t, store, a[0]);
      RunAppend(t', store', a[1..], b);
    }
  }

  /** Prev undoes Next on every step but the last. */
  lemma PrevUndoesNext(t: Tour, store: Store)
    requires ValidTour(t) && t.step < StepCount - 1
    ensures Run(t, store, [Next, Prev]) == (t, store)
  {
    assert [Next, Prev][1..] == [Prev];
  }

  /** The "Voltar" button is shown exactly after the first step. */
  predicate BackShown(t: Tour)
  {
    t.step > 0
  }

  /** The "Pular tutorial" link is shown on every step but the last. */
  predicate SkipShown(t: Tour)
  {
    t.step < StepCount - 1
  }

  /** The Next button's caption. */
  function NextCaption(t: Tour): (c: string)
    ensures c == "Começar!" <==> t.step == StepCount - 1
  {
    if t.step == StepCount - 1 then "Começar!" else "Próximo"
  }

  /** The footer buttons: Prev moves back whenever it is shown, the skip
      link closes the tour whenever it is shown, and Next on the last step
      (the only one without the skip link) closes it. The close control and
      the backdrop are present on every step and skip (`Skip`). */
  lemma ButtonsShown(t: Tour, store: Store)
    requires ValidTour(t)
    ensures BackShown(t) <==> Act(t, store, Prev).0 != t
    ensures !SkipShown(t) <==> Act(t, store, Next) == Closed(t, store)
    ensures !SkipShown(t) <==> NextCaption(t) == "Começar!"
  {
  }

  /** The tour component, its state updated by the handlers. */
  class Tutorial {
    var isOpen: bool
    var currentStep: int

    function State(): Tour
      reads this
    {
      Tour(isOpen, currentStep)
    }

    /** The component mounted: closed on step 0 until the storage is read. */
    constructor ()
      ensures State() == Tour(false, 0)
    {
      isOpen, currentStep := false, 0;
    }

    /** The mount effect: opens the tour unless the flag is stored. */
    method Mount(storage: LocalStorage)
      modifies this
      ensures isOpen == (old(isOpen) || !StoredTruthy(storage.items, SeenKey))
      ensures currentStep == old(currentStep)
    {
      var hasSeenTutorial := StoredTruthy(storage.items, SeenKey);
      if !hasSeenTutorial {
        isOpen := true;
      }
    }

    method HandleClose(storage: LocalStorage)
      modifies this, storage
      ensures (State(), storage.items) == Closed(old(State()), old(storage.items))
    {
      storage.items := storage.items[SeenKey := Text("true")];
      isOpen := false;
    }

    method HandleNext(storage: LocalStorage)
      modifies this, storage
      ensures (State(), storage.items) == Act(old(State()), old(storage.items), Next)
    {
      if currentStep < StepCount - 1 {
        currentStep := currentStep + 1;
      } else {
        HandleClose(storage);
      }
    }

    method HandlePrev(storage: LocalStorage)
      modifies this
      ensures (State(), storage.items) == Act(old(State()), storage.items, Prev)
    {
      if currentStep > 0 {
        currentStep := currentStep - 1;
      }
    }

    method HandleSkip(storage: LocalStorage)
      modifies this, storage
      ensures (State(), storage.items) == Act(old(State()), old(storage.items), Skip)
    {
      HandleClose(storage);
    }
  }
}
