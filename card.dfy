/**
 * The state of the spending-limit card and what it renders. The card keeps
 * the active limit (initially none) and the current period's spending
 * (initially 0). Two fetch handlers overwrite one field each, and only when
 * the response is ok; a non-ok response or a thrown error is swallowed. The
 * render shows a "set a limit" prompt when there is no limit and the progress
 * view otherwise; tapping either opens the limit editor.
 */
module SpendingLimitCard {
  import opened Progress

  /** The route both branches of the card navigate to on tap. */
  const SetLimitRoute: string := "/spending-limit"

  /**
   * What a fetch handler gets back: either the request (or the parsing of its
   * body) threw, or a response arrived with its ok flag and its decoded body.
   */
  datatype Fetch<T> = Thrown | Responded(ok: bool, data: T)

  predicate Succeeded<T>(r: Fetch<T>)
  {
    r.Responded? && r.ok
  }

  /** The card's two pieces of state. */
  datatype CardState = CardState(spendingLimit: Option<Limit>, currentSpending: real)

  /** The state right after mounting, before any fetch has completed. */
  const Initial: CardState := CardState(None, 0.0)

  /** The effect of the active-limit fetch; its body is the limit object or null. */
  function ApplyLimit(s: CardState, r: Fetch<Option<Limit>>): (s': CardState)
    ensures s'.currentSpending == s.currentSpending
    ensures Succeeded(r) ==> s'.spendingLimit == r.data
    ensures !Succeeded(r) ==> s' == s
  {
    if Succeeded(r) then s.(spendingLimit := r.data) else s
  }

  /** The effect of the current-period spending fetch; its body carries the total. */
  function ApplySpending(s: CardState, r: Fetch<real>): (s': CardState)
    ensures s'.spendingLimit == s.spendingLimit
    ensures Succeeded(r) ==> s'.currentSpending == r.data
    ensures !Succeeded(r) ==> s' == s
  {
    if Succeeded(r) then s.(currentSpending := r.data) else s
  }

  /** The two handlers write disjoint fields, so their results may arrive in either order. */
  lemma UpdatesCommute(s: CardState, a: Fetch<Option<Limit>>, b: Fetch<real>)
    ensures ApplySpending(ApplyLimit(s, a), b) == ApplyLimit(ApplySpending(s, b), a)
  {
  }

  /** The state once both mount-time fetches have completed, limit first. */
  function AfterMount(a: Fetch<Option<Limit>>, b: Fetch<real>): (s: CardState)
    ensures s.spendingLimit == (if Succeeded(a) then a.data else None)
    ensures s.currentSpending == (if Succeeded(b) then b.data else 0.0)
  {
    ApplySpending(ApplyLimit(Initial, a), b)
  }

  /**
   * After mounting there is a limit exactly when its fetch succeeded with a
   * non-null body; a failed limit fetch is indistinguishable from "no limit set".
   */
  lemma LimitAfterMount(a: Fetch<Option<Limit>>, b: Fetch<real>)
    ensures AfterMount(a, b) == ApplyLimit(ApplySpending(Initial, b), a)
    ensures AfterMount(a, b).spendingLimit.Some? <==> Succeeded(a) && a.data.Some?
    ensures AfterMount(a, b).currentSpending == (if Succeeded(b) then b.data else 0.0)
  {
  }

  /** What the card draws. */
  datatype Screen =
    | Prompt(onPress: string)
    | ProgressView(period: string, percentage: real, color: Band, spent: real, limitAmount: real, onPress: string)

  /** The render branch: the prompt without a limit, the progress view with one. */
  function Render(s: CardState): (v: Screen)
    requires Divisible(s.spendingLimit)
    ensures v.Prompt? <==> s.spendingLimit.None?
    ensures v.onPress == SetLimitRoute
    ensures v.ProgressView? ==>
      && v.period == s.spendingLimit.value.period
      && v.limitAmount == s.spendingLimit.value.amount
      && v.spent == s.currentSpending
      && v.percentage == Percentage(s.spendingLimit, s.currentSpending)
      && v.color == Color(s.spendingLimit, s.currentSpending)
  {
    match s.spendingLimit
    case None => Prompt(SetLimitRoute)
    case Some(limit) =>
      ProgressView(limit.period, Percentage(s.spendingLimit, s.currentSpending),
                   Color(s.spendingLimit, s.currentSpending), s.currentSpending, limit.amount, SetLimitRoute)
  }

  /**
   * A failed limit fetch leaves the card on the prompt whatever the spending
   * fetch returned; a successful one with a limit shows progress in any order.
   */
  lemma PromptAfterMount(a: Fetch<Option<Limit>>, b: Fetch<real>)
    requires Succeeded(a) && a.data.Some? ==> a.data.value.amount != 0.0
    ensures Divisible(AfterMount(a, b).spendingLimit)
    ensures Render(AfterMount(a, b)).Prompt? <==> !(Succeeded(a) && a.data.Some?)
  {
  }

  /** The card component: its state lives in two fields the fetch handlers overwrite. */
  class Card {
    var spendingLimit: Option<Limit>
    var currentSpending: real

    function State(): CardState
      reads this
    {
      CardState(spendingLimit, currentSpending)
    }

    constructor ()
      ensures State() == Initial
    {
      spendingLimit := None;
      currentSpending := 0.0;
    }

    /** Handles the outcome of the active-limit fetch. */
    method ApplyLimitResponse(r: Fetch<Option<Limit>>)
      modifies this
      ensures State() == ApplyLimit(old(State()), r)
      ensures currentSpending == old(currentSpending)
      ensures !Succeeded(r) ==> unchanged(this)
    {
      if r.Responded? && r.ok {
        spendingLimit := r.data;
      }
    }

    /** Handles the outcome of the current-period spending fetch. */
    method ApplySpendingResponse(r: Fetch<real>)
      modifies this
      ensures State() == ApplySpending(old(State()), r)
      ensures spendingLimit == old(spendingLimit)
      ensures !Succeeded(r) ==> unchanged(this)
    {
      if r.Responded? && r.ok {
        currentSpending := r.data;
      }
    }

    /** The screen the card currently renders. */
    function View(): (v: Screen)
      reads this
      requires Divisible(spendingLimit)
      ensures v.Prompt? <==> spendingLimit.None?
    {
      Render(State())
    }
  }

  /** Mounting a card and delivering both fetch results, in either order, yields the same card. */
  method Mount(a: Fetch<Option<Limit>>, b: Fetch<real>, limitFirst: bool) returns (card: Card)
    ensures fresh(card)
    ensures card.State() == AfterMount(a, b)
  {
    card := new Card();
    if limitFirst {
      card.ApplyLimitResponse(a);
      card.ApplySpendingResponse(b);
    } else {
      card.ApplySpendingResponse(b);
      card.ApplyLimitResponse(a);
      UpdatesCommute(Initial, a, b);
    }
  }
}
