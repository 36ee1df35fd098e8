/**
 * The live-feedback card of the mixing page: it keeps the five most recent
 * feedback items, newest first, and picks an icon and colours for each by
 * its suggestion type.
 */
module LiveFeedbackCard {
  import opened Wrappers
  import opened Seqs
  import opened RealTimeAnalyzer

  /** Items the card keeps. */
  const HistoryLimit: nat := 5

  /** The items received so far, newest first. */
  function NewestFirst(received: seq<Feedback>): (r: seq<Feedback>)
    ensures |r| == |received|
    ensures forall i :: 0 <= i < |r| ==> r[i] == received[|received| - 1 - i]
  {
    if received == [] then [] else [received[|received| - 1]] + NewestFirst(received[..|received| - 1])
  }

  /** What the card should show: the last five items received, newest first. */
  function Recent(received: seq<Feedback>): seq<Feedback> {
    Take(NewestFirst(received), HistoryLimit)
  }

  /**
   * One more item goes in front of the kept items with at most four of them
   * behind it, exactly the effect's `[feedback, ...prev.slice(0, 4)]`.
   */
  lemma {:induction false} RecentPush(received: seq<Feedback>, f: Feedback)
    ensures Recent(received + [f]) == [f] + Take(Recent(received), HistoryLimit - 1)
  {
    var all := received + [f];
    assert all[..|all| - 1] == received;
    var newest := NewestFirst(all);
    assert newest == [f] + NewestFirst(received);
    var lhs := Recent(all);
    var rhs := [f] + Take(Recent(received), HistoryLimit - 1);
    assert |lhs| == |rhs|;
    forall i | 0 <= i < |lhs| ensures lhs[i] == rhs[i] {
      if i > 0 {
        assert lhs[i] == NewestFirst(received)[i - 1];
      }
    }
  }

  class Card {
    /** `feedbackHistory`. */
    var history: seq<Feedback>
    /** Every item the effect has taken in, oldest first. */
    ghost var received: seq<Feedback>

    /** The card shows the five most recent items, newest first. */
    ghost predicate Valid()
      reads this
    {
      history == Recent(received)
    }

    constructor ()
      ensures Valid() && history == [] && received == []
    {
      history, received := [], [];
    }

    /**
     * The effect on a new `feedback` prop: a present item is put in front of
     * at most four earlier ones; a missing one changes nothing.
     */
    method OnFeedback(feedback: Option<Feedback>)
      requires Valid()
      modifies this
      ensures Valid()
      ensures feedback.None? ==> history == old(history) && received == old(received)
      ensures feedback.Some? ==>
        history == [feedback.value] + Take(old(history), HistoryLimit - 1)
        && received == old(received) + [feedback.value]
    {
      if feedback.Some? {
        RecentPush(received, feedback.value);
        history := [feedback.value] + Take(history, HistoryLimit - 1);
        received := received + [feedback.value];
      }
    }
  }

  /**
   * The kept items never exceed five, are all the items received when there
   * were at most five, and run from the latest received backwards.
   */
  lemma RecentBounded(received: seq<Feedback>)
    ensures |Recent(received)| <= HistoryLimit
    ensures |received| <= HistoryLimit ==> |Recent(received)| == |received|
    ensures forall i :: 0 <= i < |Recent(received)| ==> Recent(received)[i] == received[|received| - 1 - i]
  {
  }

  /** The icon of a feedback item, by its suggestion type. */
  datatype Icon = AlertCircle | InfoCircle | CheckCircle | Zap

  /** `getIcon`: warning, info and success have their own icons; a missing type gets the bolt. */
  function IconOf(kind: Option<Kind>): (icon: Icon)
    ensures icon == Zap <==> kind.None?
    ensures kind == Some(Warning) <==> icon == AlertCircle
    ensures kind == Some(Info) <==> icon == InfoCircle
    ensures kind == Some(Success) <==> icon == CheckCircle
  {
    match kind
    case Some(Warning) => AlertCircle
    case Some(Info) => InfoCircle
    case Some(Success) => CheckCircle
    case None => Zap
  }

  /** `getColor`: the item's border and background classes; each style belongs to one kind only. */
  function ColorOf(kind: Option<Kind>): (classes: string)
    ensures kind == Some(Warning) <==> classes == "border-yellow-500 bg-yellow-500/10"
    ensures kind == Some(Info) <==> classes == "border-blue-500 bg-blue-500/10"
    ensures kind == Some(Success) <==> classes == "border-green-500 bg-green-500/10"
    ensures kind.None? <==> classes == "border-purple-500 bg-purple-500/10"
  {
    match kind
    case Some(Warning) => "border-yellow-500 bg-yellow-500/10"
    case Some(Info) => "border-blue-500 bg-blue-500/10"
    case Some(Success) => "border-green-500 bg-green-500/10"
    case None => "border-purple-500 bg-purple-500/10"
  }

  /** `getBadgeColor`: the badge's background class; each belongs to one kind only. */
  function BadgeColorOf(kind: Option<Kind>): (classes: string)
    ensures kind == Some(Warning) <==> classes == "bg-yellow-600"
    ensures kind == Some(Info) <==> classes == "bg-blue-600"
    ensures kind == Some(Success) <==> classes == "bg-green-600"
    ensures kind.None? <==> classes == "bg-purple-600"
  {
    match kind
    case Some(Warning) => "bg-yellow-600"
    case Some(Info) => "bg-blue-600"
    case Some(Success) => "bg-green-600"
    case None => "bg-purple-600"
  }

  /**
   * The three mappers agree: two items get the same colours exactly when they
   * get the same icon, so each suggestion type and the default look different.
   */
  lemma StylesDistinguishTypes(a: Option<Kind>, b: Option<Kind>)
    ensures ColorOf(a) == ColorOf(b) <==> a == b
    ensures BadgeColorOf(a) == BadgeColorOf(b) <==> a == b
    ensures IconOf(a) == IconOf(b) <==> a == b
  {
  }
}
