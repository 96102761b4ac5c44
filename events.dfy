/**
 * The event store: the list of dates a couple has planned, and the status
 * life cycle each date goes through, scheduled -> pending_review -> completed.
 * Every update rewrites the list with `map`, touching only the events whose
 * id matches; ids are not checked for uniqueness, so every matching event is
 * updated.
 */
module Events {
  import opened Wrappers

  datatype EventStatus = Scheduled | PendingReview | Completed

  /** A planned or past date; `rating` (0 to 1) and `matchResult` are optional. */
  datatype Event = Event(
    id: string,
    title: string,
    price: string,
    date: string,
    status: EventStatus,
    rating: Option<real>,
    matchResult: Option<string>)

  /** The update of `markAsDone` and `startReview`: matching events take status `s`. */
  function WithStatus(es: seq<Event>, id: string, s: EventStatus): seq<Event> {
    seq(|es|, i requires 0 <= i < |es| => if es[i].id == id then es[i].(status := s) else es[i])
  }

  /** The update of `saveDraftRating`: matching events take the rating and match result. */
  function WithDraftRating(es: seq<Event>, id: string, rating: real, matchResult: string): seq<Event> {
    seq(|es|, i requires 0 <= i < |es| =>
      if es[i].id == id then es[i].(rating := Some(rating), matchResult := Some(matchResult)) else es[i])
  }

  /** The update of `rateEvent`: matching events are completed with the rating and match result. */
  function WithFinalRating(es: seq<Event>, id: string, rating: real, matchResult: string): seq<Event> {
    seq(|es|, i requires 0 <= i < |es| =>
      if es[i].id == id
      then es[i].(status := Completed, rating := Some(rating), matchResult := Some(matchResult))
      else es[i])
  }

  /** Position of the first event with status `s` (`find` from the front). */
  function FirstIndexWithStatus(es: seq<Event>, s: EventStatus): (r: Option<nat>)
    ensures r.Some? ==> r.value < |es| && es[r.value].status == s
    ensures r.Some? ==> forall j :: 0 <= j < r.value ==> es[j].status != s
    ensures r.None? <==> forall j :: 0 <= j < |es| ==> es[j].status != s
  {
    if es == [] then None
    else if es[0].status == s then Some(0)
    else
      match FirstIndexWithStatus(es[1..], s)
      case None => None
      case Some(k) => Some(k + 1)
  }

  /** An index holding the status with none before it is the one the forward search finds. */
  lemma FirstIndexIs(es: seq<Event>, s: EventStatus, k: nat)
    requires k < |es| && es[k].status == s
    requires forall j :: 0 <= j < k ==> es[j].status != s
    ensures FirstIndexWithStatus(es, s) == Some(k)
  {
    var r := FirstIndexWithStatus(es, s);
    assert r.Some?;
    assert !(r.value < k);
    assert !(r.value > k);
  }

  /** Position of the last event with status `s`. */
  function LastIndexWithStatus(es: seq<Event>, s: EventStatus): (r: Option<nat>)
    ensures r.Some? ==> r.value < |es| && es[r.value].status == s
    ensures r.Some? ==> forall j :: r.value < j < |es| ==> es[j].status != s
    ensures r.None? <==> forall j :: 0 <= j < |es| ==> es[j].status != s
  {
    if es == [] then None
    else if es[|es| - 1].status == s then Some(|es| - 1)
    else LastIndexWithStatus(es[..|es| - 1], s)
  }

  /** `[...s].reverse()`. */
  function Reversed<T>(s: seq<T>): (r: seq<T>)
    ensures |r| == |s| && forall i :: 0 <= i < |s| ==> r[i] == s[|s| - 1 - i]
  {
    if s == [] then [] else [s[|s| - 1]] + Reversed(s[..|s| - 1])
  }

  /** Searching the reversed list from the front finds the last matching event of the list. */
  lemma ReverseSearch(es: seq<Event>, s: EventStatus)
    ensures FirstIndexWithStatus(Reversed(es), s) ==
      match LastIndexWithStatus(es, s)
      case None => None
      case Some(k) => Some(|es| - 1 - k)
  {
    var rev := Reversed(es);
    match LastIndexWithStatus(es, s)
    case None =>
      assert forall j :: 0 <= j < |rev| ==> rev[j].status != s by {
        forall j | 0 <= j < |rev| ensures rev[j].status != s {
          assert rev[j] == es[|es| - 1 - j];
        }
      }
    case Some(k) =>
      forall j | 0 <= j < |es| - 1 - k ensures rev[j].status != s {
        assert rev[j] == es[|es| - 1 - j];
      }
      FirstIndexIs(rev, s, |es| - 1 - k);
  }

  /** Two lists with the same statuses, position by position. */
  predicate SameStatuses(a: seq<Event>, b: seq<Event>) {
    |a| == |b| && forall i :: 0 <= i < |a| ==> a[i].status == b[i].status
  }

  /** The forward search looks at statuses only. */
  lemma {:induction false} FirstSearchSeesOnlyStatuses(a: seq<Event>, b: seq<Event>, s: EventStatus)
    requires SameStatuses(a, b)
    ensures FirstIndexWithStatus(a, s) == FirstIndexWithStatus(b, s)
  {
    if a != [] && a[0].status != s {
      assert SameStatuses(a[1..], b[1..]);
      FirstSearchSeesOnlyStatuses(a[1..], b[1..], s);
    }
  }

  /** The backward search looks at statuses only. */
  lemma {:induction false} LastSearchSeesOnlyStatuses(a: seq<Event>, b: seq<Event>, s: EventStatus)
    requires SameStatuses(a, b)
    ensures LastIndexWithStatus(a, s) == LastIndexWithStatus(b, s)
  {
    if a != [] && a[|a| - 1].status != s {
      assert SameStatuses(a[..|a| - 1], b[..|b| - 1]);
      LastSearchSeesOnlyStatuses(a[..|a| - 1], b[..|b| - 1], s);
    }
  }

  /** Saving a draft rating does not change which event either getter returns. */
  lemma DraftKeepsSelection(es: seq<Event>, id: string, rating: real, matchResult: string, s: EventStatus)
    ensures FirstIndexWithStatus(WithDraftRating(es, id, rating, matchResult), s) == FirstIndexWithStatus(es, s)
    ensures LastIndexWithStatus(WithDraftRating(es, id, rating, matchResult), s) == LastIndexWithStatus(es, s)
  {
    FirstSearchSeesOnlyStatuses(WithDraftRating(es, id, rating, matchResult), es, s);
    LastSearchSeesOnlyStatuses(WithDraftRating(es, id, rating, matchResult), es, s);
  }

  /** After `rateEvent(id, …)` no event with that id is awaiting review or still scheduled. */
  lemma RatedEventLeavesQueues(es: seq<Event>, id: string, rating: real, matchResult: string)
    ensures forall i :: 0 <= i < |es| && es[i].id == id ==>
      WithFinalRating(es, id, rating, matchResult)[i].status == Completed
    ensures match LastIndexWithStatus(WithFinalRating(es, id, rating, matchResult), PendingReview)
      case None => true
      case Some(k) => es[k].id != id
    ensures match FirstIndexWithStatus(WithFinalRating(es, id, rating, matchResult), Scheduled)
      case None => true
      case Some(k) => es[k].id != id
  {
  }

  /** The final rating overrides an earlier review step or draft of the same event. */
  lemma RatingOverridesEarlierSteps(es: seq<Event>, id: string, r0: real, m0: string, rating: real, matchResult: string)
    ensures WithFinalRating(WithStatus(es, id, PendingReview), id, rating, matchResult)
         == WithFinalRating(es, id, rating, matchResult)
    ensures WithFinalRating(WithDraftRating(es, id, r0, m0), id, rating, matchResult)
         == WithFinalRating(es, id, rating, matchResult)
  {
  }

  /** After `markAsDone(id)` on a present id, the pending review shown is that event or a later one. */
  lemma MarkedEventIsReviewable(es: seq<Event>, id: string, k: nat)
    requires k < |es| && es[k].id == id
    ensures match LastIndexWithStatus(WithStatus(es, id, PendingReview), PendingReview)
      case None => false
      case Some(j) => k <= j
  {
    assert WithStatus(es, id, PendingReview)[k].status == PendingReview;
  }

  /** A newly appended scheduled event is the next scheduled one exactly when none was scheduled before. */
  lemma AppendedScheduled(es: seq<Event>, e: Event)
    requires e.status == Scheduled
    ensures FirstIndexWithStatus(es + [e], Scheduled) ==
      match FirstIndexWithStatus(es, Scheduled)
      case None => Some(|es|)
      case Some(k) => Some(k)
  {
    var t := es + [e];
    match FirstIndexWithStatus(es, Scheduled)
    case None =>
      FirstIndexIs(t, Scheduled, |es|);
    case Some(k) =>
      FirstIndexIs(t, Scheduled, k);
  }

  /** The in-memory store of `EventProvider`; it starts empty. */
  class EventStore {
    var events: seq<Event>

    constructor ()
      ensures events == []
    {
      events := [];
    }

    /** Appends one event with rating 0 and match result 'pending'; `id` stands in for the generated one. */
    method AddEvent(id: string, title: string, price: string, date: string, status: EventStatus := Scheduled)
      modifies this
      ensures |events| == |old(events)| + 1 && events[..|old(events)|] == old(events)
      ensures events[|old(events)|] == Event(id, title, price, date, status, Some(0.0), Some("pending"))
    {
      events := events + [Event(id, title, price, date, status, Some(0.0), Some("pending"))];
    }

    method MarkAsDone(id: string)
      modifies this
      ensures events == WithStatus(old(events), id, PendingReview)
      ensures |events| == |old(events)|
      ensures forall i :: 0 <= i < |events| ==>
        events[i] == if old(events)[i].id == id then old(events)[i].(status := PendingReview) else old(events)[i]
    {
      events := WithStatus(events, id, PendingReview);
    }

    method StartReview(id: string)
      modifies this
      ensures events == WithStatus(old(events), id, PendingReview)
      ensures |events| == |old(events)|
      ensures forall i :: 0 <= i < |events| ==>
        events[i] == if old(events)[i].id == id then old(events)[i].(status := PendingReview) else old(events)[i]
    {
      events := WithStatus(events, id, PendingReview);
    }

    method RateEvent(id: string, rating: real, matchResult: string)
      modifies this
      ensures events == WithFinalRating(old(events), id, rating, matchResult)
      ensures |events| == |old(events)|
      ensures forall i :: 0 <= i < |events| && old(events)[i].id != id ==> events[i] == old(events)[i]
      ensures forall i :: 0 <= i < |events| && old(events)[i].id == id ==>
        && events[i].status == Completed
        && events[i].rating == Some(rating)
        && events[i].matchResult == Some(matchResult)
        && events[i].(status := old(events)[i].status, rating := old(events)[i].rating,
                      matchResult := old(events)[i].matchResult) == old(events)[i]
    {
      events := WithFinalRating(events, id, rating, matchResult);
    }

    method SaveDraftRating(id: string, rating: real, matchResult: string)
      modifies this
      ensures events == WithDraftRating(old(events), id, rating, matchResult)
      ensures SameStatuses(events, old(events))
      ensures forall i :: 0 <= i < |events| && old(events)[i].id != id ==> events[i] == old(events)[i]
      ensures forall i :: 0 <= i < |events| && old(events)[i].id == id ==>
        events[i] == old(events)[i].(rating := Some(rating), matchResult := Some(matchResult))
    {
      events := WithDraftRating(events, id, rating, matchResult);
    }

    /** The most recent event awaiting review: a `find` over the reversed list. */
    function GetPendingReviewEvent(): (r: Option<Event>)
      reads this
      ensures r.None? <==> forall i :: 0 <= i < |events| ==> events[i].status != PendingReview
      ensures r ==
        match LastIndexWithStatus(events, PendingReview)
        case None => None
        case Some(k) => Some(events[k])
    {
      var rev := Reversed(events);
      ReverseSearch(events, PendingReview);
      match FirstIndexWithStatus(rev, PendingReview)
      case None => None
      case Some(k) => Some(rev[k])
    }

    /** The first event still scheduled, in list order. */
    function GetNextScheduledEvent(): (r: Option<Event>)
      reads this
      ensures r.None? <==> forall i :: 0 <= i < |events| ==> events[i].status != Scheduled
      ensures r.Some? ==> r.value.status == Scheduled && r.value in events
      ensures r.Some? ==>
        exists k :: 0 <= k < |events| && events[k] == r.value &&
          forall j :: 0 <= j < k ==> events[j].status != Scheduled
    {
      match FirstIndexWithStatus(events, Scheduled)
      case None => None
      case Some(k) => Some(events[k])
    }
  }
}
