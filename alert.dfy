/**
 * The alert broadcaster `AlertService` (src/@core/components/alert/alert.service.ts):
 * two replay-depth-1 channels, one for "show" and one for "dismiss" signals,
 * each carrying the name of an alert.
 *
 * A channel is modelled by the one value it retains for late subscribers and
 * the history of everything it has emitted; what a subscriber receives is a
 * function of that history and of the moment it subscribed.
 */
module Alert {
  import opened Wrappers

  /** The most recent emission of a history, if any. */
  function LastOf(history: seq<string>): (r: Option<string>)
    ensures r.None? <==> history == []
    ensures r.Some? ==> r.value == history[|history| - 1]
  {
    if history == [] then None else Some(history[|history| - 1])
  }

  /**
   * What a subscriber has received from a replay-depth-1 channel whose
   * emissions are `history`, when it subscribed after the first `joinedAt`
   * of them: the value retained at that moment, then every later emission.
   */
  function Received(history: seq<string>, joinedAt: nat): (r: seq<string>)
    requires joinedAt <= |history|
    ensures r == history[(if joinedAt == 0 then 0 else joinedAt - 1)..]
  {
    (if joinedAt == 0 then [] else [history[joinedAt - 1]]) + history[joinedAt..]
  }

  /** A subscriber joining now receives exactly the retained value: at most one, the most recent. */
  lemma LateSubscriberSeesLast(history: seq<string>)
    ensures var r := Received(history, |history|);
            |r| <= 1
            && (history == [] ==> r == [])
            && (history != [] ==> r == [history[|history| - 1]])
  {
  }

  /** A subscriber present for an emission receives it after everything it had already received. */
  lemma ExistingSubscriberSeesNext(history: seq<string>, joinedAt: nat, name: string)
    requires joinedAt <= |history|
    ensures Received(history + [name], joinedAt) == Received(history, joinedAt) + [name]
  {
    assert (history + [name])[joinedAt..] == history[joinedAt..] + [name];
  }

  /** A subscriber present from the start receives every emission, in emission order. */
  lemma FirstSubscriberSeesHistory(history: seq<string>)
    ensures Received(history, 0) == history
  {
  }

  /**
   * Two emissions reach a subscriber present for both in the order they were
   * made, after anything it had received before.
   */
  lemma {:induction false} InOrderDelivery(history: seq<string>, joinedAt: nat, a: string, b: string)
    requires joinedAt <= |history|
    ensures Received(history + [a] + [b], joinedAt) == Received(history, joinedAt) + [a, b]
  {
    ExistingSubscriberSeesNext(history, joinedAt, a);
    ExistingSubscriberSeesNext(history + [a], joinedAt, b);
  }

  /** A replay subject with buffer size 1. */
  class ReplaySubject {
    /** The value retained for subscribers that join later. */
    var buffer: Option<string>
    /** Everything the subject has emitted, in order. */
    ghost var history: seq<string>

    ghost predicate Valid()
      reads this
    {
      buffer == LastOf(history)
    }

    constructor ()
      ensures Valid() && history == []
    {
      buffer := None;
      history := [];
    }

    /** Emits `name` to every subscriber and retains it for later ones. */
    method Next(name: string)
      requires Valid()
      modifies this
      ensures Valid()
      ensures history == old(history) + [name]
      ensures buffer == Some(name)
    {
      buffer := Some(name);
      history := history + [name];
    }

    /** What a subscriber joining now receives at once: the retained value, if any. */
    function Replay(): (r: seq<string>)
      requires Valid()
      reads this
      ensures r == Received(history, |history|)
      ensures |r| <= 1
    {
      if buffer.Some? then [buffer.value] else []
    }
  }

  class AlertService {
    const onDismiss: ReplaySubject
    const onShow: ReplaySubject

    ghost predicate Valid()
      reads this, onDismiss, onShow
    {
      onDismiss != onShow && onDismiss.Valid() && onShow.Valid()
    }

    constructor ()
      ensures Valid() && fresh(onDismiss) && fresh(onShow)
      ensures onDismiss.history == [] && onShow.history == []
    {
      onDismiss := new ReplaySubject();
      onShow := new ReplaySubject();
    }

    /** Emits `name` on the dismiss channel, unless it is empty. */
    method Dismiss(name: string)
      requires Valid()
      modifies onDismiss
      ensures Valid()
      ensures onDismiss.history == if name == "" then old(onDismiss.history) else old(onDismiss.history) + [name]
      ensures name == "" ==> onDismiss.buffer == old(onDismiss.buffer)
      ensures name != "" ==> onDismiss.buffer == Some(name)
      ensures onShow.history == old(onShow.history) && onShow.buffer == old(onShow.buffer)
    {
      if name == "" {
        return;
      }
      onDismiss.Next(name);
    }

    /** Emits `name` on the show channel, unless it is empty. */
    method Show(name: string)
      requires Valid()
      modifies onShow
      ensures Valid()
      ensures onShow.history == if name == "" then old(onShow.history) else old(onShow.history) + [name]
      ensures name == "" ==> onShow.buffer == old(onShow.buffer)
      ensures name != "" ==> onShow.buffer == Some(name)
      ensures onDismiss.history == old(onDismiss.history) && onDismiss.buffer == old(onDismiss.buffer)
    {
      if name == "" {
        return;
      }
      onShow.Next(name);
    }
  }
}
