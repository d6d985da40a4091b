/**
 * Whole lifecycles, with the provider and a card wired together the way the
 * provider renders them: the card's `onClose` is the provider's removal, and
 * an update of the record re-renders the card with the new props.
 */
module Lifecycle {
  import opened Records
  import opened NotificationProvider
  import opened Notification

  /**
   * `create({type: "info", message: "Hi", duration: 1000})`, then 1000 ms
   * without a manual close: the timer closes the card, and 250 ms later its
   * exit timeout removes the record.
   */
  method AutoDismiss(freshId: string) returns (created: Record, active: seq<Record>)
    ensures created == Record(freshId, "info", "Hi", Some(1000), true, map[], "top-right")
    ensures active == []
  {
    var provider := new Provider(DefaultConfig);
    var id := provider.AddNotification(
      Options(Some("info"), Some("Hi"), Defined(Some(1000)), Undefined, None, None), freshId);
    created := provider.notifications[0];
    var card := new Card.Mount(PropsOf(created), 0);
    card.Advance(1000);
    card.AutoCloseFire();
    card.Advance(1000 + ExitDelay);
    var closed := card.ExitFire(0);
    provider.RemoveNotification(closed);
    active := provider.notifications;
  }

  /**
   * A manual close shortly before the timer expires, on a card with a 1000 ms
   * duration: both run the close handler, so the exit timeout fires twice and
   * `onClose` is called twice with the card's id, the second time after the
   * card has been unmounted.
   */
  method ManualCloseRacesTimer(p: Props) returns (calls: seq<string>)
    requires DurationProp(p) == Some(1000) && ShowCloseProp(p)
    ensures calls == [p.id, p.id]
  {
    var card := ClickThenTimer(p);
    card.Advance(900 + ExitDelay);
    var closed := card.ExitFire(0);
    assert card.exitTimers == [1000 + ExitDelay] && card.closeCalls == [p.id];
    card.Unmount();
    card.Advance(1000 + ExitDelay);
    closed := card.ExitFire(0);
    calls := card.closeCalls;
  }

  /** The first half of the race: a click at 900 ms, then the timer at 1000 ms; two exit timeouts are pending. */
  method ClickThenTimer(p: Props) returns (card: Card)
    requires DurationProp(p) == Some(1000) && ShowCloseProp(p)
    ensures fresh(card) && card.Valid() && card.id == p.id && card.mounted && card.now == 1000
    ensures card.exitTimers == [900 + ExitDelay, 1000 + ExitDelay] && card.closeCalls == []
  {
    card := new Card.Mount(p, 0);
    assert card.autoClose == Some(1000);
    card.Advance(900);
    card.Click();
    assert card.exitTimers == [900 + ExitDelay] && card.closeCalls == [];
    card.Advance(1000);
    card.AutoCloseFire();
  }

  /**
   * The same race with the provider: each `onClose` call removes the record,
   * the second removal changes nothing, and the other record is untouched.
   */
  method CloseRacesTimer(first: string, second: string) returns (calls: seq<string>, active: seq<Record>)
    requires first != second
    ensures calls == [second, second]
    ensures active == [Record(first, "info", "Notification", Some(5000), true, map[], "top-right")]
  {
    var provider := new Provider(DefaultConfig);
    var a := provider.AddNotification(NoOptions, first);
    var kept := MakeRecord(first, NoOptions, DefaultConfig);
    assert provider.notifications == [kept];
    FreshOne(kept, second);
    var b := provider.AddNotification(NoOptions.(duration := Defined(Some(1000))), second);
    var closing := MakeRecord(second, NoOptions.(duration := Defined(Some(1000))), DefaultConfig);
    assert provider.notifications == [kept, closing];
    calls := ManualCloseRacesTimer(PropsOf(closing));
    provider.RemoveNotification(calls[0]);
    assert provider.notifications == [kept] by {
      assert Remove([kept, closing], second) == [kept] + Remove([closing], second);
    }
    provider.RemoveNotification(calls[1]);
    active := provider.notifications;
  }

  lemma FreshOne(r: Record, id: string)
    requires r.id != id
    ensures Fresh([r], id)
  {
  }

  /**
   * The promise helper with a card on screen: the loading card is persistent
   * and has no close button; once the operation resolves, the same card shows
   * the success presentation, gets a close button and starts its 2500 ms
   * auto-close timer from the moment of the update.
   */
  method PromiseResolves<V>(freshId: string, value: V, settledAt: nat) returns (result: Settled<V>, view: View, deadline: Option<int>)
    ensures result == Resolved(value)
    ensures view == View(Success, true, true, false)
    ensures deadline == Some(settledAt + 2500)
  {
    var provider := new Provider(DefaultConfig);
    var msgs := Messages(None, Some("Saved"), None);
    var id := provider.PromiseBegin(msgs, NoOptions, freshId);
    var card := new Card.Mount(PropsOf(provider.notifications[0]), 0);
    assert card.autoClose.None? && !card.Render().closeButton && !card.Render().progressBar;
    card.Advance(settledAt);
    result := provider.PromiseSettle(id, msgs, Resolved(value));
    card.Rerender(PropsOf(provider.notifications[0]));
    view := card.Render();
    deadline := card.autoClose;
  }
}
