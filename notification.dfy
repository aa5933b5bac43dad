/**
 * The order-notification rule: after every save of a `CartItems` row, one
 * email or none, depending only on whether the save inserted the row and on
 * the row's stored `status`.
 */
module Notifications {
  import opened Wrappers
  import Decimal
  import opened Orders

  /** One outgoing email: what is handed to the mail transport. */
  datatype Mail = Mail(subject: string, body: string, sender: string, recipients: seq<string>)

  const Sender: string := "xyz@gmail.com"
  const NewOrderSubject: string := "New Order"
  const OrderUpdatedSubject: string := "Order Updated"
  const NewOrderPrefix: string := "We have received your new order with ID "
  const NewOrderSuffix: string := ". Thank you. We shall serve you shortly."
  const UpdatedPrefix: string := "Your order "
  const UpdatedSuffix: string := " has been updated to delivered"

  /** The text of the creation message for order `id`. */
  function NewOrderBody(id: int): string {
    NewOrderPrefix + Decimal.IntToString(id) + NewOrderSuffix
  }

  /** The text of the delivery message for order `id`. */
  function DeliveredBody(id: int): string {
    UpdatedPrefix + Decimal.IntToString(id) + UpdatedSuffix
  }

  /**
   * The decision the save handler makes: a creation always mails the owner;
   * an update mails the owner exactly when the row's status at save time is
   * "Delivered".
   */
  function Notify(created: bool, status: string, id: int, email: string): (r: Option<Mail>)
    ensures r.Some? <==> created || status == Delivered.Label()
    ensures r.Some? ==> r.value.sender == Sender && r.value.recipients == [email]
    ensures r.Some? ==> (r.value.subject == NewOrderSubject <==> created)
    ensures r.Some? ==> (r.value.subject == OrderUpdatedSubject <==> !created)
    ensures r.Some? ==> (r.value.body ==
      (if created then NewOrderPrefix else UpdatedPrefix) + Decimal.IntToString(id)
      + (if created then NewOrderSuffix else UpdatedSuffix))
  {
    if created then
      Some(Mail(NewOrderSubject, NewOrderBody(id), Sender, [email]))
    else if status == Delivered.Label() then
      Some(Mail(OrderUpdatedSubject, DeliveredBody(id), Sender, [email]))
    else
      None
  }

  /** The part of `s` between `prefix` and `suffix`, if `s` has that shape. */
  function Between(s: string, prefix: string, suffix: string): (r: Option<string>)
    ensures r.Some? ==> s == prefix + r.value + suffix
  {
    if |prefix| + |suffix| <= |s| && s[..|prefix|] == prefix && s[|s| - |suffix|..] == suffix then
      var mid := s[|prefix|..|s| - |suffix|];
      assert s == s[..|prefix|] + mid + s[|s| - |suffix|..];
      Some(mid)
    else None
  }

  lemma BetweenOfConcat(prefix: string, mid: string, suffix: string)
    ensures Between(prefix + mid + suffix, prefix, suffix) == Some(mid)
  {
    var s := prefix + mid + suffix;
    assert s[..|prefix|] == prefix;
    assert s[|s| - |suffix|..] == suffix;
    assert s[|prefix|..|s| - |suffix|] == mid;
  }

  /**
   * The order id a notification speaks of, read back from its subject and
   * body; `None` for any text no notification has.
   */
  function OrderIdIn(m: Mail): (r: Option<int>)
    ensures r.Some? ==> m.subject == NewOrderSubject || m.subject == OrderUpdatedSubject
  {
    var text :=
      if m.subject == NewOrderSubject then Between(m.body, NewOrderPrefix, NewOrderSuffix)
      else if m.subject == OrderUpdatedSubject then Between(m.body, UpdatedPrefix, UpdatedSuffix)
      else None;
    if text.Some? then Decimal.ParseDecimal(text.value) else None
  }

  /** Every mail the handler sends names the order it is about, and that id can be read back from it. */
  lemma NotifyCarriesOrderId(created: bool, status: string, id: int, email: string)
    requires Notify(created, status, id, email).Some?
    ensures OrderIdIn(Notify(created, status, id, email).value) == Some(id)
  {
    var s := Decimal.IntToString(id);
    Decimal.IntToStringRoundTrip(id);
    if created {
      BetweenOfConcat(NewOrderPrefix, s, NewOrderSuffix);
    } else {
      BetweenOfConcat(UpdatedPrefix, s, UpdatedSuffix);
    }
  }

  /** Two saves that mail the same text concern the same order and the same recipient. */
  lemma NotifyDistinguishesOrders(created: bool, status: string, id1: int, id2: int, email1: string, email2: string)
    requires Notify(created, status, id1, email1).Some?
    requires Notify(created, status, id1, email1) == Notify(created, status, id2, email2)
    ensures id1 == id2 && email1 == email2
  {
    NotifyCarriesOrderId(created, status, id1, email1);
    NotifyCarriesOrderId(created, status, id2, email2);
  }

  /** The mails one save of `instance` produces: zero or one. */
  function MailsFor(created: bool, instance: CartItems): (ms: seq<Mail>)
    ensures |ms| <= 1
    ensures |ms| == 1 <==> created || instance.status == Delivered.Label()
    ensures forall i :: 0 <= i < |ms| ==> ms[i].recipients == [instance.user.email]
  {
    match Notify(created, instance.status, instance.id, instance.user.email)
    case None => []
    case Some(m) => [m]
  }

  /**
   * The decision reads only `created`, the row's id, its owner's email and its
   * status: `ordered`, `quantity`, `item` and the dates play no part.
   */
  lemma MailsIgnoreOtherColumns(created: bool, row: CartItems, ordered: bool, quantity: int, item: int, d1: Date, d2: Date)
    ensures MailsFor(created, row.(ordered := ordered, quantity := quantity, item := item, orderedDate := d1, deliveryDate := d2))
         == MailsFor(created, row)
  {
  }

  /** One save of a row: whether it was the insert, and the row as saved. */
  datatype Save = Save(created: bool, instance: CartItems)

  /** The outbox after a history of saves, oldest first, starting from an empty outbox. */
  function Replay(saves: seq<Save>): (outbox: seq<Mail>)
    ensures |outbox| <= |saves|
    ensures forall i :: 0 <= i < |outbox| ==> outbox[i].sender == Sender && |outbox[i].recipients| == 1
  {
    if saves == [] then []
    else
      var last := saves[|saves| - 1];
      Replay(saves[..|saves| - 1]) + MailsFor(last.created, last.instance)
  }

  /** Later saves only add to the outbox: what earlier saves sent stays as it was. */
  lemma {:induction false} ReplayExtends(earlier: seq<Save>, later: seq<Save>)
    ensures |Replay(earlier)| <= |Replay(earlier + later)|
    ensures Replay(earlier + later)[..|Replay(earlier)|] == Replay(earlier)
    decreases |later|
  {
    if later == [] {
      assert earlier + later == earlier;
    } else {
      var all := earlier + later;
      var init := later[..|later| - 1];
      var last := all[|all| - 1];
      assert all[..|all| - 1] == earlier + init;
      var before := Replay(earlier + init);
      assert Replay(all) == before + MailsFor(last.created, last.instance);
      ReplayExtends(earlier, init);
      var n := |Replay(earlier)|;
      assert (before + MailsFor(last.created, last.instance))[..n] == before[..n];
    }
  }

  /** `k` identical saves in a row. */
  function Repeat(e: Save, k: nat): (saves: seq<Save>)
    ensures |saves| == k && forall i :: 0 <= i < k ==> saves[i] == e
  {
    seq(k, _ => e)
  }

  /**
   * Nothing deduplicates: saving a row whose status is "Delivered" k times
   * without a change mails the same "Order Updated" message k times.
   */
  lemma {:induction false} RepeatedDeliveredSaves(row: CartItems, k: nat)
    requires row.status == Delivered.Label()
    ensures Replay(Repeat(Save(false, row), k))
         == seq(k, _ => Mail(OrderUpdatedSubject, DeliveredBody(row.id), Sender, [row.user.email]))
  {
    if k > 0 {
      var saves := Repeat(Save(false, row), k);
      assert saves[..k - 1] == Repeat(Save(false, row), k - 1);
      RepeatedDeliveredSaves(row, k - 1);
    }
  }

  /**
   * The life of one cart line: inserted with quantity 2, then saved with
   * quantity 3 (still "Active"), then marked "Delivered", then saved again
   * unchanged. The outbox holds one "New Order" and two "Order Updated" mails.
   */
  lemma OrderLifecycle(id: int, user: User, item: int, orderedNow: Date, deliveryNow: Date)
    ensures var row := NewCartItems(id, user, item, orderedNow, deliveryNow).(quantity := 2);
      var delivered := row.(status := Delivered.Label());
      Replay([Save(true, row), Save(false, row.(quantity := 3)), Save(false, delivered), Save(false, delivered)])
      == [Mail(NewOrderSubject, NewOrderBody(id), Sender, [user.email]),
          Mail(OrderUpdatedSubject, DeliveredBody(id), Sender, [user.email]),
          Mail(OrderUpdatedSubject, DeliveredBody(id), Sender, [user.email])]
  {
    var row := NewCartItems(id, user, item, orderedNow, deliveryNow).(quantity := 2);
    var delivered := row.(status := Delivered.Label());
    var m1 := Mail(NewOrderSubject, NewOrderBody(id), Sender, [user.email]);
    var m2 := Mail(OrderUpdatedSubject, DeliveredBody(id), Sender, [user.email]);
    var saves := [Save(true, row), Save(false, row.(quantity := 3)), Save(false, delivered), Save(false, delivered)];
    assert row.status == "Active" != Delivered.Label();
    assert Replay(saves[..1]) == [m1] by { assert saves[..1][..0] == []; }
    assert Replay(saves[..2]) == [m1] by { assert saves[..2][..1] == saves[..1]; }
    assert Replay(saves[..3]) == [m1, m2] by { assert saves[..3][..2] == saves[..2]; }
    assert saves[..4][..3] == saves[..3];
    assert saves[..4] == saves;
  }

  /**
   * The save handler and the mail transport it calls. Sending appends to
   * `outbox`; nothing is ever removed or merged.
   */
  class Notifier {
    var outbox: seq<Mail>

    constructor ()
      ensures outbox == []
    {
      outbox := [];
    }

    /** The `send_mail` call: hands one message to the transport. */
    method SendMail(subject: string, message: string, fromEmail: string, recipientList: seq<string>)
      modifies this
      ensures outbox == old(outbox) + [Mail(subject, message, fromEmail, recipientList)]
    {
      outbox := outbox + [Mail(subject, message, fromEmail, recipientList)];
    }

    /** The post-save handler, run once for each save of `instance`. */
    method OnSave(created: bool, instance: CartItems)
      modifies this
      ensures outbox == old(outbox) + MailsFor(created, instance)
      ensures |old(outbox)| <= |outbox| <= |old(outbox)| + 1
      ensures outbox[..|old(outbox)|] == old(outbox)
    {
      if created {
        var message := NewOrderPrefix + Decimal.IntToString(instance.id) + NewOrderSuffix;
        SendMail(NewOrderSubject, message, Sender, [instance.user.email]);
      } else {
        if instance.status == "Delivered" {
          var message := UpdatedPrefix + Decimal.IntToString(instance.id) + UpdatedSuffix;
          SendMail(OrderUpdatedSubject, message, Sender, [instance.user.email]);
        }
      }
    }

    /** Running the handler on one more save moves the outbox from `Replay(saves)` to the replay of the longer history. */
    method OnSaveAfter(ghost saves: seq<Save>, created: bool, instance: CartItems)
      requires outbox == Replay(saves)
      modifies this
      ensures outbox == Replay(saves + [Save(created, instance)])
    {
      var all := saves + [Save(created, instance)];
      assert all[..|all| - 1] == saves;
      OnSave(created, instance);
    }
  }
}
