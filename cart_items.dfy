/**
 * The `CartItems` record of the ordering application: one line of a user's
 * cart or order, with its declared order-status vocabulary and the defaults a
 * newly built row takes.
 */
module Orders {
  import opened Wrappers

  /** The two declared order statuses; a row starts `Active`. */
  datatype OrderStatus = Active | Delivered {
    /** The value stored in the `status` column for this status. */
    function Label(): string {
      match this
      case Active => "Active"
      case Delivered => "Delivered"
    }
  }

  /** `ORDER_STATUS`: (stored value, human-readable name) pairs, in declared order. */
  const OrderStatusChoices: seq<(string, string)> := [("Active", "Active"), ("Delivered", "Delivered")]

  /** Whether `s` is the stored value of one of the declared choices. */
  predicate IsDeclaredStatus(s: string) {
    exists i :: 0 <= i < |OrderStatusChoices| && OrderStatusChoices[i].0 == s
  }

  /** The declared status whose stored value is `s`, if there is one. */
  function ParseStatus(s: string): (r: Option<OrderStatus>)
    ensures r.Some? <==> IsDeclaredStatus(s)
    ensures r.Some? ==> r.value.Label() == s
  {
    assert OrderStatusChoices[0].0 == "Active" && OrderStatusChoices[1].0 == "Delivered";
    if s == "Active" then Some(Active)
    else if s == "Delivered" then Some(Delivered)
    else None
  }

  /** Each declared status is read back from its stored value, and its stored value and display name agree. */
  lemma LabelRoundTrip(st: OrderStatus)
    ensures ParseStatus(st.Label()) == Some(st)
    ensures exists i :: 0 <= i < |OrderStatusChoices| && OrderStatusChoices[i] == (st.Label(), st.Label())
  {
    match st
    case Active => assert OrderStatusChoices[0] == (st.Label(), st.Label());
    case Delivered => assert OrderStatusChoices[1] == (st.Label(), st.Label());
  }

  /** The part of Django's user account the model needs: its email address. */
  datatype User = User(email: string)

  /** A calendar date, as a day number; the clock reading `timezone.now` is passed in. */
  type Date = int

  /**
   * A `CartItems` row. `status` is a character column: it holds whatever
   * string was stored, declared choice or not. `item` is the primary key of
   * the referenced `Item`.
   */
  datatype CartItems = CartItems(
    id: int,
    user: User,
    item: int,
    ordered: bool,
    quantity: int,
    orderedDate: Date,
    status: string,
    deliveryDate: Date)

  const DefaultOrdered: bool := false
  const DefaultQuantity: int := 1
  const DefaultStatus: string := "Active"

  /**
   * A row built with only its user and item given, every other column at its
   * default; `id` is the key the database assigns when the row is inserted.
   * Each date column calls the clock for its own default, so `orderedNow` and
   * `deliveryNow` are two separate readings, which may fall on different days.
   */
  function NewCartItems(id: int, user: User, item: int, orderedNow: Date, deliveryNow: Date): (row: CartItems)
    ensures row.id == id && row.user == user && row.item == item
    ensures !row.ordered && row.quantity == 1
    ensures ParseStatus(row.status) == Some(Active) && IsDeclaredStatus(row.status)
    ensures row.orderedDate == orderedNow && row.deliveryDate == deliveryNow
  {
    CartItems(id, user, item, DefaultOrdered, DefaultQuantity, orderedNow, DefaultStatus, deliveryNow)
  }

  /**
   * No code links `ordered` and `status`. This lemma shows only that the model
   * adds no such constraint either: every combination of the two is a row,
   * including an un-ordered `Delivered` one and an ordered `Active` one.
   */
  lemma OrderedAndStatusIndependent(row: CartItems, ordered: bool, st: OrderStatus)
    ensures var r := row.(ordered := ordered, status := st.Label());
      r.ordered == ordered && ParseStatus(r.status) == Some(st) && r.id == row.id && r.user == row.user
  {
    LabelRoundTrip(st);
  }
}
