# Order notifications of a restaurant ordering application

This project models the one piece of behaviour in the application's data
layer (`main/models.py`): the handler that runs after every save of a
`CartItems` row (one line of a user's cart or order) and decides whether to
email the row's owner, and what the email says. It also models the
`CartItems` record itself — its columns, its field defaults and its
declared order-status vocabulary (`Active`, `Delivered`) — because the rule
branches on the row's status and a fresh row starts `Active`.

Files:

- `wrappers.dfy` — `Option`.
- `decimal.dfy` (module `Decimal`) — how an `int` is rendered inside an
  f-string (Python's `str(int)`), with a reader for that text and the proof
  that rendering is lossless, so the order id in a message identifies the order.
  The reader, `Decimal.ParseDecimal`, is a reference inverse used only in
  proofs: it accepts exactly the canonical renderings (no leading zero, no
  `-0`), and `Decimal.ParseDecimalOnlyRenderings` shows that whatever it
  accepts is the rendering of the number it returns.
- `cart_items.dfy` (module `Orders`) — `OrderStatus`, the `ORDER_STATUS`
  choices, the `CartItems` row and its defaults.
- `notification.dfy` (module `Notifications`) — `Mail`; the pure decision
  `Notify`; `Replay`, the outbox after a history of saves; and the class
  `Notifier`, whose `OnSave` follows the handler branch by branch and whose
  `SendMail` stands for the mail transport by appending to `outbox`.
  `Notifications.OrderIdIn` reads the order id back out of a notification's
  subject and body with `ParseDecimal`; like it, it is a reference inverse for
  the proofs, not something the application does.

The decision depends only on the `created` flag and three values of the row:
its id, its status and its owner's email. A creation always produces a
"New Order" mail. An update produces an "Order Updated" mail exactly when the
row's `status` at save time is `"Delivered"`. Nothing deduplicates, so re-saving a
delivered row mails again each time.

## Model

| member | source | states |
|---|---|---|
| `Orders.ParseStatus` | main/models.py:72-75 | a stored status string is one of the declared `ORDER_STATUS` values exactly when it reads back as a status, and that status's stored value is the string |
| `Orders.LabelRoundTrip` | main/models.py:72-75 | each status in the vocabulary reads back from its stored value and appears in the choices with equal stored value and display name |
| `Orders.NewCartItems` | main/models.py:76-82 | a row built with only user and item is not ordered, has quantity 1, status `Active` (a declared choice) and each date column at its own clock reading |
| `Orders.OrderedAndStatusIndependent` | main/models.py:78-81 | any `ordered` flag can be combined with any declared status in a row: the model, like the source, adds no constraint relating the two columns |
| `Decimal.NatToString` | main/models.py:107 | the rendering of a non-negative id is a non-empty string of digits that starts with `0` only for zero itself |
| `Decimal.IntToString` | main/models.py:117 | the rendering of an id starts with `-` exactly when the id is negative, followed by at least one digit |
| `Decimal.NatToStringValue` | main/models.py:107 | the digits written for a natural number denote that number |
| `Decimal.IntToStringRoundTrip` | main/models.py:107 | rendering any integer id and reading it back gives the same id |
| `Decimal.IntToStringInjective` | main/models.py:117 | two ids with the same rendering are equal |
| `Notifications.Notify` | main/models.py:106-122 | one mail is produced if and only if the save was a creation or the row's `status` at save time is `"Delivered"`; every mail is from `xyz@gmail.com` to exactly the owner's email; the subject is `"New Order"` exactly for creations and `"Order Updated"` exactly for updates; the body is `"We have received your new order with ID "` + `str(id)` + `". Thank you. We shall serve you shortly."` for creations and `"Your order "` + `str(id)` + `" has been updated to delivered"` for updates |
| `Notifications.NotifyCarriesOrderId` | main/models.py:106-122 | the body of every mail produced is the fixed prefix, the order id and the fixed suffix of its kind, so reading it back with a decoder that accepts only canonical renderings yields exactly that order's id |
| `Notifications.NotifyDistinguishesOrders` | main/models.py:106-122 | two saves of the same kind that produce the same mail concern the same order id and the same owner email |
| `Notifications.MailsFor` | main/models.py:106-123 | one save produces at most one mail, exactly one when it is a creation or the status is `"Delivered"`, and every mail has the owner's email as its only recipient |
| `Notifications.MailsIgnoreOtherColumns` | main/models.py:106-122 | the mails a save produces do not depend on `ordered`, `quantity`, `item` or the dates of the row |
| `Notifications.Replay` | main/models.py:101-123 | after any history of saves the outbox holds no more mails than there were saves, each from the fixed sender to a single recipient |
| `Notifications.ReplayExtends` | main/models.py:101-123 | later saves never remove or alter mails already in the outbox; they only append |
| `Notifications.RepeatedDeliveredSaves` | main/models.py:115-123 | saving a row whose status is `"Delivered"` k times without a change puts k identical `"Order Updated"` mails for that order in the outbox |
| `Notifications.OrderLifecycle` | main/models.py:72-123 | insert with quantity 2, save with quantity 3 while `Active`, mark `Delivered`, save again: the outbox is one `"New Order"` mail followed by two identical `"Order Updated"` mails, all for that order and owner |
| `Notifications.Notifier.SendMail` | main/models.py:108-113 | handing a message to the transport appends that one mail to the outbox and changes nothing else |
| `Notifications.Notifier.OnSave` | main/models.py:101-123 | the handler appends exactly the mails `MailsFor` gives for the save (zero or one) and leaves every earlier outbox entry unchanged |
| `Notifications.Notifier.OnSaveAfter` | main/models.py:101-123 | running the handler on a save when the outbox is the replay of a history gives the replay of that history extended by the save |

## Left out

- The mail transport (`send_mail`), its delivery and its errors: a foreign library call, modelled only as an append to `outbox`; a transport error, which is raised after the row is written and propagates to the caller of `save`, is not modelled.
- The `post_save` / `@receiver` registration: framework dispatch; the model calls `Notifier.OnSave` explicitly, once per save.
- ORM persistence: storing rows, assigning primary keys (taken as a parameter of `Orders.NewCartItems`), foreign keys and cascading deletion are done by the framework.
- The clock: each of the two `timezone.now` defaults is a separate parameter of `Orders.NewCartItems` (`orderedNow`, `deliveryNow`), a day number; the model does not relate the two readings.
- The `Item` and `Reviews` schemas and their `__str__` methods: data declarations with no behaviour; a `CartItems` row refers to its item by key only and to its user by email only.
- The URL helpers built on `reverse()` (`get_remove_from_cart_url`, `update_status_url` and those of `Item`): the route table is not part of this model.
- Choice validation: `save` does not check `status` against the declared choices, so `status` is kept as any string.
- Column length limits (`max_length`, 20 characters for `status`): not modelled. A database that enforces them rejects an over-long row before the handler runs, so no mail is sent, whereas the model mails on every creation whatever the status.
