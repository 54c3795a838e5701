// The records that the alert handler and the notification fan-out of main.go
// pass around. Their declarations live in the packages utils, messaging and
// messaging/types, which are not part of this model; only the fields that
// main.go reads or builds are kept.
module Types {

  datatype Option<T> = None | Some(value: T)

  /** A monitored product page (utils.Website). main.go uses only its URL;
      the name and stock flag stand for the rest of the record, which is
      copied around unchanged. */
  datatype Website = Website(url: string, name: string, inStock: bool)

  /** Where a subscriber wants to be told (types.Recipient): three optional
      channel addresses, "" meaning unset. */
  datatype Recipient = Recipient(pushover: string, webhook: string, email: string)

  /** One subscription as submitted to the API and as queued for delivery
      (types.AlertTask): the page, the recipient and the channel selector. */
  datatype AlertTask = AlertTask(website: Website, recipient: Recipient, destination: int)

  /** One subscription as the alert registry stores it under a URL
      (messaging.Task): the recipient and the channel selector. */
  datatype Task = Task(recipient: Recipient, destination: int)

  /** What the alert registry's LoadAlerts answers for each URL: the tasks
      registered under it, in the registry's order. */
  type AlertLookup = string -> seq<Task>
}
