/** The JSON records a mailbox keeps for one job. */
module Mail {
  import opened Prelude

  /** The part of a record the sender wrote; nothing may change it later. */
  datatype Envelope = Envelope(from_: string, body: string, conversation: Option<string>, inReplyTo: Option<string>)

  datatype Terminal = Terminal(status: string, reply: string)

  /** `envelope` is None in the receipt of a job whose message was not found;
      `channel` is the state under `channel_delivery`, empty when absent. */
  datatype Record = Record(jobId: string, envelope: Option<Envelope>, channel: string, terminal: Option<Terminal>)

  datatype File = Missing | Unreadable | Holds(record: Record)

  predicate Completed(t: Terminal) { t.status == "completed" }

  /** A completion that carries an actual answer. */
  predicate Answer(t: Terminal) { Completed(t) && t.reply != "" }
}
