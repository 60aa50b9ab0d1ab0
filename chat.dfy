/**
 * What the bots send back through the chat, and how a photo handler ends.
 * The Telegram transport itself is not modelled: a send always succeeds
 * and only what is sent is recorded.
 */
module Chat {
  import opened Drawing

  datatype Sent =
    /** `bot.reply_to` or `bot.send_message` */
    | Reply(text: string)
    /** `bot.edit_message_text` */
    | Edit(text: string)
    /** `bot.send_photo` */
    | Photo(image: Picture, caption: string)

  datatype Outcome =
    /** no analysis was chosen, the photo was turned away */
    | Rejected
    /** the `try` block ran to its end */
    | Completed
    /** an exception was caught and the `except` block ran to its end */
    | Recovered
    /** an exception escaped the handler */
    | Crashed

  /** What one photo does: how the handler ends, what it sends, and the directory afterwards. */
  datatype Effect = Effect(outcome: Outcome, sent: seq<Sent>, files: map<string, Picture>)
}
