/** The two records of bot.py: a stored chat message (bot.py:200-211) and a
    per-client conversation (bot.py:308-311). */
module Records {

  /** One row of the `messages` table. `id` is the table's ascending key and
      the only ordering the bot uses. */
  datatype Message = Message(
    id: int,
    messageId: string,
    language: string,
    addressId: string,
    fromPhone: string,
    toPhone: string,
    msgGoodOrBad: string,
    messageType: string,
    text: string,
    dateTime: string)

  /** All messages exchanged with one client phone. */
  datatype Conversation = Conversation(clientPhone: string, messages: seq<Message>)
}
