/** The inbound webhook payload, as the Telegram client declares it. */
module Telegram {
  import opened Decimal

  datatype User = User(id: I64)

  datatype Message = Message(from: User, text: string)

  datatype Update = Update(message: Message)
}
