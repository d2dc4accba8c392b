/** What the files of the messaging gateway share. */
module Messaging {
  import opened JsText

  datatype Platform = Telegram | WhatsApp | Lark

  const TELEGRAM: Text := [116, 101, 108, 101, 103, 114, 97, 109]
  const WHATSAPP: Text := [119, 104, 97, 116, 115, 97, 112, 112]
  const LARK: Text := [108, 97, 114, 107]

  /** The platform as it is spelled in keys. */
  function Name(p: Platform): Text {
    match p
    case Telegram => TELEGRAM
    case WhatsApp => WHATSAPP
    case Lark => LARK
  }

  datatype RejectReason = BotSender | NotOwner | NotOnBindingAllowlist

  /** Bots are dropped before they reach the pending store. */
  type PendingReason = r: RejectReason | r != BotSender witness NotOwner
}
