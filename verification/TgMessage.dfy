/** An incoming Telegram message, as far as the filters look at it (src/tg_msg.hh). */
module TgMessage {

  datatype TgMsg = TgMsg(title: string, sender: string, text: string)

  const OWN_TITLE := "TG-FOCUS"

  predicate OccursAt(s: string, w: string, i: int) {
    0 <= i <= |s| - |w| && s[i..i + |w|] == w
  }

  predicate Contains(s: string, w: string) {
    exists i | 0 <= i <= |s| - |w| :: OccursAt(s, w, i)
  }

  /** A message of the chat that tg-focus itself writes to. */
  predicate IsFromTgfocus(m: TgMsg) {
    Contains(m.title, OWN_TITLE)
  }
}
