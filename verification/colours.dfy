/** The embed colours the bot's replies use. */
module Colours {

  const Green: int := 0x00ff00
  const Red: int := 0xff0000
}
