/**
 * The numeric codes of Discord's Interactions API that the handler uses,
 * through the discord_interactions enums InteractionType and
 * InteractionResponseType.
 */
module Discord {
  // Interaction Type
  const PING: int := 1
  const APPLICATION_COMMAND: int := 2

  // Interaction Callback Type
  const PONG: int := 1
  const CHANNEL_MESSAGE_WITH_SOURCE: int := 4
}
