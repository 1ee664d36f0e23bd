/** Who talks where: the privacy scope of one conversation. */
module Conversation {
  datatype ConversationKey = ConversationKey(scope: string, areaId: string, channelId: string, personId: string)
}
