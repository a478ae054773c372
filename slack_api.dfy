/**
 * The remote chat-platform API as the script sees it: the records it reads,
 * the requests it issues, and an oracle that answers them.  The HTTP session,
 * the token and pagination are not part of this model.
 */
module SlackApi {

  /** A conversation record; the script only ever reads its `id` and `name`. */
  datatype Channel = Channel(id: string, name: string)

  /** A user record; `displayName` is `profile.display_name_normalized`. */
  datatype User = User(id: string, deleted: bool, isBot: bool, displayName: string)

  /** The two `types` filters the script passes to conversations.list. */
  const PrivateOnly: string := "private_channel"
  const PublicAndPrivate: string := "public_channel,private_channel"

  /** The requests the provisioning workflow issues, with the arguments it sends. */
  datatype Call =
    | ConversationsCreate(name: string, isPrivate: bool)
    | ConversationsList(types: string)
    | ConversationsInvite(channel: string, users: string)
    | ConversationsSetPurpose(channel: string, purpose: string)
    | ChatPostMessage(channel: string, text: string, asUser: bool)
  {
    /** A request aimed at an existing channel: one of the three best-effort steps. */
    predicate IsChannelStep() {
      ConversationsInvite? || ConversationsSetPurpose? || ChatPostMessage?
    }
  }

  /**
   * The platform, fixed for one run of a command.
   * - accepts(c): the call returns normally rather than raising SlackAPIError;
   * - created(name): the `channel` record of an accepted conversations.create;
   * - listing(types): every record conversations.list yields for that filter,
   *   all pages concatenated in order;
   * - selfId: the `user_id` auth.test reports for the token;
   * - users: what users.info returns for each id it knows;
   * - members(id): the `members` list of conversations.members.
   */
  datatype Api = Api(
    accepts: Call -> bool,
    created: string -> Channel,
    listing: string -> seq<Channel>,
    selfId: string,
    users: map<string, User>,
    members: string -> seq<string>)
}
