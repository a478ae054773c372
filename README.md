# one-to-one-slack, modelled in Dafny

`main.py` is a small command-line tool for a Slack workspace with two commands:

- `create` opens a private channel for two people. It derives the channel name
  from the two names, creates the channel, and falls back to finding an existing
  private channel of that name if the create is rejected. It then invites the
  other person, sets the purpose and posts a first message. Each of these three
  steps is best-effort.
- `channel-members` prints every live human member of a channel other than the
  caller.

The model covers the decision logic of both commands. The Slack Web API is an
oracle (`SlackApi.Api`). It says whether each request is accepted, what record
a create returns, what `conversations.list` yields for a `types` filter, which
user `auth.test` names, what `users.info` knows, and what `conversations.members`
lists. A run of `create` returns the requests it issued, in order, and the log
events it wrote, in order. A run of `channel-members` returns the lines it
prints and how it ended.

Modules, one per component of `main.py`:

- `Wrappers`: `Option`.
- `SlackApi`: the `Channel` and `User` records, the requests (`Call`) and the oracle (`Api`).
- `ChannelName`: `format_channel_name`. It uses Python's string order `LexLess`,
  which is code-point lexicographic with a proper prefix first; Dafny's own `<`
  on sequences means "proper prefix".
- `ChannelLookup`: `find_channel_by_name`, a loop with an early return, proved
  against `FirstNamed`.
- `Provisioning`: `create`, `create_private_channel` and the three best-effort
  steps. `create` is modelled in three parts. `Create` derives the name
  (`main.py:37`). `Provision` runs the rest of the command on that name
  (`main.py:39-68`). `FollowUp` holds the steps after the create
  (`main.py:50-68`). Each part has the branches of the source in the same
  order. What the command issues and logs is specified by `ProvisionCalls`
  and `ProvisionLog`.
- `MemberReport`: the filtering loop of `channel_members`, proved against `Report`.

An absent `--purpose` or `--first-message` is the empty string. Python treats
`None` and `""` alike there, since it only tests truthiness.

Three behaviours of the code that a reader might not expect, all modelled as written:

- "channel is ready" is logged after the three steps whenever a channel was
  obtained, even if some of the steps failed. It is not logged only on full
  success.
- `channel_members` fetches the caller's record (`main.py:125-126`) before it
  uses the looked-up channel (`main.py:128`). A missing caller record therefore
  ends the command before a missing channel does.
- The fallback lookup inside `create_private_channel` goes through
  `find_channel_by_name`. That function strips one leading `#` from the derived
  name as well.

## Model

| member | source | states |
|---|---|---|
| `ChannelName.StripLeading` | main.py:153 | exactly one leading marker character is removed when present, and nothing else changes |
| `ChannelName.LexLess` | main.py:154 | Python's `<` on strings, which `sorted` uses: a proper prefix comes first, and no string is less than itself |
| `ChannelName.LexLessFirstDifference` | main.py:154 | where two strings first differ, the one with the smaller code point there is the smaller |
| `ChannelName.LexTrichotomy` | main.py:154 | any two strings are equal or ordered, and never both ways |
| `ChannelName.LexTransitive` | main.py:154 | the order is transitive; with `LexTrichotomy`, it is a strict total order |
| `ChannelName.SortPair` | main.py:154 | `sorted` of two strings yields a permutation of them with the smaller first |
| `ChannelName.FormatChannelName` | main.py:152-154 | the stripped name that is not the larger comes first, then `-`, then the other; `FormatChannelNameIsSortedJoin` and `FormatChannelNameCommutes` characterise it |
| `ChannelName.FormatChannelNameIsSortedJoin` | main.py:152-154 | the derived name is the smaller stripped name, `-`, then the larger, whichever way the two are arranged in order |
| `ChannelName.FormatChannelNameCommutes` | main.py:152-154 | swapping the two names gives the same channel name |
| `ChannelName.FormatChannelNameStripsAt` | main.py:152-154 | `("@alice","bob")` and `("alice","bob")` both give `alice-bob` |
| `ChannelName.FormatChannelNameSortsNames` | main.py:152-154 | `("zed","amy")` gives `amy-zed` |
| `ChannelLookup.TypesFilter` | main.py:145 | the filter is `public_channel,private_channel` exactly when public channels are included, otherwise `private_channel` |
| `ChannelLookup.FirstNamed` | main.py:146-149 | none exactly when no listed record has the name; otherwise a record with that name and no record of that name before it |
| `ChannelLookup.FindChannelByName` | main.py:143-149 | issues one listing request with the filter chosen by `include_public`, and returns the first record named like the input less one leading `#` |
| `Provisioning.ObtainedChannelCases` | main.py:71-82 | an accepted create yields the created record; after a rejection, the result is a listed private channel of the derived name, and none exactly when there is none |
| `Provisioning.CreateCalls` | main.py:71-82 | the create request (private, derived name) comes first; an accepted create issues nothing else, and a rejected one is followed by exactly one private-only listing |
| `Provisioning.CreateLog` | main.py:76-81 | one event: info when the create is accepted, an error when it is rejected |
| `Provisioning.CreatePrivateChannel` | main.py:71-82 | returns the created channel or the fallback lookup's result, issues exactly `CreateCalls` and logs exactly `CreateLog` |
| `Provisioning.Acknowledge` | main.py:86-114 | a best-effort step logs info when its request is accepted and a warning when it is rejected |
| `Provisioning.InviteUser` | main.py:86-93 | one invite request for the member into the channel, acknowledged by one event |
| `Provisioning.PostFirstMessage` | main.py:96-104 | one post request of the text as the token's user, acknowledged by one event |
| `Provisioning.SetChannelPurpose` | main.py:107-114 | one set-purpose request for the channel, acknowledged by one event |
| `Provisioning.StepCallsOrder` | main.py:50-65 | invite first; set-purpose exactly when a purpose is given, next; post exactly when a message is given, last; every request targets the obtained channel's id |
| `Provisioning.StepLogAcknowledgesEachCall` | main.py:50-65 | each step request has exactly one event at the same position: info iff accepted, warning otherwise, never an error |
| `Provisioning.DryRunLogReportsRequestedSteps` | main.py:41-63 | a dry run logs only info events: the create, the invite, and the purpose and message exactly when given |
| `Provisioning.DryRunIssuesNoCalls` | main.py:41-65 | in a dry run the command issues no request and logs only info events, one per step it would have taken |
| `Provisioning.NoChannelNoFurtherCalls` | main.py:44-48 | without a channel only the create and the private-only listing are requested, no invite, purpose or post, and the run ends on an error |
| `Provisioning.StepsTargetObtainedChannel` | main.py:50-68 | with a channel the create comes first, then the invite, then set-purpose and post exactly when given, all against the channel's id; "ready" is logged last |
| `Provisioning.StepOutcomesDoNotChangeCalls` | main.py:50-65 | a failing invite, set-purpose or post never stops a later step: the answers to those requests do not change which requests are made |
| `Provisioning.FollowUp` | main.py:50-68 | in a dry run reports the invite and the given purpose and message; otherwise requests exactly the steps against the channel, logs one acknowledgement each, then "ready" |
| `Provisioning.Provision` | main.py:39-68 | issues exactly `ProvisionCalls` and logs exactly `ProvisionLog` for the derived name, which the lemmas above characterise |
| `Provisioning.Create` | main.py:33-68 | runs the command on the name derived from the two names; the requests are the same with the two names swapped |
| `MemberReport.ReportAppend` | main.py:129-140 | reporting two parts of the member list gives the two reports in the same order |
| `MemberReport.ReportExactlyReported` | main.py:129-140 | a line appears exactly when some listed member is not deleted, not a bot and not the caller, with that member's name and id and the caller's display name |
| `MemberReport.ReportBounds` | main.py:137-140 | at most one line per member, and every line carries the caller's display name |
| `MemberReport.KnownPrefix` | main.py:129-130 | the members before the first id `users.info` cannot answer all have records, and that id has none |
| `MemberReport.ReportMembers` | main.py:129-140 | prints the report of the members up to the first unknown id, and names that id, if any |
| `MemberReport.ChannelMembers` | main.py:120-140 | a missing caller record ends the command first; then a missing channel (looked up among public and private channels); otherwise the report of the channel's members |
| `MemberReport.ReportExample` | main.py:129-140 | a deleted member, a bot, the caller and one ordinary member yield one line, for the ordinary member |

## Left out

- The click CLI, the `--token` option, the `SLACK_` environment prefix and `__main__`
  (`main.py:18-31, 117-119, 157-158`): argument parsing only.
- The `requests` session and the `SlackAPI` client (`main.py:34-35, 121-122`).
  They are replaced by the `Api` oracle.
- Pagination in `client.iter` (`main.py:146`). The listing is one finite sequence
  and appears as one `ConversationsList` request in the trace. The model also
  does not capture that the early return leaves later pages unfetched.
- Transport errors, and SlackAPIError from `conversations.list`, `auth.test` and
  `conversations.members`. The source does not catch these, so they end the
  process.
- The source crashes when no channel is found or `users.info` rejects an id.
  The model reports these as explicit `Outcome` values.
- The requests of `channel-members`. `ChannelMembers` returns no request trace.
  It leaves out the listing request of its channel lookup, and the `auth.test`,
  `users.info` and `conversations.members` requests.
- The interleaving of requests and log events in `create`. Requests and events
  are two separate sequences, each in order, so their relative order is not
  captured. For example, the error at `main.py:79-81` is logged before the
  fallback listing of `main.py:82` is requested.
- Log configuration and wording (`main.py:12-15`). Log lines are abstract events
  with a level, and the logged exception text is dropped.
- Python truthiness of the channel record: a record is treated as present
  whenever one is returned. An empty dict, which the platform never returns,
  would count as absent in the source.
- Which channels the platform lists for a given `types` filter (for example,
  that a public channel is not listed under `private_channel`). That is the
  platform's behaviour, and `listing` leaves it open.
