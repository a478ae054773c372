/** `find_channel_by_name`: a scan of the channel listing for an exact name. */
module ChannelLookup {
  import opened Wrappers
  import opened SlackApi
  import opened ChannelName

  /** The `types` filter: private channels only, unless public ones are asked for too. */
  function TypesFilter(includePublic: bool): (types: string)
    ensures types == PublicAndPrivate <==> includePublic
    ensures types == PrivateOnly <==> !includePublic
  {
    if includePublic then PublicAndPrivate else PrivateOnly
  }

  /**
   * The first record of `listing` called `name`, if any.  None exactly when no
   * record has that name; otherwise a record at some position with no record
   * of that name before it.
   */
  function FirstNamed(listing: seq<Channel>, name: string): (r: Option<Channel>)
    ensures r.None? <==> forall i :: 0 <= i < |listing| ==> listing[i].name != name
    ensures r.Some? ==> r.value.name == name
    ensures r.Some? ==> exists i :: 0 <= i < |listing| && listing[i] == r.value &&
                                    forall j :: 0 <= j < i ==> listing[j].name != name
  {
    if listing == [] then None
    else if listing[0].name == name then Some(listing[0])
    else
      var r := FirstNamed(listing[1..], name);
      assert forall i :: 1 <= i < |listing| ==> listing[i] == listing[1..][i - 1];
      r
  }

  /**
   * Strips one leading `#`, lists the channels with the filter `includePublic`
   * selects, and returns the first record whose name matches exactly.
   */
  method FindChannelByName(api: Api, channelName: string, includePublic: bool)
    returns (found: Option<Channel>, calls: seq<Call>)
    ensures calls == [ConversationsList(TypesFilter(includePublic))]
    ensures found == FirstNamed(api.listing(TypesFilter(includePublic)), StripLeading('#', channelName))
  {
    var rawChannelName := StripLeading('#', channelName);
    var types := TypesFilter(includePublic);
    calls := [ConversationsList(types)];
    var listing := api.listing(types);
    var i := 0;
    while i < |listing|
      invariant 0 <= i <= |listing|
      invariant FirstNamed(listing[i..], rawChannelName) == FirstNamed(listing, rawChannelName)
    {
      if listing[i].name == rawChannelName {
        return Some(listing[i]), calls;
      }
      assert listing[i..][1..] == listing[i + 1..];
      i := i + 1;
    }
    return None, calls;
  }
}
