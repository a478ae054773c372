/**
 * The `channel-members` command: find the channel, then print one line per
 * member who is a live human other than the caller, in membership order.
 */
module MemberReport {
  import opened Wrappers
  import opened SlackApi
  import opened ChannelName
  import opened ChannelLookup

  /** One printed line: the member's display name, the member's id, the caller's display name. */
  datatype Line = Line(displayName: string, id: string, myDisplayName: string)

  /** How the command ends: normally, or where the source raises. */
  datatype Outcome =
    | Completed
    | ChannelNotFound          // `channel['id']` on None
    | UserNotFound(id: string) // users.info rejects an id

  /** A member is reported when not deleted, not a bot and not the caller. */
  predicate Reported(user: User, me: User)
  {
    !user.deleted && !user.isBot && user.id != me.id
  }

  function LineFor(user: User, me: User): (line: Line)
  {
    Line(user.displayName, user.id, me.displayName)
  }

  /** The lines for a list of member ids whose user records are all known. */
  function Report(memberIds: seq<string>, users: map<string, User>, me: User): (lines: seq<Line>)
    requires forall i :: 0 <= i < |memberIds| ==> memberIds[i] in users
  {
    if memberIds == [] then []
    else
      (if Reported(users[memberIds[0]], me) then [LineFor(users[memberIds[0]], me)] else [])
      + Report(memberIds[1..], users, me)
  }

  /** Reporting a list in two parts gives the two reports one after the other: order is kept. */
  lemma {:induction false} ReportAppend(a: seq<string>, b: seq<string>, users: map<string, User>, me: User)
    requires forall i :: 0 <= i < |a| ==> a[i] in users
    requires forall i :: 0 <= i < |b| ==> b[i] in users
    ensures forall i :: 0 <= i < |a + b| ==> (a + b)[i] in users
    ensures Report(a + b, users, me) == Report(a, users, me) + Report(b, users, me)
  {
    if a == [] {
      assert a + b == b;
    } else {
      assert (a + b)[0] == a[0];
      assert (a + b)[1..] == a[1..] + b;
      ReportAppend(a[1..], b, users, me);
    }
  }

  /**
   * A line is printed exactly when some listed member is reported, and it
   * carries that member's name and id and the caller's display name.
   */
  lemma {:induction false} ReportExactlyReported(memberIds: seq<string>, users: map<string, User>, me: User, line: Line)
    requires forall i :: 0 <= i < |memberIds| ==> memberIds[i] in users
    ensures line in Report(memberIds, users, me) <==>
      exists i :: 0 <= i < |memberIds| && Reported(users[memberIds[i]], me) && line == LineFor(users[memberIds[i]], me)
  {
    if memberIds != [] {
      ReportExactlyReported(memberIds[1..], users, me, line);
      if line in Report(memberIds[1..], users, me) {
        var i :| 0 <= i < |memberIds| - 1 && Reported(users[memberIds[1..][i]], me) && line == LineFor(users[memberIds[1..][i]], me);
        assert memberIds[1..][i] == memberIds[i + 1];
      }
      if exists i :: 0 <= i < |memberIds| && Reported(users[memberIds[i]], me) && line == LineFor(users[memberIds[i]], me) {
        var i :| 0 <= i < |memberIds| && Reported(users[memberIds[i]], me) && line == LineFor(users[memberIds[i]], me);
        if i > 0 {
          assert memberIds[1..][i - 1] == memberIds[i];
        }
      }
    }
  }

  /** Every line names the caller, and there are never more lines than members. */
  lemma {:induction false} ReportBounds(memberIds: seq<string>, users: map<string, User>, me: User)
    requires forall i :: 0 <= i < |memberIds| ==> memberIds[i] in users
    ensures var r := Report(memberIds, users, me);
      |r| <= |memberIds| && forall k :: 0 <= k < |r| ==> r[k].myDisplayName == me.displayName
  {
    if memberIds != [] {
      ReportBounds(memberIds[1..], users, me);
    }
  }

  /** How many leading member ids users.info can answer before the first it cannot. */
  function KnownPrefix(memberIds: seq<string>, users: map<string, User>): (k: nat)
    ensures k <= |memberIds|
    ensures forall i :: 0 <= i < k ==> memberIds[i] in users
    ensures k < |memberIds| ==> memberIds[k] !in users
  {
    if memberIds == [] || memberIds[0] !in users then 0
    else
      var k := KnownPrefix(memberIds[1..], users);
      assert forall i :: 1 <= i < k + 1 ==> memberIds[i] == memberIds[1..][i - 1];
      1 + k
  }

  /**
   * The loop of `channel_members`: walks the member ids in order, fetching
   * each record; stops at the first id with no record (where the source
   * raises), having printed the lines for the members before it.
   */
  method ReportMembers(memberIds: seq<string>, users: map<string, User>, me: User)
    returns (lines: seq<Line>, missing: Option<string>)
    ensures var k := KnownPrefix(memberIds, users);
      lines == Report(memberIds[..k], users, me) &&
      (missing.None? <==> k == |memberIds|) &&
      (missing.Some? ==> missing.value == memberIds[k])
  {
    lines := [];
    var i := 0;
    while i < |memberIds|
      invariant 0 <= i <= KnownPrefix(memberIds, users)
      invariant lines == Report(memberIds[..i], users, me)
    {
      var memberId := memberIds[i];
      if memberId !in users {
        return lines, Some(memberId);
      }
      var userInfo := users[memberId];
      ReportAppend(memberIds[..i], [memberId], users, me);
      assert memberIds[..i + 1] == memberIds[..i] + [memberId];
      i := i + 1;
      if userInfo.deleted || userInfo.isBot {
        continue;
      }
      if userInfo.id == me.id {
        continue;
      }
      lines := lines + [LineFor(userInfo, me)];
    }
    return lines, None;
  }

  /**
   * The `channel-members` command.  The caller's record is fetched first
   * (auth.test then users.info), then the channel — looked up among public
   * and private channels — must exist, then the members are reported.
   */
  method ChannelMembers(api: Api, channelName: string) returns (lines: seq<Line>, outcome: Outcome)
    ensures api.selfId !in api.users ==> lines == [] && outcome == UserNotFound(api.selfId)
    ensures var channel := FirstNamed(api.listing(PublicAndPrivate), StripLeading('#', channelName));
      api.selfId in api.users && channel.None? ==> lines == [] && outcome == ChannelNotFound
    ensures var channel := FirstNamed(api.listing(PublicAndPrivate), StripLeading('#', channelName));
      api.selfId in api.users && channel.Some? ==>
        var memberIds := api.members(channel.value.id);
        var k := KnownPrefix(memberIds, api.users);
        && lines == Report(memberIds[..k], api.users, api.users[api.selfId])
        && (outcome == Completed <==> k == |memberIds|)
        && (outcome != Completed ==> outcome == UserNotFound(memberIds[k]))
  {
    var channel, _ := FindChannelByName(api, channelName, true);
    if api.selfId !in api.users {
      return [], UserNotFound(api.selfId);
    }
    var myInfo := api.users[api.selfId];
    if channel.None? {
      return [], ChannelNotFound;
    }
    var missing;
    lines, missing := ReportMembers(api.members(channel.value.id), api.users, myInfo);
    outcome := if missing.None? then Completed else UserNotFound(missing.value);
  }

  /**
   * The worked example: a deleted member, a bot, the caller and one ordinary
   * member give exactly one line, for the ordinary member.
   */
  lemma ReportExample(me: User)
    requires me.id == "U3"
    ensures var users := map[
        "U1" := User("U1", true, false, "one"),
        "U2" := User("U2", false, true, "two"),
        "U3" := me,
        "U4" := User("U4", false, false, "four")];
      Report(["U1", "U2", "U3", "U4"], users, me) == [Line("four", "U4", me.displayName)]
  {
    var users := map[
        "U1" := User("U1", true, false, "one"),
        "U2" := User("U2", false, true, "two"),
        "U3" := me,
        "U4" := User("U4", false, false, "four")];
    assert users["U1"].deleted && users["U2"].isBot && users["U3"] == me;
    assert users["U4"] == User("U4", false, false, "four");
    var ids: seq<string> := ["U1", "U2", "U3", "U4"];
    assert Report(ids[3..], users, me) == [Line("four", "U4", me.displayName)] by {
      assert ids[3..][1..] == [];
    }
    assert ids[2..][1..] == ids[3..];
    assert Report(ids[2..], users, me) == Report(ids[3..], users, me);
    assert ids[1..][1..] == ids[2..];
    assert Report(ids[1..], users, me) == Report(ids[2..], users, me);
    assert Report(ids, users, me) == Report(ids[1..], users, me);
  }
}
