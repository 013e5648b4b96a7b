/** The `TournamentBot` object (index.js:4-262): its configuration fields, the
    event routing, the `setup` command and the reaction-triggered verification.
    Discord events arrive as plain values; the guild is a `Platform.Guild`. */
module Bot {
  import opened Wrappers
  import opened Ranking
  import opened Platform
  import opened Commands

  /** The approval emoji, U+2705 WHITE HEAVY CHECK MARK. */
  const Approval: string := "\U{2705}"
  const AdminOnlyText: string := "Only administrators can use this command."

  /** The slash-command options an interaction may carry (user options as user ids). */
  datatype Options = Options(
    logChannel: Option<string>, verifiedRole: Option<string>,
    discord: Option<string>, beatleaderId: Option<string>, beatleaderName: Option<string>)

  /** An `interactionCreate` event: whether it is a chat-input (slash) command,
      its name, whether the invoking member has the Administrator permission,
      and its options. */
  datatype Interaction = Interaction(isChatInput: bool, commandName: string, isAdmin: bool, options: Options)

  /** Options registered as required are always present: `setup` carries both
      its channel and its role. */
  predicate WellFormed(i: Interaction)
  {
    i.isChatInput && i.commandName == "setup" ==> i.options.logChannel.Some? && i.options.verifiedRole.Some?
  }

  /** The only command names that run a handler. */
  predicate IsKnownCommand(name: string)
  {
    name == "setup" || name == "check-player" || name == "check-all"
  }

  /** What `handleSetupCommand` sends: a private refusal to a non-administrator;
      otherwise the private confirmation and, when the new log channel is in
      the guild's channel cache, the same confirmation there. */
  function SetupReplies(isAdmin: bool, logChannel: string, verifiedRole: string, channels: set<string>): (out: seq<Effect>)
    ensures !isAdmin ==> out == [Reply(Text(AdminOnlyText), true)]
    ensures isAdmin ==> |out| >= 1 && out[0] == Reply(SetupEmbed(logChannel, verifiedRole), true)
    ensures |out| <= 2
    ensures isAdmin ==> (|out| == 2 <==> logChannel in channels)
    ensures forall k :: 1 <= k < |out| ==> out[k] == Send(logChannel, out[0].msg)
  {
    if !isAdmin then [Reply(Text(AdminOnlyText), true)]
    else
      var embed := SetupEmbed(logChannel, verifiedRole);
      [Reply(embed, true)] + Mirror(LogTarget(Some(logChannel), channels), embed)
  }

  /** Whether `verifyPlayer` asks for the verified role: it must be configured and
      in the role cache, and `members.fetch` must find the reacting user. */
  predicate Grants(verifiedRoleId: Option<string>, g: GuildView, userId: string)
  {
    verifiedRoleId.Some? && verifiedRoleId.value in g.roles && userId in g.members
  }

  /** Whether Discord accepts that request: the role is one the bot may grant. */
  predicate Accepted(verifiedRoleId: Option<string>, g: GuildView, userId: string)
  {
    Grants(verifiedRoleId, g, userId) && verifiedRoleId.value in g.manageable
  }

  /** The members' role sets after `verifyPlayer`. */
  function RolesAfterVerify(verifiedRoleId: Option<string>, g: GuildView, userId: string): (after: map<string, set<string>>)
    ensures forall u, r :: Holds(after, u, r) <==>
      Holds(g.memberRoles, u, r) || (Accepted(verifiedRoleId, g, userId) && u == userId && Some(r) == verifiedRoleId)
  {
    if Accepted(verifiedRoleId, g, userId) then Granted(g.memberRoles, userId, verifiedRoleId.value)
    else g.memberRoles
  }

  /** What `verifyPlayer` sends: the role request, then, once Discord accepted it,
      the log entry when the log channel resolves. */
  function VerifyReplies(verifiedRoleId: Option<string>, g: GuildView, log: Option<string>, userId: string): (out: seq<Effect>)
    ensures !Grants(verifiedRoleId, g, userId) ==> out == []
    ensures Grants(verifiedRoleId, g, userId) ==> |out| >= 1 && out[0] == AddRole(userId, verifiedRoleId.value)
    ensures |out| <= 2
    ensures |out| == 2 <==> Accepted(verifiedRoleId, g, userId) && log.Some?
    ensures forall k :: 1 <= k < |out| ==> log.Some? && out[k] == Send(log.value, VerifiedEmbed(userId))
  {
    if !Grants(verifiedRoleId, g, userId) then []
    else if verifiedRoleId.value !in g.manageable then [AddRole(userId, verifiedRoleId.value)]
    else [AddRole(userId, verifiedRoleId.value)] + Mirror(log, VerifiedEmbed(userId))
  }

  /** With no verified role configured, verification changes no role and sends nothing. */
  lemma VerifyWithoutRoleIsSilent(g: GuildView, log: Option<string>, userId: string)
    ensures VerifyReplies(None, g, log, userId) == []
    ensures RolesAfterVerify(None, g, userId) == g.memberRoles
  {
  }

  /** A newly verified member joins the verified role's members at its own
      position in the member cache; the order of the other holders is kept and
      no other role's members change. */
  lemma VerifiedMemberKeepsCacheOrder(verifiedRoleId: Option<string>, g: GuildView, k: nat, other: string)
    requires NoDuplicates(g.members) && k < |g.members|
    requires Accepted(verifiedRoleId, g, g.members[k]) && !Holds(g.memberRoles, g.members[k], verifiedRoleId.value)
    requires Some(other) != verifiedRoleId
    ensures var after := RolesAfterVerify(verifiedRoleId, g, g.members[k]);
      var role := verifiedRoleId.value;
      && Holders(g.members, after, role)
         == Holders(g.members[..k], g.memberRoles, role) + [g.members[k]] + Holders(g.members[k + 1..], g.memberRoles, role)
      && Holders(g.members, after, other) == Holders(g.members, g.memberRoles, other)
  {
    GrantKeepsCacheOrder(g.members, g.memberRoles, k, verifiedRoleId.value);
    GrantLeavesOtherRoles(g.members, g.memberRoles, g.members[k], verifiedRoleId.value, other);
  }

  /** Reacting twice has the effect on roles of reacting once, but each reaction is logged again. */
  lemma VerifyTwiceGrantsOnce(verifiedRoleId: Option<string>, g: GuildView, log: Option<string>, userId: string)
    ensures var once := g.(memberRoles := RolesAfterVerify(verifiedRoleId, g, userId));
      && RolesAfterVerify(verifiedRoleId, once, userId) == once.memberRoles
      && VerifyReplies(verifiedRoleId, once, log, userId) == VerifyReplies(verifiedRoleId, g, log, userId)
  {
  }

  /** Before any setup no log channel is configured, so no command and no
      verification sends anything to a channel. */
  lemma NothingLoggedBeforeSetup(api: Api, o: Options, euRoleId: Option<string>, g: GuildView, userId: string)
    ensures var log := LogTarget(None, g.channels);
      && (forall e :: e in CheckPlayerReplies(api, o.discord, o.beatleaderId, o.beatleaderName, log) ==> !e.Send?)
      && (forall e :: e in CheckAllReplies(api, euRoleId, g, log) ==> !e.Send?)
      && VerifyReplies(None, g, log, userId) == []
  {
  }

  class TournamentBot {
    var logChannelId: Option<string>
    var verifiedRoleId: Option<string>
    const euRoleId: Option<string>
    const verifyChannelId: Option<string>

    /** The log channel and the verified role are configured together or not at all. */
    ghost predicate Valid()
      reads this
    {
      logChannelId.Some? <==> verifiedRoleId.Some?
    }

    /** A bot starts unconfigured; the EU role and the verification channel come
        from the environment and may be undefined. */
    constructor (euRoleId: Option<string>, verifyChannelId: Option<string>)
      ensures Valid()
      ensures logChannelId == None && verifiedRoleId == None
      ensures this.euRoleId == euRoleId && this.verifyChannelId == verifyChannelId
    {
      logChannelId := None;
      verifiedRoleId := None;
      this.euRoleId := euRoleId;
      this.verifyChannelId := verifyChannelId;
    }

    /** `handleSetupCommand`: only an administrator changes the configuration,
        and both fields are set together. */
    method HandleSetup(isAdmin: bool, logChannel: string, verifiedRole: string, guild: Guild) returns (out: seq<Effect>)
      requires Valid()
      modifies this
      ensures Valid()
      ensures isAdmin ==> logChannelId == Some(logChannel) && verifiedRoleId == Some(verifiedRole)
      ensures !isAdmin ==> logChannelId == old(logChannelId) && verifiedRoleId == old(verifiedRoleId)
      ensures out == SetupReplies(isAdmin, logChannel, verifiedRole, guild.channels)
    {
      if !isAdmin {
        return [Reply(Text(AdminOnlyText), true)];
      }
      logChannelId := Some(logChannel);
      verifiedRoleId := Some(verifiedRole);
      var embed := SetupEmbed(logChannel, verifiedRole);
      out := [Reply(embed, true)];
      if logChannel in guild.channels {
        out := out + [Send(logChannel, embed)];
      }
    }

    /** `handleCheckAllCommand`: one report line pushed per EU-role member, in
        enumeration order, a failed lookup pushing an error line instead. */
    method HandleCheckAll(api: Api, guild: Guild) returns (out: seq<Effect>)
      ensures out == CheckAllReplies(api, euRoleId, guild.View(), LogTarget(logChannelId, guild.channels))
    {
      if euRoleId.None? || euRoleId.value !in guild.roles {
        return [EditReply(Text(EuRoleMissingText))];
      }
      var membersWithRole := Holders(guild.members, guild.memberRoles, euRoleId.value);
      var playerChecks: seq<string> := [];
      for i := 0 to |membersWithRole|
        invariant playerChecks == ReportLines(api, membersWithRole[..i])
      {
        var member := membersWithRole[i];
        playerChecks := playerChecks + [ReportLine(member, InfoByDiscord(api, member))];
        assert membersWithRole[..i + 1][..i] == membersWithRole[..i];
      }
      assert membersWithRole[..|membersWithRole|] == membersWithRole;
      var report := CheckAllEmbed(Join(playerChecks));
      out := [EditReply(report)];
      if logChannelId.Some? && logChannelId.value in guild.channels {
        out := out + [Send(logChannelId.value, report)];
      }
    }

    /** `verifyPlayer`: asks for the verified role when it resolves and the user
        is a cached member; once Discord accepts, logs the verification when the
        log channel resolves. */
    method VerifyPlayer(guild: Guild, userId: string) returns (out: seq<Effect>)
      requires guild.Valid()
      modifies guild
      ensures guild.Valid()
      ensures guild.View() == old(guild.View()).(memberRoles := RolesAfterVerify(verifiedRoleId, old(guild.View()), userId))
      ensures out == VerifyReplies(verifiedRoleId, old(guild.View()), LogTarget(logChannelId, old(guild.channels)), userId)
    {
      out := [];
      if verifiedRoleId.Some? && verifiedRoleId.value in guild.roles && userId in guild.members {
        var accepted := guild.AddRole(userId, verifiedRoleId.value);
        out := [AddRole(userId, verifiedRoleId.value)];
        if accepted && logChannelId.Some? && logChannelId.value in guild.channels {
          out := out + [Send(logChannelId.value, VerifiedEmbed(userId))];
        }
      }
    }

    /** The `interactionCreate` listener: chat-input commands are routed by name;
        anything else does nothing. */
    method OnInteraction(i: Interaction, api: Api, guild: Guild) returns (out: seq<Effect>)
      requires Valid() && WellFormed(i)
      modifies this
      ensures Valid()
      ensures !i.isChatInput || !IsKnownCommand(i.commandName) ==>
        out == [] && logChannelId == old(logChannelId) && verifiedRoleId == old(verifiedRoleId)
      ensures i.isChatInput && i.commandName == "setup" ==>
        && out == SetupReplies(i.isAdmin, i.options.logChannel.value, i.options.verifiedRole.value, guild.channels)
        && (i.isAdmin ==> logChannelId == i.options.logChannel && verifiedRoleId == i.options.verifiedRole)
        && (!i.isAdmin ==> logChannelId == old(logChannelId) && verifiedRoleId == old(verifiedRoleId))
      ensures i.isChatInput && i.commandName == "check-player" ==>
        && out == CheckPlayerReplies(api, i.options.discord, i.options.beatleaderId, i.options.beatleaderName,
                                     LogTarget(logChannelId, guild.channels))
        && logChannelId == old(logChannelId) && verifiedRoleId == old(verifiedRoleId)
      ensures i.isChatInput && i.commandName == "check-all" ==>
        && out == CheckAllReplies(api, euRoleId, guild.View(), LogTarget(logChannelId, guild.channels))
        && logChannelId == old(logChannelId) && verifiedRoleId == old(verifiedRoleId)
    {
      out := [];
      if !i.isChatInput {
        return;
      }
      if i.commandName == "setup" {
        out := HandleSetup(i.isAdmin, i.options.logChannel.value, i.options.verifiedRole.value, guild);
      } else if i.commandName == "check-player" {
        out := CheckPlayerReplies(api, i.options.discord, i.options.beatleaderId, i.options.beatleaderName,
                                  LogTarget(logChannelId, guild.channels));
      } else if i.commandName == "check-all" {
        out := HandleCheckAll(api, guild);
      }
    }

    /** The `messageReactionAdd` listener: only the approval emoji on a message
        in the verification channel runs `verifyPlayer`, for the reacting user. */
    method OnReaction(emoji: string, channelId: string, userId: string, guild: Guild) returns (out: seq<Effect>)
      requires guild.Valid()
      modifies guild
      ensures guild.Valid()
      ensures !(emoji == Approval && verifyChannelId == Some(channelId)) ==>
        out == [] && guild.View() == old(guild.View())
      ensures emoji == Approval && verifyChannelId == Some(channelId) ==>
        && guild.View() == old(guild.View()).(memberRoles := RolesAfterVerify(verifiedRoleId, old(guild.View()), userId))
        && out == VerifyReplies(verifiedRoleId, old(guild.View()), LogTarget(logChannelId, old(guild.channels)), userId)
    {
      out := [];
      if emoji == Approval && verifyChannelId == Some(channelId) {
        out := VerifyPlayer(guild, userId);
      }
    }
  }
}
