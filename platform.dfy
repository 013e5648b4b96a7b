/** The part of the chat platform the bot reads and changes: the messages it
    sends, and a guild's member cache, roles and channel cache. Discord's own
    behaviour is reduced to the state the bot observes. */
module Platform {
  import opened Wrappers
  import Ranking

  /** The content of one message the bot sends (text or one of its embeds). */
  datatype Message =
    | Text(text: string)
    | SetupEmbed(logChannelId: string, verifiedRoleId: string)
    | PlayerEmbed(info: Ranking.PlayerInfo)
    | CheckAllEmbed(description: string)
    | VerifiedEmbed(userId: string)

  /** One outward call the bot makes. */
  datatype Effect =
    | Reply(msg: Message, ephemeral: bool)     // interaction.reply
    | EditReply(msg: Message)                  // interaction.editReply after deferReply
    | Send(channelId: string, msg: Message)    // channel.send
    | AddRole(userId: string, roleId: string)  // member.roles.add

  /** `channels.cache.get(logChannelId)`: the log channel when one is configured
      and the cache holds it. */
  function LogTarget(logChannelId: Option<string>, channels: set<string>): Option<string>
  {
    if logChannelId.Some? && logChannelId.value in channels then logChannelId else None
  }

  /** The copy of a message sent to the log channel, if it resolved. */
  function Mirror(target: Option<string>, m: Message): seq<Effect>
  {
    if target.Some? then [Send(target.value, m)] else []
  }

  predicate NoDuplicates(s: seq<string>)
  {
    forall i, j :: 0 <= i < j < |s| ==> s[i] != s[j]
  }

  /** Whether a cached member holds a role. */
  predicate Holds(memberRoles: map<string, set<string>>, userId: string, roleId: string)
  {
    userId in memberRoles && roleId in memberRoles[userId]
  }

  /** The role sets after `roleId` is added to `userId`'s roles. */
  function Granted(memberRoles: map<string, set<string>>, userId: string, roleId: string): map<string, set<string>>
  {
    memberRoles[userId := (if userId in memberRoles then memberRoles[userId] else {}) + {roleId}]
  }

  /** `role.members`: the cached members that hold the role, in cache order. */
  function Holders(cache: seq<string>, memberRoles: map<string, set<string>>, roleId: string): (h: seq<string>)
    ensures forall u :: u in h <==> u in cache && Holds(memberRoles, u, roleId)
    ensures NoDuplicates(cache) ==> NoDuplicates(h)
    decreases |cache|
  {
    if cache == [] then []
    else (if Holds(memberRoles, cache[0], roleId) then [cache[0]] else []) + Holders(cache[1..], memberRoles, roleId)
  }

  /** Filtering a cache split in two filters each part in turn. */
  lemma {:induction false} HoldersSplit(a: seq<string>, b: seq<string>, memberRoles: map<string, set<string>>, roleId: string)
    ensures Holders(a + b, memberRoles, roleId) == Holders(a, memberRoles, roleId) + Holders(b, memberRoles, roleId)
    decreases |a|
  {
    if a != [] {
      assert (a + b)[0] == a[0];
      assert (a + b)[1..] == a[1..] + b;
      HoldersSplit(a[1..], b, memberRoles, roleId);
    } else {
      assert a + b == b;
    }
  }

  /** Role sets that agree on who holds the role over the cache list the same holders. */
  lemma {:induction false} HoldersAgree(cache: seq<string>, before: map<string, set<string>>, after: map<string, set<string>>, roleId: string)
    requires forall u :: u in cache ==> (Holds(before, u, roleId) <==> Holds(after, u, roleId))
    ensures Holders(cache, before, roleId) == Holders(cache, after, roleId)
    decreases |cache|
  {
    if cache != [] {
      HoldersAgree(cache[1..], before, after, roleId);
    }
  }

  /** Granting a role changes who holds it only for the member it is granted to. */
  lemma GrantedHolds(memberRoles: map<string, set<string>>, userId: string, roleId: string, u: string, r: string)
    ensures Holds(Granted(memberRoles, userId, roleId), u, r) <==> Holds(memberRoles, u, r) || (u == userId && r == roleId)
  {
  }

  /** Granting a role to the member at cache position k adds that member to the
      role's members at its cache position, between the holders cached before
      it and those cached after it. */
  lemma GrantKeepsCacheOrder(cache: seq<string>, memberRoles: map<string, set<string>>, k: nat, roleId: string)
    requires NoDuplicates(cache) && k < |cache|
    requires !Holds(memberRoles, cache[k], roleId)
    ensures Holders(cache, Granted(memberRoles, cache[k], roleId), roleId)
         == Holders(cache[..k], memberRoles, roleId) + [cache[k]] + Holders(cache[k + 1..], memberRoles, roleId)
  {
    var u := cache[k];
    var after := Granted(memberRoles, u, roleId);
    var front, back := cache[..k], cache[k + 1..];
    assert cache == front + ([u] + back);
    HoldersSplit(front, [u] + back, after, roleId);
    HoldersSplit([u], back, after, roleId);
    forall v | v in front ensures Holds(memberRoles, v, roleId) <==> Holds(after, v, roleId) {
      GrantedHolds(memberRoles, u, roleId, v, roleId);
    }
    forall v | v in back ensures Holds(memberRoles, v, roleId) <==> Holds(after, v, roleId) {
      GrantedHolds(memberRoles, u, roleId, v, roleId);
    }
    HoldersAgree(front, memberRoles, after, roleId);
    HoldersAgree(back, memberRoles, after, roleId);
    GrantedHolds(memberRoles, u, roleId, u, roleId);
    assert Holders([u], after, roleId) == [u];
  }

  /** Granting a role leaves the members of every other role unchanged. */
  lemma GrantLeavesOtherRoles(cache: seq<string>, memberRoles: map<string, set<string>>, userId: string, roleId: string, other: string)
    requires other != roleId
    ensures Holders(cache, Granted(memberRoles, userId, roleId), other) == Holders(cache, memberRoles, other)
  {
    forall v | v in cache
      ensures Holds(memberRoles, v, other) <==> Holds(Granted(memberRoles, userId, roleId), v, other)
    {
      GrantedHolds(memberRoles, userId, roleId, v, other);
    }
    HoldersAgree(cache, memberRoles, Granted(memberRoles, userId, roleId), other);
  }

  /** A snapshot of what the bot can see of a guild. */
  datatype GuildView = GuildView(
    members: seq<string>, memberRoles: map<string, set<string>>,
    roles: set<string>, manageable: set<string>, channels: set<string>)

  /** The guild the bot serves, as discord.js caches it. */
  class Guild {
    /** The member cache: ids in cache order. */
    var members: seq<string>
    /** The roles each cached member holds. */
    var memberRoles: map<string, set<string>>
    /** The role cache. */
    var roles: set<string>
    /** The roles the bot may grant (ranked below its own highest role); `roles.add` rejects the rest. */
    var manageable: set<string>
    /** The channel cache. */
    var channels: set<string>

    /** Each cached member appears once and has a role set. */
    ghost predicate Valid()
      reads this
    {
      NoDuplicates(members) && forall u :: u in memberRoles <==> u in members
    }

    function View(): GuildView
      reads this
    {
      GuildView(members, memberRoles, roles, manageable, channels)
    }

    constructor (members: seq<string>, memberRoles: map<string, set<string>>, roles: set<string>,
                 manageable: set<string>, channels: set<string>)
      requires NoDuplicates(members) && forall u :: u in memberRoles <==> u in members
      ensures Valid()
      ensures View() == GuildView(members, memberRoles, roles, manageable, channels)
    {
      this.members := members;
      this.memberRoles := memberRoles;
      this.roles := roles;
      this.manageable := manageable;
      this.channels := channels;
    }

    /** `member.roles.add(role)`: accepted only for a role the bot may grant. */
    method AddRole(userId: string, roleId: string) returns (accepted: bool)
      requires Valid() && userId in members && roleId in roles
      modifies this
      ensures Valid()
      ensures accepted == (roleId in manageable)
      ensures View() == old(View()).(memberRoles :=
        if accepted then Granted(old(memberRoles), userId, roleId) else old(memberRoles))
    {
      accepted := roleId in manageable;
      if accepted {
        memberRoles := Granted(memberRoles, userId, roleId);
      }
    }
  }
}
