/** The decisions inside the `check-player` and `check-all` commands
    (index.js:85-166): which identifier a `check-player` request is looked up
    by, what it replies, and the per-member lines of the `check-all` report. */
module Commands {
  import opened Wrappers
  import opened Ranking
  import opened Platform

  const MissingInputText: string := "Please provide at least one player identifier."
  const LookupErrorPrefix: string := "Error retrieving player information: "

  /** The identifier a `check-player` request is answered by. */
  datatype Selector = DiscordUser(userId: string) | BeatleaderId(beatleaderId: string) | BeatleaderName(name: string)

  /** Whether selector `s` is one of the identifiers the request carries. A user
      option is truthy whenever present; a string option only when non-empty. */
  predicate Offered(s: Selector, discord: Option<string>, beatleaderId: Option<string>, beatleaderName: Option<string>)
  {
    match s
    case DiscordUser(u) => discord == Some(u)
    case BeatleaderId(b) => beatleaderId == Some(b) && b != ""
    case BeatleaderName(n) => beatleaderName == Some(n) && n != ""
  }

  /** Lower is tried first: the user, then the BeatLeader id, then the name. */
  function Priority(s: Selector): nat
  {
    match s
    case DiscordUser(_) => 0
    case BeatleaderId(_) => 1
    case BeatleaderName(_) => 2
  }

  /** The `if (discordUser) … else if (beatleaderId) … else if (beatleaderName)` chain:
      the offered identifier of highest priority, or none when nothing is offered. */
  function ChooseSelector(discord: Option<string>, beatleaderId: Option<string>, beatleaderName: Option<string>): (r: Option<Selector>)
    ensures r.None? <==> forall s :: !Offered(s, discord, beatleaderId, beatleaderName)
    ensures r.Some? ==> Offered(r.value, discord, beatleaderId, beatleaderName)
    ensures r.Some? ==> forall s :: Offered(s, discord, beatleaderId, beatleaderName) ==> Priority(r.value) <= Priority(s)
  {
    if discord.Some? then
      assert Offered(DiscordUser(discord.value), discord, beatleaderId, beatleaderName);
      Some(DiscordUser(discord.value))
    else if beatleaderId.Some? && beatleaderId.value != "" then
      assert Offered(BeatleaderId(beatleaderId.value), discord, beatleaderId, beatleaderName);
      Some(BeatleaderId(beatleaderId.value))
    else if beatleaderName.Some? && beatleaderName.value != "" then
      assert Offered(BeatleaderName(beatleaderName.value), discord, beatleaderId, beatleaderName);
      Some(BeatleaderName(beatleaderName.value))
    else None
  }

  /** The two properties of `ChooseSelector` determine its choice: any offered
      selector of minimal priority is the one it picks. */
  lemma ChoiceIsUnique(discord: Option<string>, beatleaderId: Option<string>, beatleaderName: Option<string>, s: Selector)
    requires Offered(s, discord, beatleaderId, beatleaderName)
    requires forall t :: Offered(t, discord, beatleaderId, beatleaderName) ==> Priority(s) <= Priority(t)
    ensures ChooseSelector(discord, beatleaderId, beatleaderName) == Some(s)
  {
  }

  /** The lookup a selector runs. */
  function Lookup(api: Api, s: Selector): Result<PlayerInfo, LookupError>
  {
    match s
    case DiscordUser(u) => InfoByDiscord(api, u)
    case BeatleaderId(b) => InfoById(api, b)
    case BeatleaderName(n) => InfoByName(api, n)
  }

  /** Everything `handleCheckPlayerCommand` sends after deferring its reply,
      given the resolved log channel. */
  function CheckPlayerReplies(api: Api, discord: Option<string>, beatleaderId: Option<string>,
                              beatleaderName: Option<string>, log: Option<string>): seq<Effect>
  {
    match ChooseSelector(discord, beatleaderId, beatleaderName)
    case None => [EditReply(Text(MissingInputText))]
    case Some(s) =>
      match Lookup(api, s)
      case Failure(e) => [EditReply(Text(LookupErrorPrefix + ErrorMessage(e)))]
      case Success(info) => [EditReply(PlayerEmbed(info))] + Mirror(log, PlayerEmbed(info))
  }

  /** With no identifier the reply asks for one, and no lookup is made: the
      ranking service and the log channel play no part. */
  lemma CheckPlayerMissingInput(api: Api, api': Api, discord: Option<string>, beatleaderId: Option<string>,
                                beatleaderName: Option<string>, log: Option<string>, log': Option<string>)
    requires discord.None?
    requires beatleaderId.None? || beatleaderId == Some("")
    requires beatleaderName.None? || beatleaderName == Some("")
    ensures CheckPlayerReplies(api, discord, beatleaderId, beatleaderName, log) == [EditReply(Text(MissingInputText))]
    ensures CheckPlayerReplies(api, discord, beatleaderId, beatleaderName, log)
         == CheckPlayerReplies(api', discord, beatleaderId, beatleaderName, log')
  {
  }

  /** A given Discord user wins: the id and the name are ignored, and the reply
      depends on the service only through the `/player/discord/<user>` response. */
  lemma CheckPlayerPrefersDiscordUser(api: Api, api': Api, u: string, beatleaderId: Option<string>,
                                      beatleaderName: Option<string>, log: Option<string>)
    requires api.player(DiscordEndpoint(u)) == api'.player(DiscordEndpoint(u))
    ensures CheckPlayerReplies(api, Some(u), beatleaderId, beatleaderName, log)
         == CheckPlayerReplies(api', Some(u), None, None, log)
  {
  }

  /** Without a user, a non-empty BeatLeader id wins over the name. */
  lemma CheckPlayerPrefersIdOverName(api: Api, api': Api, b: string, beatleaderName: Option<string>, log: Option<string>)
    requires b != ""
    requires api.player(PlayerEndpoint(b)) == api'.player(PlayerEndpoint(b))
    ensures CheckPlayerReplies(api, None, Some(b), beatleaderName, log)
         == CheckPlayerReplies(api', None, Some(b), None, log)
  {
  }

  /** The caller always gets exactly one reply, first; a copy goes to the log
      channel only when it resolves and the lookup succeeded, and it is the
      same embed the caller got. */
  lemma CheckPlayerReplyShape(api: Api, discord: Option<string>, beatleaderId: Option<string>,
                              beatleaderName: Option<string>, log: Option<string>)
    ensures var out := CheckPlayerReplies(api, discord, beatleaderId, beatleaderName, log);
      && 1 <= |out| <= 2
      && out[0].EditReply?
      && (forall k :: 1 <= k < |out| ==> out[k] == Send(log.value, out[0].msg))
      && (|out| == 2 <==>
            log.Some? && ChooseSelector(discord, beatleaderId, beatleaderName).Some?
            && Lookup(api, ChooseSelector(discord, beatleaderId, beatleaderName).value).Success?)
  {
  }

  // ---------------------------------------------------------------------
  // check-all report lines

  const ErrorSuffix: string := " : Unknown : Error checking"

  /** `${playerInfo.isEU}`. */
  function BoolText(b: bool): string
  {
    if b then "true" else "false"
  }

  /** The `playerChecks` entry for one role member. */
  function ReportLine(userId: string, r: Result<PlayerInfo, LookupError>): string
  {
    match r
    case Success(info) => "<@" + userId + "> : " + info.name + " : " + BoolText(info.isEU)
    case Failure(_) => "<@" + userId + ">" + ErrorSuffix
  }

  /** The `playerChecks` array built for the members, in their order. */
  function ReportLines(api: Api, members: seq<string>): (lines: seq<string>)
    ensures |lines| == |members|
    ensures forall i :: 0 <= i < |members| ==> lines[i] == ReportLine(members[i], InfoByDiscord(api, members[i]))
    decreases |members|
  {
    if members == [] then []
    else ReportLines(api, members[..|members| - 1]) + [ReportLine(members[|members| - 1], InfoByDiscord(api, members[|members| - 1]))]
  }

  /** A line reports a failed check when it ends with the error marker. */
  predicate IsErrorLine(line: string)
  {
    |ErrorSuffix| <= |line| && line[|line| - |ErrorSuffix|..] == ErrorSuffix
  }

  /** Every error line ends with the marker's last letter. */
  lemma ErrorLineEndsInG(line: string)
    ensures IsErrorLine(line) ==> |line| > 0 && line[|line| - 1] == 'g'
  {
  }

  /** A report line is an error line exactly when that member's lookup failed:
      a resolved line ends in "true" or "false", never in the marker. */
  lemma LineMarksFailure(userId: string, r: Result<PlayerInfo, LookupError>)
    ensures IsErrorLine(ReportLine(userId, r)) <==> r.Failure?
  {
    var line := ReportLine(userId, r);
    if r.Success? {
      var tail := BoolText(r.value.isEU);
      assert line[|line| - 1] == tail[|tail| - 1] == 'e';
      ErrorLineEndsInG(line);
    } else {
      assert line == "<@" + userId + ">" + ErrorSuffix;
      assert line[|line| - |ErrorSuffix|..] == ErrorSuffix;
    }
  }

  /** Failure isolation: line i is an error line exactly when member i's lookup
      failed, whatever happened to the other members. */
  lemma ReportMarksFailuresInPlace(api: Api, members: seq<string>)
    ensures |ReportLines(api, members)| == |members|
    ensures forall i :: 0 <= i < |members| ==>
      (IsErrorLine(ReportLines(api, members)[i]) <==> InfoByDiscord(api, members[i]).Failure?)
  {
    forall i | 0 <= i < |members|
      ensures IsErrorLine(ReportLines(api, members)[i]) <==> InfoByDiscord(api, members[i]).Failure?
    {
      LineMarksFailure(members[i], InfoByDiscord(api, members[i]));
    }
  }

  /** The number of members whose lookup fails. */
  function CountFailures(api: Api, members: seq<string>): nat
    decreases |members|
  {
    if members == [] then 0
    else CountFailures(api, members[..|members| - 1]) + (if InfoByDiscord(api, members[|members| - 1]).Failure? then 1 else 0)
  }

  /** The number of error lines in a report. */
  function CountErrorLines(lines: seq<string>): nat
    decreases |lines|
  {
    if lines == [] then 0
    else CountErrorLines(lines[..|lines| - 1]) + (if IsErrorLine(lines[|lines| - 1]) then 1 else 0)
  }

  /** The report has as many error lines as there are failed lookups (so N
      members with one failure give N lines, one of them an error line). */
  lemma {:induction false} ErrorLinesCountFailures(api: Api, members: seq<string>)
    ensures CountErrorLines(ReportLines(api, members)) == CountFailures(api, members)
    decreases |members|
  {
    if members != [] {
      var front := members[..|members| - 1];
      var last := members[|members| - 1];
      var lines := ReportLines(api, members);
      assert lines == ReportLines(api, front) + [ReportLine(last, InfoByDiscord(api, last))];
      assert lines[..|lines| - 1] == ReportLines(api, front);
      ErrorLinesCountFailures(api, front);
      LineMarksFailure(last, InfoByDiscord(api, last));
    }
  }

  const EuRoleMissingText: string := "EU role not found."

  /** Everything `handleCheckAllCommand` sends after deferring its reply, given
      the EU role id, the guild and the resolved log channel: a refusal when the
      role is not in the role cache, otherwise one embed whose description joins
      the lines of the role's cached members. */
  function CheckAllReplies(api: Api, euRoleId: Option<string>, g: GuildView, log: Option<string>): seq<Effect>
  {
    if euRoleId.None? || euRoleId.value !in g.roles then [EditReply(Text(EuRoleMissingText))]
    else
      var report := CheckAllEmbed(Join(ReportLines(api, Holders(g.members, g.memberRoles, euRoleId.value))));
      [EditReply(report)] + Mirror(log, report)
  }

  // ---------------------------------------------------------------------
  // joining and splitting the report

  /** `lines.join('\n')`. */
  function Join(lines: seq<string>): string
  {
    if |lines| == 0 then ""
    else if |lines| == 1 then lines[0]
    else lines[0] + "\n" + Join(lines[1..])
  }

  /** Position of the first line break, or the length when there is none. */
  function IndexOfNewline(s: string): (k: nat)
    ensures k <= |s|
    ensures k < |s| ==> s[k] == '\n'
    ensures forall i :: 0 <= i < k ==> s[i] != '\n'
  {
    if s == [] then 0 else if s[0] == '\n' then 0 else 1 + IndexOfNewline(s[1..])
  }

  /** `s.split('\n')`: how a reader of the report sees its lines. */
  function Split(s: string): (parts: seq<string>)
    ensures |parts| >= 1
    decreases |s|
  {
    var k := IndexOfNewline(s);
    if k == |s| then [s] else [s[..k]] + Split(s[k + 1..])
  }

  predicate NoLineBreak(s: string)
  {
    forall i :: 0 <= i < |s| ==> s[i] != '\n'
  }

  /** Joining lines without line breaks and splitting the text again gives the lines back. */
  lemma {:induction false} SplitJoin(lines: seq<string>)
    requires |lines| >= 1
    requires forall j :: 0 <= j < |lines| ==> NoLineBreak(lines[j])
    ensures Split(Join(lines)) == lines
    decreases |lines|
  {
    var s := Join(lines);
    var head := lines[0];
    if |lines| == 1 {
      assert IndexOfNewline(s) == |s|;
    } else {
      var rest := Join(lines[1..]);
      assert s == head + "\n" + rest;
      var k := IndexOfNewline(s);
      assert s[|head|] == '\n';
      assert forall i :: 0 <= i < |head| ==> s[i] == head[i];
      assert k == |head|;
      assert s[..k] == head;
      assert s[k + 1..] == rest;
      SplitJoin(lines[1..]);
      assert lines == [head] + lines[1..];
    }
  }

  /** When member ids and resolved names carry no line break, the `check-all`
      description splits back into exactly one line per member, in order. */
  lemma ReportHasOneLinePerMember(api: Api, members: seq<string>)
    requires |members| >= 1
    requires forall i :: 0 <= i < |members| ==> NoLineBreak(members[i])
    requires forall i :: 0 <= i < |members| && InfoByDiscord(api, members[i]).Success? ==>
      NoLineBreak(InfoByDiscord(api, members[i]).value.name)
    ensures Split(Join(ReportLines(api, members))) == ReportLines(api, members)
  {
    var lines := ReportLines(api, members);
    forall j | 0 <= j < |lines|
      ensures NoLineBreak(lines[j])
    {
      var r := InfoByDiscord(api, members[j]);
      var id := members[j];
      if r.Success? {
        assert lines[j] == "<@" + id + "> : " + r.value.name + " : " + BoolText(r.value.isEU);
      } else {
        assert lines[j] == "<@" + id + ">" + ErrorSuffix;
      }
    }
    SplitJoin(lines);
  }
}
