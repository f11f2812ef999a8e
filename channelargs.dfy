/** Resolution of channel arguments given on the command line (mmctl's
    getChannelsFromArgs). Each argument is a bare channel id or a
    "<team>:<channel name>" pair; each is looked up through the remote client,
    and the result is the channels found plus a summary of the failures, which
    is absent when nothing failed. */
module ChannelArgs {
  import opened Remote

  /** Every lookup is unconditional: the etag passed is always empty. */
  const Etag: string := ""

  /** The status codes a failed lookup reports as "not found". */
  const NotFoundStatuses: set<int> := {StatusBadRequest, StatusNotFound}

  datatype Option<T> = None | Some(value: T)

  // ---------------------------------------------------------------------------
  // Splitting an argument
  // ---------------------------------------------------------------------------

  /** How an argument addresses a channel. */
  datatype ChannelRef = Plain(channelId: string) | TeamQualified(team: string, channelName: string)

  /** The index of the first ':' in s, or |s| when there is none. */
  function ColonIndex(s: string): (i: nat)
    ensures i <= |s|
    ensures forall j :: 0 <= j < i ==> s[j] != ':'
    ensures i < |s| ==> s[i] == ':'
  {
    if s == [] || s[0] == ':' then 0 else 1 + ColonIndex(s[1..])
  }

  /** An argument without ':' is a channel id; otherwise the text before the
      first ':' names the team and the rest is the channel name. */
  function SplitArg(arg: string): (r: ChannelRef)
    ensures r.Plain? <==> ':' !in arg
    ensures r.Plain? ==> r.channelId == arg
    ensures r.TeamQualified? ==> ':' !in r.team && arg == r.team + ":" + r.channelName
  {
    var i := ColonIndex(arg);
    if i == |arg| then
      Plain(arg)
    else
      assert arg == arg[..i] + ":" + arg[i + 1..] by {
        assert arg == arg[..i] + [arg[i]] + arg[i + 1..];
      }
      TeamQualified(arg[..i], arg[i + 1..])
  }

  /** The first ':' of "<team>:<name>" is the one after a ':'-free team. */
  lemma {:induction false} ColonIndexAfterTeam(team: string, channelName: string)
    requires ':' !in team
    ensures ColonIndex(team + ":" + channelName) == |team|
  {
    if team != [] {
      assert (team + ":" + channelName)[1..] == team[1..] + ":" + channelName;
      ColonIndexAfterTeam(team[1..], channelName);
    }
  }

  /** Joining a ':'-free team and a channel name with ':' splits back into them. */
  lemma SplitJoin(team: string, channelName: string)
    requires ':' !in team
    ensures SplitArg(team + ":" + channelName) == TeamQualified(team, channelName)
  {
    var arg := team + ":" + channelName;
    ColonIndexAfterTeam(team, channelName);
    assert arg[..|team|] == team;
    assert arg[|team| + 1..] == channelName;
  }

  // ---------------------------------------------------------------------------
  // Classifying a failed lookup
  // ---------------------------------------------------------------------------

  /** One failed argument, as it appears in the summary. */
  datatype ResolutionError = NotFound(ref: string) | Passthrough(cause: AppError) {
    /** The error's text. */
    function Error(): string {
      match this
      case NotFound(ref) => "channel " + ref + " not found"
      case Passthrough(cause) => Render(cause)
    }
  }

  /** Status 404 and 400 become "channel <ref> not found"; any other status
      keeps the server's error, rendered verbatim. */
  function Classify(ref: string, e: AppError): (r: ResolutionError)
    ensures r.NotFound? <==> (e.statusCode == StatusNotFound || e.statusCode == StatusBadRequest)
    ensures r.NotFound? ==> r.Error() == "channel " + ref + " not found"
    ensures r.Passthrough? ==> r.Error() == Render(e)
  {
    if e.statusCode in NotFoundStatuses then NotFound(ref) else Passthrough(e)
  }

  /** Bad request and not found are indistinguishable to the caller. */
  lemma BadRequestIsNotFound(ref: string, badRequest: AppError, notFound: AppError)
    requires badRequest.statusCode == StatusBadRequest
    requires notFound.statusCode == StatusNotFound
    ensures Classify(ref, badRequest) == Classify(ref, notFound) == NotFound(ref)
  {
  }

  /** Any other status passes the server's error through, whatever the argument. */
  lemma OtherStatusPassesThrough(ref1: string, ref2: string, e: AppError)
    requires e.statusCode !in NotFoundStatuses
    ensures Classify(ref1, e) == Classify(ref2, e) == Passthrough(e)
    ensures Classify(ref1, e).Error() == Render(e)
  {
  }

  // ---------------------------------------------------------------------------
  // Resolving one argument
  // ---------------------------------------------------------------------------

  /** What became of one argument. */
  datatype Outcome = Resolved(channel: Channel) | Unresolved(error: ResolutionError)

  /** The outcome of one argument and the requests issued for it, in order. */
  datatype Step = Step(outcome: Outcome, calls: seq<Call>)

  /** Resolves one argument: a bare id with GetChannel; a team-qualified one
      with GetTeam and then, if the team was found, by channel name within
      that team. */
  function ResolveOne(client: Client, arg: string): (s: Step)
    ensures |s.calls| == 1 || (|s.calls| == 2 && s.calls[0].GetTeamCall? && s.calls[1].GetChannelByNameCall?)
    ensures ':' !in arg ==> s.calls == [GetChannelCall(arg, Etag)]
    ensures ':' in arg ==> s.calls[0] == GetTeamCall(SplitArg(arg).team, Etag)
    ensures forall k :: 0 <= k < |s.calls| ==> s.calls[k].etag == Etag
  {
    match SplitArg(arg)
    case Plain(id) =>
      var calls := [GetChannelCall(id, Etag)];
      (match client.getChannel(id, Etag)
       case Found(ch) => Step(Resolved(ch), calls)
       case Failed(e) => Step(Unresolved(Classify(arg, e)), calls))
    case TeamQualified(teamArg, channelName) =>
      match client.getTeam(teamArg, Etag)
      case Failed(e) => Step(Unresolved(Classify(teamArg, e)), [GetTeamCall(teamArg, Etag)])
      case Found(team) =>
        var calls := [GetTeamCall(teamArg, Etag), GetChannelByNameCall(channelName, team.id, Etag)];
        match client.getChannelByNameIncludeDeleted(channelName, team.id, Etag)
        case Found(ch) => Step(Resolved(ch), calls)
        case Failed(e) => Step(Unresolved(Classify(channelName, e)), calls)
  }

  /** A bare id that GetChannel finds resolves to that record, with one request. */
  lemma BareIdFound(client: Client, id: string, ch: Channel)
    requires ':' !in id
    requires client.getChannel(id, Etag) == Found(ch)
    ensures ResolveOne(client, id) == Step(Resolved(ch), [GetChannelCall(id, Etag)])
  {
  }

  /** A bare id that GetChannel fails on is classified under the id itself. */
  lemma BareIdFailed(client: Client, id: string, e: AppError)
    requires ':' !in id
    requires client.getChannel(id, Etag) == Failed(e)
    ensures ResolveOne(client, id) == Step(Unresolved(Classify(id, e)), [GetChannelCall(id, Etag)])
  {
  }

  /** "<team>:<name>" with both lookups succeeding resolves to the channel found
      by name, after exactly one GetTeam and one by-name request. */
  lemma TeamQualifiedFound(client: Client, teamArg: string, channelName: string, team: Team, ch: Channel)
    requires ':' !in teamArg
    requires client.getTeam(teamArg, Etag) == Found(team)
    requires client.getChannelByNameIncludeDeleted(channelName, team.id, Etag) == Found(ch)
    ensures ResolveOne(client, teamArg + ":" + channelName)
         == Step(Resolved(ch), [GetTeamCall(teamArg, Etag), GetChannelByNameCall(channelName, team.id, Etag)])
  {
    SplitJoin(teamArg, channelName);
  }

  /** A failed team lookup is the only request, and is classified under the team. */
  lemma TeamLookupFailed(client: Client, teamArg: string, channelName: string, e: AppError)
    requires ':' !in teamArg
    requires client.getTeam(teamArg, Etag) == Failed(e)
    ensures ResolveOne(client, teamArg + ":" + channelName)
         == Step(Unresolved(Classify(teamArg, e)), [GetTeamCall(teamArg, Etag)])
  {
    SplitJoin(teamArg, channelName);
  }

  /** A failed by-name lookup is classified under the channel name. */
  lemma ChannelByNameFailed(client: Client, teamArg: string, channelName: string, team: Team, e: AppError)
    requires ':' !in teamArg
    requires client.getTeam(teamArg, Etag) == Found(team)
    requires client.getChannelByNameIncludeDeleted(channelName, team.id, Etag) == Failed(e)
    ensures ResolveOne(client, teamArg + ":" + channelName)
         == Step(Unresolved(Classify(channelName, e)),
                 [GetTeamCall(teamArg, Etag), GetChannelByNameCall(channelName, team.id, Etag)])
  {
    SplitJoin(teamArg, channelName);
  }

  /** Resolves one argument by issuing its requests one after the other. */
  method GetChannelFromArg(client: Client, arg: string) returns (outcome: Outcome, ghost calls: seq<Call>)
    ensures outcome == ResolveOne(client, arg).outcome
    ensures calls == ResolveOne(client, arg).calls
  {
    var ref := SplitArg(arg);
    if ref.Plain? {
      calls := [GetChannelCall(ref.channelId, Etag)];
      var reply := client.getChannel(ref.channelId, Etag);
      if reply.Found? {
        outcome := Resolved(reply.record);
      } else {
        outcome := Unresolved(Classify(arg, reply.err));
      }
      return;
    }
    calls := [GetTeamCall(ref.team, Etag)];
    var teamReply := client.getTeam(ref.team, Etag);
    if teamReply.Failed? {
      outcome := Unresolved(Classify(ref.team, teamReply.err));
      return;
    }
    var team := teamReply.record;
    calls := calls + [GetChannelByNameCall(ref.channelName, team.id, Etag)];
    var reply := client.getChannelByNameIncludeDeleted(ref.channelName, team.id, Etag);
    if reply.Found? {
      outcome := Resolved(reply.record);
    } else {
      outcome := Unresolved(Classify(ref.channelName, reply.err));
    }
  }

  // ---------------------------------------------------------------------------
  // Resolving all arguments
  // ---------------------------------------------------------------------------

  /** The failures, in the form the caller receives them. */
  datatype Summary = Summary(errors: seq<ResolutionError>)

  /** The channels found, the failures and the requests issued, each in input order. */
  datatype Resolution = Resolution(channels: seq<Channel>, errors: seq<ResolutionError>, calls: seq<Call>)

  /** The step of each argument, in argument order. */
  function Steps(client: Client, args: seq<string>): (steps: seq<Step>)
    ensures |steps| == |args|
    ensures forall i :: 0 <= i < |args| ==> steps[i] == ResolveOne(client, args[i])
    decreases |args|
  {
    if args == [] then
      []
    else
      var init := args[..|args| - 1];
      assert forall i :: 0 <= i < |init| ==> init[i] == args[i];
      Steps(client, init) + [ResolveOne(client, args[|args| - 1])]
  }

  /** Collects the steps in order: each found channel is appended to the
      channels, each failure to the errors, and each step's requests to the
      requests issued. */
  function Accumulate(steps: seq<Step>): Resolution
    decreases |steps|
  {
    if steps == [] then
      Resolution([], [], [])
    else
      var prev := Accumulate(steps[..|steps| - 1]);
      var step := steps[|steps| - 1];
      match step.outcome
      case Resolved(ch) => Resolution(prev.channels + [ch], prev.errors, prev.calls + step.calls)
      case Unresolved(err) => Resolution(prev.channels, prev.errors + [err], prev.calls + step.calls)
  }

  /** Resolves every argument in turn; a failure never stops the rest. */
  function ResolveAll(client: Client, args: seq<string>): Resolution {
    Accumulate(Steps(client, args))
  }

  /** No summary at all when nothing failed, never an empty one. */
  function Summarize(errors: seq<ResolutionError>): (s: Option<Summary>)
    ensures s.None? <==> errors == []
    ensures s.Some? ==> s.value.errors == errors
  {
    if errors == [] then None else Some(Summary(errors))
  }

  /** Adds a failure to a possibly absent summary, creating it on the first one. */
  function AppendError(summary: Option<Summary>, err: ResolutionError): (r: Option<Summary>)
    ensures r.Some?
    ensures summary.None? ==> r.value.errors == [err]
    ensures summary.Some? ==> r.value.errors == summary.value.errors + [err]
  {
    match summary
    case None => Some(Summary([err]))
    case Some(s) => Some(Summary(s.errors + [err]))
  }

  /** Totals: channels plus errors number the steps, and steps of one or two
      requests give between one and two requests per step. */
  lemma {:induction false} AccumulateCounts(steps: seq<Step>)
    ensures |Accumulate(steps).channels| + |Accumulate(steps).errors| == |steps|
    ensures (forall i :: 0 <= i < |steps| ==> 1 <= |steps[i].calls| <= 2) ==>
      |steps| <= |Accumulate(steps).calls| <= 2 * |steps|
  {
    if steps != [] {
      var init := steps[..|steps| - 1];
      AccumulateCounts(init);
      assert forall i :: 0 <= i < |init| ==> init[i] == steps[i];
    }
  }

  /** No error is collected exactly when every step resolved. */
  lemma {:induction false} AccumulateNoErrorsIff(steps: seq<Step>)
    ensures Accumulate(steps).errors == [] <==> forall i :: 0 <= i < |steps| ==> steps[i].outcome.Resolved?
  {
    if steps != [] {
      var init := steps[..|steps| - 1];
      AccumulateNoErrorsIff(init);
      assert forall i :: 0 <= i < |init| ==> init[i] == steps[i];
    }
  }

  /** When every step resolved, the channels are theirs, in step order. */
  lemma {:induction false} AccumulateAllResolved(steps: seq<Step>)
    requires forall i :: 0 <= i < |steps| ==> steps[i].outcome.Resolved?
    ensures |Accumulate(steps).channels| == |steps|
    ensures forall i :: 0 <= i < |steps| ==> Resolved(Accumulate(steps).channels[i]) == steps[i].outcome
  {
    if steps != [] {
      var init := steps[..|steps| - 1];
      assert forall i :: 0 <= i < |init| ==> init[i] == steps[i];
      AccumulateAllResolved(init);
    }
  }

  /** When every step issued one request, the requests are theirs, in step order. */
  lemma {:induction false} AccumulateSingleCalls(steps: seq<Step>)
    requires forall i :: 0 <= i < |steps| ==> |steps[i].calls| == 1
    ensures |Accumulate(steps).calls| == |steps|
    ensures forall i :: 0 <= i < |steps| ==> Accumulate(steps).calls[i] == steps[i].calls[0]
  {
    if steps != [] {
      var init := steps[..|steps| - 1];
      assert forall i :: 0 <= i < |init| ==> init[i] == steps[i];
      AccumulateSingleCalls(init);
    }
  }

  /** A single step gives its channel or its error, and its requests. */
  lemma AccumulateOne(step: Step)
    ensures Accumulate([step]).calls == step.calls
    ensures match step.outcome
      case Resolved(ch) => Accumulate([step]).channels == [ch] && Accumulate([step]).errors == []
      case Unresolved(err) => Accumulate([step]).channels == [] && Accumulate([step]).errors == [err]
  {
    assert [step][..0] == [];
    assert [] + step.calls == step.calls;
    match step.outcome
    case Resolved(ch) =>
      assert [] + [ch] == [ch];
    case Unresolved(err) =>
      assert [] + [err] == [err];
  }

  /** Collecting two runs of steps one after the other is collecting each and
      concatenating the channels, the errors and the requests. */
  lemma {:induction false} AccumulateConcat(s: seq<Step>, t: seq<Step>)
    ensures Accumulate(s + t).channels == Accumulate(s).channels + Accumulate(t).channels
    ensures Accumulate(s + t).errors == Accumulate(s).errors + Accumulate(t).errors
    ensures Accumulate(s + t).calls == Accumulate(s).calls + Accumulate(t).calls
    decreases |t|
  {
    if t == [] {
      assert s + t == s;
    } else {
      var init := t[..|t| - 1];
      assert (s + t)[..|s + t| - 1] == s + init;
      assert (s + t)[|s + t| - 1] == t[|t| - 1];
      AccumulateConcat(s, init);
    }
  }

  /** The steps of two lists one after the other are the steps of their
      concatenation. */
  lemma StepsConcat(client: Client, a: seq<string>, b: seq<string>)
    ensures Steps(client, a + b) == Steps(client, a) + Steps(client, b)
  {
    var l, r := Steps(client, a + b), Steps(client, a) + Steps(client, b);
    assert |l| == |r|;
    forall k | 0 <= k < |l|
      ensures l[k] == r[k]
    {
      if k < |a| {
        assert (a + b)[k] == a[k];
      } else {
        assert (a + b)[k] == b[k - |a|];
      }
    }
  }

  /** Resolving a list is resolving the arguments before position i, then
      argument i alone, then those after it: each argument contributes its own
      channel or error and its own requests, at its own place. */
  lemma ResolveAllAround(client: Client, args: seq<string>, i: nat)
    requires i < |args|
    ensures var r, before, here, after :=
        ResolveAll(client, args), ResolveAll(client, args[..i]),
        ResolveAll(client, [args[i]]), ResolveAll(client, args[i + 1..]);
      && r.channels == before.channels + here.channels + after.channels
      && r.errors == before.errors + here.errors + after.errors
      && r.calls == before.calls + here.calls + after.calls
  {
    assert args == args[..i] + [args[i]] + args[i + 1..];
    StepsConcat(client, args[..i] + [args[i]], args[i + 1..]);
    StepsConcat(client, args[..i], [args[i]]);
    AccumulateConcat(Steps(client, args[..i] + [args[i]]), Steps(client, args[i + 1..]));
    AccumulateConcat(Steps(client, args[..i]), Steps(client, [args[i]]));
  }

  /** In any list, argument i adds its channel and no error, or its error and
      no channel, between what the arguments before and after it add. */
  lemma EachArgumentContributes(client: Client, args: seq<string>, i: nat)
    requires i < |args|
    ensures var r, before, after :=
        ResolveAll(client, args), ResolveAll(client, args[..i]), ResolveAll(client, args[i + 1..]);
      && r.calls == before.calls + ResolveOne(client, args[i]).calls + after.calls
      && match ResolveOne(client, args[i]).outcome
         case Resolved(ch) =>
           r.channels == before.channels + [ch] + after.channels && r.errors == before.errors + after.errors
         case Unresolved(err) =>
           r.channels == before.channels + after.channels && r.errors == before.errors + [err] + after.errors
  {
    ResolveAllAround(client, args, i);
    SingleArgument(client, args[i]);
    var step := ResolveOne(client, args[i]);
    var before, after := ResolveAll(client, args[..i]), ResolveAll(client, args[i + 1..]);
    match step.outcome
    case Resolved(ch) =>
      assert ResolveAll(client, [args[i]]).errors == [];
      assert before.errors + [] == before.errors;
    case Unresolved(err) =>
      assert ResolveAll(client, [args[i]]).channels == [];
      assert before.channels + [] == before.channels;
  }

  /** Two arguments: the first one's channels, errors and requests, then the
      second one's. */
  lemma TwoArguments(client: Client, first: string, second: string)
    ensures var r, a, b := ResolveAll(client, [first, second]), ResolveAll(client, [first]), ResolveAll(client, [second]);
      && r.channels == a.channels + b.channels
      && r.errors == a.errors + b.errors
      && r.calls == a.calls + b.calls
  {
    assert [first, second] == [first] + [second];
    StepsConcat(client, [first], [second]);
    AccumulateConcat(Steps(client, [first]), Steps(client, [second]));
  }

  /** Totals: channels plus errors number the arguments, and the requests
      number between one and two per argument. */
  lemma OneOutcomePerArgument(client: Client, args: seq<string>)
    ensures |ResolveAll(client, args).channels| + |ResolveAll(client, args).errors| == |args|
    ensures |args| <= |ResolveAll(client, args).calls| <= 2 * |args|
  {
    AccumulateCounts(Steps(client, args));
  }

  /** The summary is absent exactly when every argument resolved. */
  lemma SummaryAbsentIffAllResolved(client: Client, args: seq<string>)
    ensures Summarize(ResolveAll(client, args).errors).None?
        <==> forall i :: 0 <= i < |args| ==> ResolveOne(client, args[i]).outcome.Resolved?
  {
    AccumulateNoErrorsIff(Steps(client, args));
  }

  /** When every argument resolves, the channels are their records, one per
      argument and in argument order. */
  lemma AllResolvedInOrder(client: Client, args: seq<string>)
    requires forall i :: 0 <= i < |args| ==> ResolveOne(client, args[i]).outcome.Resolved?
    ensures |ResolveAll(client, args).channels| == |args|
    ensures forall i :: 0 <= i < |args| ==>
      Resolved(ResolveAll(client, args).channels[i]) == ResolveOne(client, args[i]).outcome
  {
    AccumulateAllResolved(Steps(client, args));
  }

  /** Bare ids issue exactly one GetChannel each, in argument order, and never
      touch the team lookups. */
  lemma BareIdsCallGetChannelOnce(client: Client, args: seq<string>)
    requires forall i :: 0 <= i < |args| ==> ':' !in args[i]
    ensures |ResolveAll(client, args).calls| == |args|
    ensures forall i :: 0 <= i < |args| ==> ResolveAll(client, args).calls[i] == GetChannelCall(args[i], Etag)
  {
    AccumulateSingleCalls(Steps(client, args));
  }

  /** A single argument gives either one channel and no summary, or no channel
      and a summary of one error; never both, never neither. */
  lemma SingleArgument(client: Client, arg: string)
    ensures var r := ResolveAll(client, [arg]);
      && r.calls == ResolveOne(client, arg).calls
      && match ResolveOne(client, arg).outcome
         case Resolved(ch) => r.channels == [ch] && Summarize(r.errors) == None
         case Unresolved(err) => r.channels == [] && Summarize(r.errors) == Some(Summary([err]))
  {
    assert Steps(client, [arg]) == [ResolveOne(client, arg)];
    AccumulateOne(ResolveOne(client, arg));
  }

  /** A lone bare id that GetChannel fails on gives no channel and a summary
      of exactly the classified error, after one GetChannel. */
  lemma LoneBareIdFailed(client: Client, id: string, e: AppError)
    requires ':' !in id
    requires client.getChannel(id, Etag) == Failed(e)
    ensures var r := ResolveAll(client, [id]);
      && r.channels == []
      && Summarize(r.errors) == Some(Summary([Classify(id, e)]))
      && r.calls == [GetChannelCall(id, Etag)]
  {
    BareIdFailed(client, id, e);
    SingleArgument(client, id);
    assert [] + [GetChannelCall(id, Etag)] == [GetChannelCall(id, Etag)];
  }

  /** A lone bare id that GetChannel answers with 404 or 400: no channel, and a
      summary of one error reading "channel <id> not found". */
  lemma LoneBareIdNotFound(client: Client, id: string, e: AppError)
    requires ':' !in id
    requires client.getChannel(id, Etag) == Failed(e)
    requires e.statusCode == StatusNotFound || e.statusCode == StatusBadRequest
    ensures ResolveAll(client, [id]).channels == []
    ensures Summarize(ResolveAll(client, [id]).errors).Some?
    ensures |ResolveAll(client, [id]).errors| == 1
    ensures ResolveAll(client, [id]).errors[0].Error() == "channel " + id + " not found"
    ensures ResolveAll(client, [id]).calls == [GetChannelCall(id, Etag)]
  {
    LoneBareIdFailed(client, id, e);
  }

  /** A lone bare id that GetChannel answers with any other status: no
      channel, and a summary of one error whose text is the server's own. */
  lemma LoneBareIdPassedThrough(client: Client, id: string, e: AppError)
    requires ':' !in id
    requires client.getChannel(id, Etag) == Failed(e)
    requires e.statusCode != StatusNotFound && e.statusCode != StatusBadRequest
    ensures ResolveAll(client, [id]).channels == []
    ensures Summarize(ResolveAll(client, [id]).errors).Some?
    ensures |ResolveAll(client, [id]).errors| == 1
    ensures ResolveAll(client, [id]).errors[0].Error() == Render(e)
    ensures ResolveAll(client, [id]).calls == [GetChannelCall(id, Etag)]
  {
    LoneBareIdFailed(client, id, e);
  }

  /** A lone bare id that GetChannel finds gives that record alone and no
      summary, after one GetChannel. */
  lemma LoneBareIdFound(client: Client, id: string, ch: Channel)
    requires ':' !in id
    requires client.getChannel(id, Etag) == Found(ch)
    ensures var r := ResolveAll(client, [id]);
      && r.channels == [ch]
      && Summarize(r.errors) == None
      && r.calls == [GetChannelCall(id, Etag)]
  {
    BareIdFound(client, id, ch);
    SingleArgument(client, id);
    assert [] + [GetChannelCall(id, Etag)] == [GetChannelCall(id, Etag)];
  }

  /** A lone "<team>:<name>" whose lookups both succeed gives the channel found
      by name alone and no summary, after one GetTeam and one by-name lookup. */
  lemma LoneTeamQualifiedFound(client: Client, teamArg: string, channelName: string, team: Team, ch: Channel)
    requires ':' !in teamArg
    requires client.getTeam(teamArg, Etag) == Found(team)
    requires client.getChannelByNameIncludeDeleted(channelName, team.id, Etag) == Found(ch)
    ensures var r := ResolveAll(client, [teamArg + ":" + channelName]);
      && r.channels == [ch]
      && Summarize(r.errors) == None
      && r.calls == [GetTeamCall(teamArg, Etag), GetChannelByNameCall(channelName, team.id, Etag)]
  {
    TeamQualifiedFound(client, teamArg, channelName, team, ch);
    SingleArgument(client, teamArg + ":" + channelName);
    var calls := [GetTeamCall(teamArg, Etag), GetChannelByNameCall(channelName, team.id, Etag)];
    assert [] + calls == calls;
  }

  /** A bare id that fails followed by one that is found: the failure is
      collected and does not stop the second lookup, whose channel is kept. */
  lemma BareIdFailedThenFound(client: Client, failing: string, e: AppError, found: string, ch: Channel)
    requires ':' !in failing && ':' !in found
    requires client.getChannel(failing, Etag) == Failed(e)
    requires client.getChannel(found, Etag) == Found(ch)
    ensures var r := ResolveAll(client, [failing, found]);
      && r.channels == [ch]
      && Summarize(r.errors) == Some(Summary([Classify(failing, e)]))
      && r.calls == [GetChannelCall(failing, Etag), GetChannelCall(found, Etag)]
  {
    LoneBareIdFailed(client, failing, e);
    LoneBareIdFound(client, found, ch);
    TwoArguments(client, failing, found);
    assert [] + [ch] == [ch];
    assert [Classify(failing, e)] + [] == [Classify(failing, e)];
  }

  /** Resolves the arguments one by one, collecting the channels found and a
      summary of the failures that is created at the first failure. */
  method GetChannelsFromArgs(client: Client, args: seq<string>)
    returns (channels: seq<Channel>, summary: Option<Summary>, ghost calls: seq<Call>)
    ensures channels == ResolveAll(client, args).channels
    ensures summary == Summarize(ResolveAll(client, args).errors)
    ensures calls == ResolveAll(client, args).calls
    ensures summary.None? <==> forall i :: 0 <= i < |args| ==> ResolveOne(client, args[i]).outcome.Resolved?
  {
    channels, summary, calls := [], None, [];
    ghost var errors: seq<ResolutionError> := [];
    for i := 0 to |args|
      invariant channels == ResolveAll(client, args[..i]).channels
      invariant errors == ResolveAll(client, args[..i]).errors
      invariant calls == ResolveAll(client, args[..i]).calls
      invariant summary == Summarize(errors)
    {
      ghost var prefix := Steps(client, args[..i]);
      ghost var step := ResolveOne(client, args[i]);
      assert args[..i + 1][..i] == args[..i];
      assert Steps(client, args[..i + 1]) == prefix + [step];
      assert (prefix + [step])[..i] == prefix;
      var outcome, argCalls := GetChannelFromArg(client, args[i]);
      calls := calls + argCalls;
      match outcome
      case Resolved(ch) =>
        channels := channels + [ch];
      case Unresolved(err) =>
        summary := AppendError(summary, err);
        assert errors == [] ==> errors + [err] == [err];
        errors := errors + [err];
    }
    assert args[..|args|] == args;
    SummaryAbsentIffAllResolved(client, args);
  }
}
