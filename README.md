# Channel-argument resolution (mmctl `getChannelsFromArgs`)

mmctl, the Mattermost command-line tool, lets a command name channels either
by id (`4xp9fdt77pncbef59f4k1qe83o`) or as `team:channel-name`. The routine
`getChannelsFromArgs(client, args)` turns such a list into channel records by
asking the server, and returns two things: the channels it found and a
summary of the arguments that failed. The summary is absent (nil), not empty,
when nothing failed. When `GetChannel` fails on a bare channel id with HTTP
status 404 or 400, the failure is reported as `channel <arg> not found`
(commands/channelargs_test.go:25 and :41). Any other status keeps the
server's own error, rendered as `<where>: <message>, <detailed error>`. How a
failure on a `team:channel-name` argument is reported is one of the modelling
choices listed below.

The model follows the routine's unit test, `commands/channelargs_test.go`.
Its six cases each resolve a single argument; what they leave open is listed
below.

The project has three modules:

- `Remote` (`remote.dfy`): the server API as the routine sees it. `Channel`,
  `Team`, the structured `AppError` with its string form `Render`, and
  `Client`, an oracle of three total functions `getChannel(id, etag)`,
  `getTeam(id, etag)` and `getChannelByNameIncludeDeleted(name, teamId, etag)`.
  Each answers `Found(record)` or `Failed(appError)`. `Call` records one
  request with its arguments.
- `ChannelArgs` (`channelargs.dfy`): the resolver.
  - `SplitArg` splits an argument at its first `:`.
  - `Classify` maps a failed lookup to a `ResolutionError` whose `Error()`
    is its text.
  - `ResolveOne` resolves one argument and lists the requests it issues.
  - `Steps`, `Accumulate` and `ResolveAll` specify the whole routine.
  - `GetChannelFromArg` and `GetChannelsFromArgs` are the imperative
    versions, proved equal to the specification. The second one is a loop
    that appends to the channel sequence and to a summary that starts absent.
    The requests issued are returned as a ghost call log, which is how the
    model states the test's "called exactly once" (`Times(1)`) expectations.
- `ChannelArgsScenarios` (`scenarios.dfy`): the six test cases as lemmas, and
  one list that puts the not-found and the success stubs together. Each holds
  for every client whose lookups answer as those stubs do.

Some behaviour is not exercised by the test. The model fixes it as follows;
these are modelling choices, not facts taken from the source:

- An argument with several `:` is split at the first one.
- When `GetTeam` fails, the error is classified under the team part of the
  argument. When the by-name lookup fails, it is classified under the channel
  name. For a bare id, the whole argument is used.
- The by-name lookup is given the id of the team record that `GetTeam`
  returned. In the test this equals the team part of the argument.
- With several arguments, the channels keep the order of their arguments, and
  so do the errors.

## Model

| member | source | states |
|---|---|---|
| `ChannelArgs.SplitArg` | commands/channelargs_test.go:108 | an argument without `:` is a bare channel id, kept whole; otherwise it is `team + ":" + name` with a `:`-free team part |
| `ChannelArgs.SplitJoin` | commands/channelargs_test.go:108 | the argument `Sprintf("%v:%v", team, channel)` splits back into exactly that team and channel name |
| `ChannelArgs.Classify` | commands/channelargs_test.go:11-73 | a failure is "not found" exactly when its status is 404 or 400, and its text is then `"channel " + arg + " not found"`; for any other status the text is the server error's own rendering |
| `ChannelArgs.ResolutionError.Error` | commands/channelargs_test.go:25-73 | the text of one summary entry, the `summary.Errors[i].Error()` the test compares: `channel <ref> not found` for a not-found failure, the server error's rendering otherwise; its properties are stated by `Classify`, `LoneBareIdNotFound`, `LoneBareIdPassedThrough` and the scenario lemmas |
| `ChannelArgs.BadRequestIsNotFound` | commands/channelargs_test.go:27-41 | status 400 is classified exactly like status 404 |
| `ChannelArgs.OtherStatusPassesThrough` | commands/channelargs_test.go:43-73 | any status other than 400 and 404 keeps the server's error unchanged, whatever the argument, and its text is `Render` of that error |
| `ChannelArgs.ResolveOne` | commands/channelargs_test.go:15-106 | one argument issues one or two requests, all with an empty etag. A bare id issues exactly `GetChannel(id, "")` and never the team path. A team-qualified one starts with `GetTeam(team, "")` and issues the by-name lookup only second |
| `ChannelArgs.BareIdFound` | commands/channelargs_test.go:75-88 | a bare id that `GetChannel` finds resolves to the returned record, after exactly one `GetChannel(id, "")` |
| `ChannelArgs.BareIdFailed` | commands/channelargs_test.go:11-73 | a bare id that `GetChannel` fails on yields the failure classified under the id, after exactly one `GetChannel(id, "")` |
| `ChannelArgs.TeamQualifiedFound` | commands/channelargs_test.go:91-111 | `team:name` with both lookups succeeding yields the by-name record, after exactly `GetTeam(team, "")` then `GetChannelByNameIncludeDeleted(name, team.id, "")` |
| `ChannelArgs.TeamLookupFailed` | commands/channelargs_test.go:97-101 | modelling choice: a failed `GetTeam` is the only request and is classified under the team part |
| `ChannelArgs.ChannelByNameFailed` | commands/channelargs_test.go:102-106 | modelling choice: a failed by-name lookup comes after `GetTeam` and is classified under the channel name |
| `ChannelArgs.GetChannelFromArg` | commands/channelargs_test.go:15-106 | issuing the requests one after the other gives exactly the outcome and the request list that `ResolveOne` specifies |
| `ChannelArgs.Steps` | commands/channelargs_test.go:21 | the per-argument results line up one to one with the arguments |
| `ChannelArgs.Accumulate` | commands/channelargs_test.go:21-24 | collecting per-argument results: each found channel is appended to the channels, each failure to the errors, each argument's requests to the log; its properties are stated by `AccumulateOne`, `AccumulateConcat`, `AccumulateCounts`, `AccumulateNoErrorsIff`, `AccumulateAllResolved` and `AccumulateSingleCalls` (order across several arguments is a modelling choice) |
| `ChannelArgs.ResolveAll` | commands/channelargs_test.go:10-111 | the whole routine as a function of the client and the arguments; its properties are stated by `SingleArgument`, `EachArgumentContributes`, `ResolveAllAround`, `OneOutcomePerArgument`, `SummaryAbsentIffAllResolved` and `AllResolvedInOrder`, and `GetChannelsFromArgs` is proved equal to it |
| `ChannelArgs.Summarize` | commands/channelargs_test.go:84-88 | the summary is absent exactly when there are no errors, and otherwise holds exactly the errors |
| `ChannelArgs.AppendError` | commands/channelargs_test.go:21-24 | adding a failure to an absent summary creates one holding just that failure; adding to a present one appends it |
| `ChannelArgs.AccumulateOne` | commands/channelargs_test.go:21-24 | one argument's result gives its channel and no error, or its error and no channel, plus its requests |
| `ChannelArgs.AccumulateCounts` | commands/channelargs_test.go:21-24 | totals only: channels plus errors number exactly the steps, and when every step issued one or two requests the log holds between one and two requests per step |
| `ChannelArgs.AccumulateConcat` | commands/channelargs_test.go:21-24 | collecting two runs of per-argument results one after the other gives the concatenation of each run's channels, of its errors and of its requests (order across several arguments is a modelling choice; the test resolves one argument per case) |
| `ChannelArgs.ResolveAllAround` | commands/channelargs_test.go:21-24 | resolving a list is resolving the arguments before position i, then argument i alone, then those after it, concatenated field by field (order across several arguments is a modelling choice; the test resolves one argument per case) |
| `ChannelArgs.EachArgumentContributes` | commands/channelargs_test.go:21-24 | in any list, mixed or not, argument i adds exactly its channel and no error, or exactly its error and no channel, at its own place between the contributions of the arguments before and after it, and adds exactly its own requests (order across several arguments is a modelling choice; the test resolves one argument per case) |
| `ChannelArgs.TwoArguments` | commands/channelargs_test.go:21-24 | two arguments give the first one's channels, errors and requests followed by the second one's (order across several arguments is a modelling choice; the test resolves one argument per case) |
| `ChannelArgs.BareIdFailedThenFound` | commands/channelargs_test.go:11-88 | a failing bare id followed by a found one gives exactly the found channel, a summary of exactly the first one's classified error, and one `GetChannel` each, in order; a failure does not stop later lookups (order across several arguments is a modelling choice; the test resolves one argument per case) |
| `ChannelArgs.AccumulateNoErrorsIff` | commands/channelargs_test.go:84-88 | no error is collected exactly when every argument resolved |
| `ChannelArgs.AccumulateAllResolved` | commands/channelargs_test.go:84-88 | when every argument resolved, the channels are their records, in argument order (order across several arguments is a modelling choice; the test resolves one argument per case) |
| `ChannelArgs.AccumulateSingleCalls` | commands/channelargs_test.go:15-19 | when each argument issued one request, the call log is those requests, in argument order (order across several arguments is a modelling choice; the test resolves one argument per case) |
| `ChannelArgs.OneOutcomePerArgument` | commands/channelargs_test.go:21-24 | over any argument list, channels plus errors number exactly the arguments, and the requests number between one and two per argument |
| `ChannelArgs.SummaryAbsentIffAllResolved` | commands/channelargs_test.go:84-88 | the summary is nil exactly when every argument resolved, in both directions |
| `ChannelArgs.AllResolvedInOrder` | commands/channelargs_test.go:84-88 | when every argument resolves, there is one channel per argument, equal to the record its lookup returned (order across several arguments is a modelling choice) |
| `ChannelArgs.BareIdsCallGetChannelOnce` | commands/channelargs_test.go:15-19 | for bare ids, the call log is exactly one `GetChannel(arg, "")` per argument and nothing else (order across several arguments is a modelling choice; the test resolves one argument per case) |
| `ChannelArgs.SingleArgument` | commands/channelargs_test.go:21-24 | a single argument gives either one channel and no summary, or no channel and a summary of exactly its one error; never both, never neither |
| `ChannelArgs.LoneBareIdFailed` | commands/channelargs_test.go:11-24 | a lone bare id that fails gives no channel, a summary of exactly the classified error, and one `GetChannel` |
| `ChannelArgs.LoneBareIdNotFound` | commands/channelargs_test.go:11-41 | a lone bare id answered with 404 or 400 gives no channel and a non-nil summary of one error whose text is `"channel " + id + " not found"` |
| `ChannelArgs.LoneBareIdPassedThrough` | commands/channelargs_test.go:43-73 | a lone bare id answered with any other status gives no channel and a non-nil summary of one error whose text is the server error's rendering |
| `ChannelArgs.LoneBareIdFound` | commands/channelargs_test.go:75-88 | a lone bare id that is found gives a nil summary and exactly the returned record |
| `ChannelArgs.LoneTeamQualifiedFound` | commands/channelargs_test.go:91-111 | a lone `team:name` whose lookups succeed gives a nil summary, exactly the by-name record, and exactly one `GetTeam` and one by-name request |
| `ChannelArgs.GetChannelsFromArgs` | commands/channelargs_test.go:10-111 | the loop returns the channels, summary and call log of `ResolveAll`, and its summary is nil exactly when every argument resolved |
| `ChannelArgsScenarios.ChannelNotFound` | commands/channelargs_test.go:11-26 | case "channel not found": no channels, non-nil summary, one error reading `channel notfoundchannel not found`, one `GetChannel("notfoundchannel", "")` |
| `ChannelArgsScenarios.ChannelBadRequest` | commands/channelargs_test.go:27-42 | case "bad request": no channels, non-nil summary, one error reading `channel badrequest not found`, one `GetChannel` |
| `ChannelArgsScenarios.ForbiddenText` | commands/channelargs_test.go:57 | the 403 error with empty where and empty detail renders as `": channel forbidden, "` |
| `ChannelArgsScenarios.ChannelForbidden` | commands/channelargs_test.go:43-58 | case "forbidden": no channels, non-nil summary, one error reading `": channel forbidden, "`, one `GetChannel` |
| `ChannelArgsScenarios.InternalServerErrorText` | commands/channelargs_test.go:73 | the 500 error with empty where and empty detail renders as `": channel internalServerError, "` |
| `ChannelArgsScenarios.ChannelInternalServerError` | commands/channelargs_test.go:59-74 | case "internal server error": no channels, non-nil summary, one error reading `": channel internalServerError, "`, one `GetChannel` |
| `ChannelArgsScenarios.ChannelFound` | commands/channelargs_test.go:75-89 | case "success": nil summary, exactly the returned channel, one `GetChannel("success", "")` |
| `ChannelArgsScenarios.NotFoundThenFound` | commands/channelargs_test.go:11-89 | the not-found and the success stubs in one list (not a case of the test): `["notfoundchannel", "success"]` gives exactly the `success` channel, a non-nil summary of one error reading `channel notfoundchannel not found`, and the two `GetChannel` requests in order |
| `ChannelArgsScenarios.ChannelFoundInTeam` | commands/channelargs_test.go:91-111 | case "success with team on channel": `myTeamID:success` gives a nil summary and exactly the returned channel, after `GetTeam("myTeamID", "")` then `GetChannelByNameIncludeDeleted("success", "myTeamID", "")` |

## Left out

- The gomock expectations and the `MmctlUnitTestSuite` harness are replaced by the `Client` oracle and the call log. The requests are pure lookups, so the oracle answers the same request the same way every time.
- The HTTP client and the network are not modelled; each lookup is a total function of its arguments.
- `model.Response` is not modelled. The status code is read from the `AppError`, as the test's stubs carry it there and leave the response's own status zero.
- `model.Channel` and `model.Team` are kept as opaque records with a few string fields. The resolver never inspects a channel.
- The etag is always `""` (`Etag`). Conditional requests are not modelled.
- A lookup that returns neither a record nor an error cannot be expressed with `Reply`, so that case is not modelled.
- The text the summary renders as a whole (the multi-error report) is not modelled; only each error's `Error()` is.
- Validation of malformed arguments (an empty argument, an empty team or channel part) does not appear in the test. Such arguments go through the same split and lookups as any other.
- Any other way of finding the team (by name, say) is not exercised by the test. The model issues `GetTeam` only.
- `Remote.Render` has no contract of its own. What it produces is stated through the scenario lemmas `ForbiddenText` and `InternalServerErrorText` and through `Classify`.
