/** The cases of TestGetChannelArgs, each stated for every client whose
    lookups answer as that case's stubs do. */
module ChannelArgsScenarios {
  import opened Remote
  import opened ChannelArgs

  /** GetChannel answers 404: no channel, one error "channel <id> not found". */
  lemma ChannelNotFound(client: Client)
    requires client.getChannel("notfoundchannel", "")
          == Failed(AppError("", "channel not found", "", StatusNotFound))
    ensures var r := ResolveAll(client, ["notfoundchannel"]);
      && r.channels == []
      && Summarize(r.errors).Some? && |r.errors| == 1
      && r.errors[0].Error() == "channel " + "notfoundchannel" + " not found"
      && r.calls == [GetChannelCall("notfoundchannel", "")]
  {
    LoneBareIdNotFound(client, "notfoundchannel", AppError("", "channel not found", "", StatusNotFound));
  }

  /** GetChannel answers 400: reported exactly like not found. */
  lemma ChannelBadRequest(client: Client)
    requires client.getChannel("badrequest", "")
          == Failed(AppError("", "channel bad request", "", StatusBadRequest))
    ensures var r := ResolveAll(client, ["badrequest"]);
      && r.channels == []
      && Summarize(r.errors).Some? && |r.errors| == 1
      && r.errors[0].Error() == "channel " + "badrequest" + " not found"
      && r.calls == [GetChannelCall("badrequest", "")]
  {
    LoneBareIdNotFound(client, "badrequest", AppError("", "channel bad request", "", StatusBadRequest));
  }

  /** The forbidden error's own text: empty where, the message, empty detail. */
  lemma ForbiddenText()
    ensures Render(AppError("", "channel forbidden", "", StatusForbidden)) == ": channel forbidden, "
  {
  }

  /** GetChannel answers 403: the server's error is passed through verbatim. */
  lemma ChannelForbidden(client: Client)
    requires client.getChannel("forbidden", "")
          == Failed(AppError("", "channel forbidden", "", StatusForbidden))
    ensures var r := ResolveAll(client, ["forbidden"]);
      && r.channels == []
      && Summarize(r.errors).Some? && |r.errors| == 1
      && r.errors[0].Error() == ": channel forbidden, "
      && r.calls == [GetChannelCall("forbidden", "")]
  {
    LoneBareIdPassedThrough(client, "forbidden", AppError("", "channel forbidden", "", StatusForbidden));
    ForbiddenText();
  }

  /** The internal server error's own text: empty where, the message, empty detail. */
  lemma InternalServerErrorText()
    ensures Render(AppError("", "channel internalServerError", "", StatusInternalServerError))
         == ": channel internalServerError, "
  {
  }

  /** GetChannel answers 500: the server's error is passed through verbatim. */
  lemma ChannelInternalServerError(client: Client)
    requires client.getChannel("internalServerError", "")
          == Failed(AppError("", "channel internalServerError", "", StatusInternalServerError))
    ensures var r := ResolveAll(client, ["internalServerError"]);
      && r.channels == []
      && Summarize(r.errors).Some? && |r.errors| == 1
      && r.errors[0].Error() == ": channel internalServerError, "
      && r.calls == [GetChannelCall("internalServerError", "")]
  {
    LoneBareIdPassedThrough(client, "internalServerError",
                            AppError("", "channel internalServerError", "", StatusInternalServerError));
    InternalServerErrorText();
  }

  /** GetChannel finds the channel: that record alone, and no summary. */
  lemma ChannelFound(client: Client)
    requires client.getChannel("success", "") == Found(Channel("success", "", ""))
    ensures var r := ResolveAll(client, ["success"]);
      && r.channels == [Channel("success", "", "")]
      && Summarize(r.errors) == None
      && r.calls == [GetChannelCall("success", "")]
  {
    LoneBareIdFound(client, "success", Channel("success", "", ""));
  }

  /** "myTeamID:success": one GetTeam, one by-name lookup in that team, and the
      channel found, with no summary. */
  lemma ChannelFoundInTeam(client: Client)
    requires client.getTeam("myTeamID", "") == Found(Team("myTeamID", ""))
    requires client.getChannelByNameIncludeDeleted("success", "myTeamID", "") == Found(Channel("success", "", ""))
    ensures var r := ResolveAll(client, ["myTeamID:success"]);
      && r.channels == [Channel("success", "", "")]
      && Summarize(r.errors) == None
      && r.calls == [GetTeamCall("myTeamID", ""), GetChannelByNameCall("success", "myTeamID", "")]
  {
    assert "myTeamID:success" == "myTeamID" + ":" + "success";
    LoneTeamQualifiedFound(client, "myTeamID", "success", Team("myTeamID", ""), Channel("success", "", ""));
  }

  /** The not-found and the success stubs together, in one list: the failure
      does not stop the lookup after it, which still yields its channel. */
  lemma NotFoundThenFound(client: Client)
    requires client.getChannel("notfoundchannel", "")
          == Failed(AppError("", "channel not found", "", StatusNotFound))
    requires client.getChannel("success", "") == Found(Channel("success", "", ""))
    ensures var r := ResolveAll(client, ["notfoundchannel", "success"]);
      && r.channels == [Channel("success", "", "")]
      && Summarize(r.errors).Some? && |r.errors| == 1
      && r.errors[0].Error() == "channel " + "notfoundchannel" + " not found"
      && r.calls == [GetChannelCall("notfoundchannel", ""), GetChannelCall("success", "")]
  {
    var e := AppError("", "channel not found", "", StatusNotFound);
    BareIdFailedThenFound(client, "notfoundchannel", e, "success", Channel("success", "", ""));
    assert Classify("notfoundchannel", e).NotFound?;
  }
}
