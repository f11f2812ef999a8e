/** The slice of the Mattermost server API that the channel-argument resolver
    consumes: the records it gets back, the structured error a failed request
    carries, and the three lookups of the client, modelled as an oracle. */
module Remote {

  /** HTTP status codes that occur in the resolver's behaviour. */
  const StatusBadRequest: int := 400
  const StatusForbidden: int := 403
  const StatusNotFound: int := 404
  const StatusInternalServerError: int := 500

  /** A channel record as the server returns it; opaque to the resolver. */
  datatype Channel = Channel(id: string, teamId: string, name: string)

  /** A team record as the server returns it. */
  datatype Team = Team(id: string, name: string)

  /** The server's structured error: where it arose, a message, a detailed
      message and the HTTP status code of the failed request. */
  datatype AppError = AppError(where: string, message: string, detailedError: string, statusCode: int)

  /** The error's own string form: "<where>: <message>, <detailed error>". */
  function Render(e: AppError): string
  {
    e.where + ": " + e.message + ", " + e.detailedError
  }

  /** What a lookup answers: the record, or the error of the failed request. */
  datatype Reply<T> = Found(record: T) | Failed(err: AppError)

  /** One request issued to the server, with the arguments it was issued with. */
  datatype Call =
    | GetChannelCall(channelId: string, etag: string)
    | GetTeamCall(teamId: string, etag: string)
    | GetChannelByNameCall(channelName: string, teamId: string, etag: string)

  /** The remote client: each lookup is a total function of its arguments
      (the last argument of each is the cache-validation etag). */
  datatype Client = Client(
    getChannel: (string, string) -> Reply<Channel>,
    getTeam: (string, string) -> Reply<Team>,
    getChannelByNameIncludeDeleted: (string, string, string) -> Reply<Channel>)
}
