/** Values shared by every part of the bot: configuration settings, the
    commands the bot sends over its ServerQuery connection, and the
    exceptions its own code can raise. */
module Common {

  datatype Option<T> = None | Some(value: T)

  datatype Result<T> = Ok(value: T) | Err(failure: Failure)

  /** A client id as the server reports it (`clid`), always a string. */
  type ClientId = string

  /** A scalar value of the YAML configuration file. */
  datatype Setting = Num(n: int) | Text(s: string)

  /** One top-level section of the configuration file (`TS3Server`,
      `Logging` or `Actions`): a mapping from key to setting. */
  type Section = map<string, Setting>

  /** The exceptions the bot's own code raises. */
  datatype Failure =
    | KeyError(key: string)        // `d[key]` on a dict without `key`
    | IndexError                   // `parsed[0]` of an empty response
    | TypeError                    // `int >= str` in the threshold test
    | QueryError(clid: ClientId)   // the server rejected `clientinfo`

  /** The ServerQuery commands the bot sends, as recorded on the
      connection's trace. */
  datatype Command =
    | BanClient(clid: ClientId, time: Setting, reason: Setting)
    | ClientKick(clid: ClientId, reasonId: int, reason: Setting)
    | ClientList
    | ClientInfo(clid: ClientId)
    | ServerNotifyRegister
    | SendKeepalive
    | WaitForEvent(timeout: int)
    | Close

  /** What a piece of the bot did to the connection: the commands it sent,
      in order, and the exception it raised after sending them, if any. */
  datatype Exec = Exec(issued: seq<Command>, raised: Option<Failure>)

  /** `dict.get(key)`: the value, or `None` when the key is absent. */
  function Get<K, V>(m: map<K, V>, key: K): (r: Option<V>)
    ensures r.Some? <==> key in m
    ensures r.Some? ==> r.value == m[key]
  {
    if key in m then Some(m[key]) else None
  }

  /** A command that removes a client from the server. */
  predicate IsModeration(c: Command) {
    c.BanClient? || c.ClientKick?
  }

  predicate NoModeration(cs: seq<Command>) {
    forall i :: 0 <= i < |cs| ==> !IsModeration(cs[i])
  }
}
