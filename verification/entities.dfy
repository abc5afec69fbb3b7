/**
 * The values exchanged by the admission routes: the decoded caller identity,
 * the waiting-room record, LiveKit grants and tokens, and HTTP responses.
 */
module Entities {
  import opened Wrappers

  /** The payload of the session JWT after verification (`req.user`).
      The sign-up path also signs the password into it; an absent field
      (no email after sign-up, no picture from Google) is None. */
  datatype Claims = Claims(name: string, email: Option<string>, photoURL: Option<string>, password: Option<string>)

  /** One entry of `pending:participants:<room>`: `{name, email, photoURL}`. */
  datatype PendingUser = PendingUser(name: string, email: Option<string>, photoURL: Option<string>)

  /** The record a guest request enqueues: three fields copied from the caller's claims. */
  function WaitingRecord(user: Claims): PendingUser
  {
    PendingUser(user.name, user.email, user.photoURL)
  }

  /** A LiveKit video grant for one identity (token name == identity) in one room. */
  datatype Grant = Grant(identity: string, room: string, roomCreate: bool,
                         roomJoin: bool, canPublish: bool, canSubscribe: bool)

  /** A minted LiveKit access token. Signing is not modelled: a token is
      represented by the grant it carries, so minting is injective. */
  datatype Token = Jwt(grant: Grant)

  function Mint(g: Grant): Token { Jwt(g) }

  /** The grant of a host: may create the room. */
  function HostGrant(identity: string, room: string): Grant
  {
    Grant(identity, room, true, true, true, true)
  }

  /** The grant of an approved guest: may join, not create. */
  function GuestGrant(identity: string, room: string): Grant
  {
    Grant(identity, room, false, true, true, true)
  }

  /** The value stored under `approved:token:<identity>:<room>` with its expiry instant. */
  datatype Approval = Approval(token: Token, expiresAt: int)

  /** The JSON bodies the routes send. */
  datatype Body =
    | Error(error: string)                                // { error }
    | Message(message: string)                            // { message }
    | Denied(message: string)                             // { message, success: false }
    | HostJoined(token: Token, roomName: string, url: string)
    | PendingList(users: seq<PendingUser>)
    | ApprovedToken(token: Token)                         // { token }
    | Availability(msg: string)                           // { msg: 'success' | 'failure' }
    | StatusOnly                                          // res.sendStatus

  datatype Response = Response(status: int, body: Body)

  const StatusOk := 200
  const StatusAccepted := 202
  const StatusBadRequest := 400
  const StatusUnauthorized := 401
  const StatusForbidden := 403
  const StatusNotFound := 404
}
