/** The event names the realtime hub sends to clients, and the namespaces a client may name
    without a room (internal/socket/constants.go). */
module SocketConstants {

  // Client event names (the `SocketEvents` table).
  const Connection := "connection"
  const UserConnection := "user-connection"
  const UserDisconnect := "user-disconnect"
  const UserPosition := "user-position"
  const Position := "position"
  const AgentCar := "agentCar"
  const JoinChat := "joinChat"
  const ChatMessage := "chat-message"
  const GetChatHistory := "get-chat-history"
  const ChatHistory := "chat-history"
  const UserConference := "user-conference"
  const GetUserDetail := "get-user-detail"
  const UserDetail := "user-detail"
  const GetUserList := "get-user-list"
  const UserList := "user-list"
  const UpdateUsername := "update-username"
  const AuthJoinConference := "auth-join-conference"
  const AuthJoinConferenceAnswer := "auth-join-conference-answer"
  const RoomRecord := "room-record"
  const CaseData := "case-data"
  const Queue := "queue"
  const Log := "log"

  // Status values (the `SocketStatus` table).
  const StatusConnection := "connection"
  const StatusDisconnect := "disconnect"

  /** The namespaces that exist without a room, written without their leading slash. */
  const AllowedNamespaces: seq<string> := ["queue", "newqueue", "mobile", "notification"]

  /** Linear search of `AllowedNamespaces` that returns as soon as it finds `namespace`. */
  method IsAllowedNamespace(namespace: string) returns (allowed: bool)
    ensures allowed <==> namespace in AllowedNamespaces
    ensures allowed <==> namespace == "queue" || namespace == "newqueue"
                         || namespace == "mobile" || namespace == "notification"
    ensures allowed ==> namespace != "" && namespace[0] != '/'
  {
    var i := 0;
    while i < |AllowedNamespaces|
      invariant 0 <= i <= |AllowedNamespaces|
      invariant namespace !in AllowedNamespaces[..i]
    {
      if AllowedNamespaces[i] == namespace {
        return true;
      }
      i := i + 1;
    }
    assert AllowedNamespaces[..i] == AllowedNamespaces;
    return false;
  }
}
