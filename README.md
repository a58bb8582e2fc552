# SMS API gateway: a Dafny model of its coordination and bookkeeping core

The gateway is a Go service that links SMS recipients to LiveKit video rooms. It
creates rooms and one-time join links, issues LiveKit tokens, records rooms
through LiveKit egress, relays Socket.IO events between server instances through
Redis, and keeps MySQL tables of rooms, participants, links, recordings, car
tasks and chat messages.

This project models the parts of that service that decide something:

- the Socket.IO hub's namespace registry;
- the cross-instance event manager;
- the session store;
- the LiveKit webhook's bookkeeping;
- recording admission;
- the link, user and room services;
- the repositories' UPDATE/SELECT semantics and their optional-clause query builders;
- the statistics queries;
- the bearer-token middleware;
- the link handler's validators;
- the file service's naming rules;
- the random-name generators, the `sql.Null*` converters and the configuration loader.

How the model is built:

- Every repository is a class whose `rows: seq<Row>` field is the table in insertion (id)
  order. Its `Valid()` says that ids ascend strictly along the sequence and stay below the
  next auto-increment id, so "last matching row" is the same as "largest matching id". Each `UPDATE … WHERE …` is a specification function over that sequence that
  changes exactly the matching rows. The class method reassigns `rows` to it.
- The database driver's answer to each statement is a parameter (`db: Outcome`).
  A failure yields the service's own `"failed to <what>: <message>"` error.
- LiveKit, Redis replies, the filesystem, JWT verification, `time.Now` and
  `math/rand` are parameters as well. Calls made to them are recorded in ghost
  traces.
- SQL statements are lists of literal chunks and `?` holes, so each builder's
  placeholder count can be compared with its argument list (`Sql.Bound`).

Recording is started and stopped only on request. When LiveKit reports a published
track, the webhook writes a log line and does nothing else
(internal/handler/webhook_handler.go:120-126). No state is kept per track.

## Model

| member | source | states |
|---|---|---|
| SocketConstants.IsAllowedNamespace | internal/socket/constants.go:243-253 | allowed iff the name is one of queue, newqueue, mobile, notification; an allowed name is non-empty and has no leading slash |
| Hub.ClientEventFor | internal/socket/hub.go:317-334 | each cross-instance event kind maps to exactly one client event name (user-disconnect, user-connection, agentCar, chat-message, room-record), and queue_update/newcase map to none |
| Hub.RoomRegistrationsCoverRoomEvents | internal/socket/hub.go:227-285 | a room namespace registers its connect handler first and its disconnect handler last; an event handler is registered under it exactly for the thirteen room events |
| Hub.FixedNamespaceBroadcast | internal/socket/hub.go:447-522 | the queue, newqueue and notification namespaces re-broadcast exactly their registered events unchanged, to the room named by the namespace without its slash |
| Hub.RelayBroadcasts | internal/socket/hub.go:317-334 | a relayed event gives at most one broadcast, to the handler's own namespace and room with the event's data, and none when the kind has no client name |
| Hub.ConnectionBroadcastNamespaceUnregistered | internal/socket/hub.go:211 | the namespace the connection broadcast is sent to (the bare room name) is never one of the registered, slash-prefixed namespaces |
| Hub.Hub.InitRoomNamespace | internal/socket/hub.go:152-179 | afterwards "/"+room is registered; a second call changes nothing; a first call adds the namespace, its connect/event/disconnect registrations, and the cross-instance relay under the slash-less room key |
| Hub.Hub.HandleRoomConnection | internal/socket/hub.go:182-224 | a socket without context gets a session for (socket, room, identity); with an identity it broadcasts user-connection with status connect to the namespace named by the bare room |
| Hub.Hub.HandleRoomConnectionCorrected | internal/socket/hub.go:182-224 | the same session context; a non-empty identity appends exactly one user-connection broadcast (identity, status connect) to the room's own namespace "/"+room, which `InitRoomNamespace` registers |
| Hub.Hub.HandleRoomDisconnect | internal/socket/hub.go:288-314 | without a session state nothing is broadcast or published; with one, exactly one user-disconnect broadcast and one publish carry the state's identity and userName |
| Hub.Hub.DeliverCrossInstance | internal/socket/hub.go:317-334 | a decoded event for a registered room key is re-broadcast through that room's relay; anything else changes nothing |
| Hub.Hub.HandleChatMessage | internal/socket/hub.go:337-346 | the message is stamped with dtmcreated, broadcast locally and then published with the same stamped data |
| Hub.Hub.HandleUserPosition | internal/socket/hub.go:355-357 | a user position is broadcast only and never published |
| Hub.Hub.HandlePosition | internal/socket/hub.go:359-364 | a car position is broadcast and handed to the event manager with a nil context, so nothing ever reaches the channel, whatever Redis would answer |
| Hub.Hub.HandlePositionCorrected | internal/socket/hub.go:359-364 | with a live context the car position is published as car_position exactly when publishing is enabled and Redis accepts it |
| Hub.Hub.HandleRoomEcho | internal/socket/hub.go:377-394 | the echo events are re-broadcast unchanged to the room |
| Hub.Hub.HandleCaseData | internal/socket/hub.go:282-284 | case-data is re-broadcast to the socket's namespace and room |
| Hub.Hub.HandleRoomRecord | internal/socket/hub.go:397-406 | a record request broadcasts and publishes status recording for the room |
| Hub.Hub.HandleFixedNamespaceEvent | internal/socket/hub.go:447-522 | a fixed-namespace event is broadcast exactly when that namespace registered it |
| Hub.Hub.InitMobileNamespace | internal/socket/hub.go:409-444 | registers /mobile with its connect, location and disconnect handlers |
| Hub.Hub.InitQueueNamespace | internal/socket/hub.go:447-466 | registers /queue with its connect, queue and disconnect handlers |
| Hub.Hub.InitNewQueueNamespace | internal/socket/hub.go:469-492 | registers /newqueue with its connect, queue, case-data and disconnect handlers |
| Hub.Hub.InitNotificationNamespace | internal/socket/hub.go:495-522 | registers /notification with its connect, all, unread, new and disconnect handlers |
| Hub.Hub.Start | internal/socket/hub.go:525-544 | start succeeds and adds exactly /mobile, /queue, /newqueue and /notification to the namespace set; it appends their connect, event and disconnect registrations in that namespace order (location; queue; queue and case-data; all, unread and new) |
| Hub.Hub.CleanupTick | internal/socket/hub.go:547-562 | one cleanup tick performs the session store's TTL-repair sweep and nothing else |
| Hub.Hub.Stop | internal/socket/hub.go:565-580 | stopping cancels the event manager and returns the server's close error; the handlers are cleared, except that a failed close of a live subscription leaves them as they were |
| Hub.Hub.BroadcastToRoom | internal/socket/hub.go:588-590 | one broadcast with the given namespace, room, event and data |
| Hub.Hub.GetRegisteredNamespaces | internal/socket/hub.go:593-602 | the list holds exactly the registered namespaces, each once |
| EventManager.Marshal | internal/socket/event_manager.go:135-157 | every published event decodes back to itself |
| EventManager.Unmarshal | internal/socket/event_manager.go:116-132 | only well-formed payloads decode |
| EventManager.CrossInstanceEventManager.Initialize | internal/socket/event_manager.go:63-93 | returns nil and latches initialized; a second call subscribes nothing again; without Redis it does not subscribe (disabled) |
| EventManager.CrossInstanceEventManager.HandleMessage | internal/socket/event_manager.go:116-132 | the handler registered for the event's namespace is called exactly once with its event and data; undecodable or unregistered messages call nothing |
| EventManager.CrossInstanceEventManager.PublishEvent | internal/socket/event_manager.go:135-157 | when disabled it returns nil and publishes nothing; with a nil context the client fails before sending and nothing is published; otherwise it returns the publish error and publishes the encoded event only on success |
| EventManager.AfterPublish | internal/socket/event_manager.go:135-157 | a publish appends exactly the encoded event, and does so iff publishing is enabled, the context is live and Redis accepts it |
| EventManager.NilContextNeverPublishes | internal/socket/event_manager.go:135-157 | a nil context never lands, whatever Redis answers, while the same live-context publish lands on success |
| EventManager.CrossInstanceEventManager.RegisterHandler | internal/socket/event_manager.go:160-165 | the namespace's handler is replaced, nothing else changes |
| EventManager.CrossInstanceEventManager.UnregisterHandler | internal/socket/event_manager.go:168-173 | only that namespace's entry is removed |
| EventManager.CrossInstanceEventManager.Cleanup | internal/socket/event_manager.go:176-192 | cancels listening; empties the registry unless closing the subscription fails, in which case the error is returned and the registry kept |
| StateManager.RedisKeyInRoomPattern | internal/socket/state_manager.go:45-52 | a session's Redis key starts with its room's key prefix, and trimming that prefix gives back the identity; the key matches the all-sessions KEYS pattern, and it matches its room's KEYS pattern when the room holds no glob character |
| StateManager.RoomPatternIsPrefix | internal/socket/state_manager.go:105-106 | for a room without glob characters, `socket:session:<room>:*` matches exactly the keys that start with `socket:session:<room>:` |
| StateManager.SessionPatternIsPrefix | internal/socket/state_manager.go:134-135 | `socket:session:*` matches exactly the keys that start with `socket:session:` |
| StateManager.GlobRoomPattern | internal/socket/state_manager.go:105-106 | the room is put into the KEYS pattern unescaped: the pattern for room `[ab]` matches the session keys of room `a` and not those of room `[ab]` |
| Glob.StarMatchesAll | internal/socket/state_manager.go:134-135 | a lone `*` matches every key |
| Glob.LiteralStarIsPrefix | internal/socket/state_manager.go:105-106 | text without glob characters followed by `*` matches a key iff the key starts with that text |
| Glob.LiteralHead | internal/socket/state_manager.go:105-106 | text without glob characters at the head of a pattern consumes the same text at the head of the key |
| StateManager.UnexpiringStep | internal/socket/state_manager.go:129-159 | the set of keys the sweep repairs grows by a key exactly when its TTL lookup succeeded and showed no expiry |
| StateManager.WithSessionTtlStep | internal/socket/state_manager.go:129-159 | repairing one more key gives it the 24-hour expiry and leaves the rest of the store as before |
| StateManager.WithSessionTtlUntouched | internal/socket/state_manager.go:129-159 | keys the sweep does not repair keep their value and TTL |
| StateManager.ExpireKey | internal/socket/state_manager.go:135-152 | one iteration of the sweep keeps the store equal to "repaired keys get the 24-hour expiry" and the count equal to the number of repaired keys |
| StateManager.ExpireSessionKeys | internal/socket/state_manager.go:129-159 | the sweep counts exactly the session keys without expiry and sets the 24-hour expiry on those whose EXPIRE succeeds |
| StateManager.SocketStateManager.SetUserSession | internal/socket/state_manager.go:37-52 | local mode stores the state under room:identity; Redis mode stores it with a 24-hour TTL when the write succeeds and returns the write's error |
| StateManager.SocketStateManager.GetUserSession | internal/socket/state_manager.go:55-77 | local mode returns the stored state or nil without an error; Redis mode returns the reply's error, redis nil, a decode error or the stored state |
| StateManager.SocketStateManager.RemoveUserSession | internal/socket/state_manager.go:80-89 | the key is removed; removing an absent key changes nothing and returns nil |
| StateManager.SocketStateManager.LocalRoomSessions | internal/socket/state_manager.go:93-102 | exactly the stored states whose Room field is the room, one per stored key |
| StateManager.SocketStateManager.RedisRoomSessions | internal/socket/state_manager.go:105-125 | exactly the decodable states stored under a key that matches the room's KEYS glob pattern and whose read succeeded, one per key |
| StateManager.SocketStateManager.GetRoomSessions | internal/socket/state_manager.go:92-126 | in local mode, the sessions whose Room field is the room; in Redis mode, the sessions whose key matches the room's KEYS glob pattern, or the KEYS error |
| StateManager.SocketStateManager.CleanupExpiredData | internal/socket/state_manager.go:129-159 | nothing in local mode; in Redis mode the TTL-repair sweep over all session keys, counting the repaired keys |
| StateManager.SocketStateManager.LocalRoomSet | internal/socket/state_manager.go:164-170 | the set of Room fields of the locally stored sessions |
| StateManager.SocketStateManager.RedisRoomSet | internal/socket/state_manager.go:179-197 | the set of Room fields read from the decodable values under keys matching `socket:session:*` whose read succeeded |
| StateManager.SocketStateManager.GetActiveRooms | internal/socket/state_manager.go:162-206 | the distinct Room values of the stored sessions, with no duplicates |
| Webhook.TruncDiv | internal/handler/webhook_handler.go:170 | Go's integer division, truncating toward zero |
| Webhook.CompletedFile | internal/handler/webhook_handler.go:161-185 | only the first file result is used: name and path are its filename, size its size, duration its nanoseconds in whole seconds; no results gives empty values |
| Webhook.CompletedFileIgnoresRest | internal/handler/webhook_handler.go:165-172 | further file results never change what is recorded |
| Webhook.EgressCalls | internal/handler/webhook_handler.go:161-196 | complete writes the file info with status complete and then clears the room's record status; failed writes empty values with status failed; any other status writes nothing |
| Webhook.Effects | internal/handler/webhook_handler.go:84-196 | room_finished closes the room; participant_joined/left set the user to connect/disconnect when room and participant are present; egress_ended does the egress bookkeeping; every other event causes no store call |
| Webhook.LogOnlyEventsChangeNothing | internal/handler/webhook_handler.go:84-151 | the log-only events leave the room, user and record tables unchanged |
| Webhook.EgressEndedBookkeeping | internal/handler/webhook_handler.go:161-196 | with working stores, complete updates the record and resets the room's record status, and failed updates the record and leaves the rooms alone |
| Webhook.EgressSkipsUsers | internal/handler/webhook_handler.go:161-196 | egress bookkeeping never touches the user table |
| Webhook.WebhookHandler.EgressEnded | internal/handler/webhook_handler.go:161-196 | the store calls issued are exactly the egress bookkeeping, applied to the room and record tables |
| Webhook.WebhookHandler.HandleLiveKitWebhook | internal/handler/webhook_handler.go:45-206 | no Authorization gives 401 and a bad body 400, both with no store calls; every parsed event gives 200 after exactly its effects, whatever the stores answer |
| RecordRepo.Inserted | internal/repository/record_repository.go:40-66 | the new record row carries the egress id, status, path and room, stamped with the creation time |
| RecordRepo.ActiveCount | internal/repository/record_repository.go:200-210 | the number of recording rows; zero iff no row is recording |
| RecordRepo.Completed | internal/repository/record_repository.go:140-151 | only rows with that egress id get the file info, status and completion stamps; others are unchanged |
| RecordRepo.RecordQueueIsActive | internal/repository/record_repository.go:174-184 | the queue holds exactly the recording rows, as many as the active count |
| RecordRepo.InsertCountsActive | internal/repository/record_repository.go:40-66 | inserting a recording row raises the active count by one, any other row leaves it |
| RecordRepo.CompletedNotMoreActive | internal/repository/record_repository.go:140-151 | completing with a non-recording status never raises the active count |
| RecordRepo.FileHistoryStatement | internal/repository/record_repository.go:154-171 | the room filter and its argument are added only for a non-empty room, so holes equal arguments |
| RecordRepo.RecordRepository.Create | internal/repository/record_repository.go:40-66 | appends the new record with the next id, or changes nothing on a failure |
| RecordRepo.RecordRepository.GetByID | internal/repository/record_repository.go:69-82 | the row with that id, or nil with no error when none matches |
| RecordRepo.RecordRepository.GetByEgressID | internal/repository/record_repository.go:85-98 | the row with that egress id, or nil with no error when none matches |
| RecordRepo.RecordRepository.UpdateByEgressID | internal/repository/record_repository.go:140-151 | the table becomes the completed table, or is unchanged on a failure |
| RecordRepo.RecordRepository.GetFileHistory | internal/repository/record_repository.go:154-171 | exactly the rows of the room (all rows when the room is empty), newest first |
| RecordRepo.RecordRepository.GetRecordQueue | internal/repository/record_repository.go:174-184 | exactly the recording rows, newest first; there are as many as the active count |
| RecordRepo.RecordRepository.CheckEgressAvailable | internal/repository/record_repository.go:187-197 | available iff fewer than limit rows are recording |
| RecordRepo.RecordRepository.GetActiveRecordCount | internal/repository/record_repository.go:200-210 | the number of recording rows |
| RecordService.RecordFilePath | internal/service/record_service.go:61-64 | an empty path becomes recordPath/room.mp4, a given path is kept |
| RecordService.StoppedMeaning | internal/service/record_service.go:127-136 | the stopped ids are exactly those of active egresses whose stop succeeded |
| RecordService.NoActiveNoStops | internal/service/record_service.go:127-136 | with no active egress nothing is stopped |
| RecordService.RecordService.StartRecord | internal/service/record_service.go:46-89 | refuses without LiveKit, on an availability error, or at the egress limit, before calling the provider; otherwise starts egress on the chosen path, sets the room's record status and id, and adds a recording row, keeping the active count within the limit |
| RecordService.RecordService.StopAllActiveRecords | internal/service/record_service.go:115-137 | a listing error stops nothing; otherwise every active egress gets a stop call and the stopped ids are returned in listing order |
| RecordService.RecordService.UpdateRecordByEgressID | internal/service/record_service.go:175-177 | delegates to the repository's egress update |
| RoomRepo.Inserted | internal/repository/room_repository.go:42-67 | a new room always has an empty recordId, with the given name, status and dates |
| RoomRepo.ExpiredInRoom | internal/repository/room_repository.go:229-240 | the row filter of the expiry check: that room with an expiry before now |
| RoomRepo.WithStatus | internal/repository/room_repository.go:117-124 | the room's rows get the status and messageUnread reset to 0; others are unchanged |
| RoomRepo.Closed | internal/repository/room_repository.go:127-134 | the room's rows become close whatever their status; others are unchanged |
| RoomRepo.AllClosed | internal/repository/room_repository.go:137-144 | only open rows become close |
| RoomRepo.WithRoomType | internal/repository/room_repository.go:168-191 | the room's rows get the new type, auto-record, chat, socket url, user agent and update time |
| RoomRepo.WithRecordStatus | internal/repository/room_repository.go:243-257 | room "all" resets every row's record status to 0 and recordId to empty, ignoring the status; any other room gets only its record status |
| RoomRepo.WithRecordId | internal/repository/room_repository.go:260-267 | only the room's rows get the record id |
| RoomRepo.WithStartedFinished | internal/repository/room_repository.go:321-338 | started stamps dtmRoomStarted even when finished is also set; finished alone stamps dtmRoomFinished; neither changes nothing |
| RoomRepo.WithStartStopRecord | internal/repository/room_repository.go:341-356 | a start stamps dtmStartRecord, otherwise dtmStopRecord, on the room's rows only |
| RoomRepo.ExpiredOpen | internal/repository/room_repository.go:215-226 | the filter of the expired-room listing: open rooms whose expiry is before now |
| RoomRepo.CloseAllLeavesNoneOpen | internal/repository/room_repository.go:137-144 | after closing all rooms no row is open |
| RoomRepo.CloseRoomTwiceAffectsNothing | internal/repository/room_repository.go:127-134 | closing a room again changes nothing and affects no row |
| RoomRepo.DeleteRemovesOnlyRoom | internal/repository/room_repository.go:205-212 | deletion removes exactly that room's rows |
| RoomRepo.CheckRoomExpiredMeaning | internal/repository/room_repository.go:229-240 | the count is positive iff some row of the room has an expiry before now |
| RoomRepo.RecordStatusKeepsRecordIds | internal/repository/room_repository.go:251-256 | a named room's record status update changes nothing but the record status |
| RoomRepo.InsertedFoundById | internal/repository/room_repository.go:42-67 | the inserted room is what a lookup by its new id returns |
| RoomRepo.RoomRepository.Create | internal/repository/room_repository.go:42-67 | appends the new room with the next id, or changes nothing on a failure |
| RoomRepo.RoomRepository.GetByRoom | internal/repository/room_repository.go:70-85 | the room's first row with only the fifteen selected columns filled (service, dtmExpired and the other eight are NULL), present iff the room has a row; no row is nil with no error |
| RoomRepo.RoomRepository.GetByID | internal/repository/room_repository.go:88-101 | the row with that id, or nil with no error |
| RoomRepo.RoomRepository.UpdateStatus | internal/repository/room_repository.go:117-124 | the status update with messageUnread reset, or no change on a failure |
| RoomRepo.RoomRepository.CloseRoom | internal/repository/room_repository.go:127-134 | closes the room and returns the number of rows actually changed |
| RoomRepo.RoomRepository.CloseAllRooms | internal/repository/room_repository.go:137-144 | closes every open room |
| RoomRepo.RoomRepository.UpdateRoomType | internal/repository/room_repository.go:168-191 | the room-type update, or no change on a failure |
| RoomRepo.RoomRepository.Delete | internal/repository/room_repository.go:205-212 | the room's rows are removed |
| RoomRepo.RoomRepository.GetExpiredRooms | internal/repository/room_repository.go:215-226 | the expired open rooms in table order, each with only room and dtmExpired filled |
| RoomRepo.RoomRepository.CheckRoomExpired | internal/repository/room_repository.go:229-240 | expired iff the query succeeds and counts a row of the room past its expiry |
| RoomRepo.RoomRepository.UpdateRecordStatus | internal/repository/room_repository.go:243-257 | the record-status update, including the "all" reset, whose error is returned unwrapped |
| RoomRepo.RoomRepository.UpdateRecordID | internal/repository/room_repository.go:260-267 | the room's record id is set |
| RoomRepo.RoomRepository.UpdateRoomStartedFinished | internal/repository/room_repository.go:321-338 | neither flag is a no-op returning nil; otherwise the timestamp update |
| RoomRepo.RoomRepository.UpdateStartStopRecord | internal/repository/room_repository.go:341-356 | the start/stop record timestamp update |
| RoomService.ExpiryDays | internal/service/room_service.go:57-60 | zero days means the configured default, anything else is kept |
| RoomService.CreateParams | internal/service/room_service.go:62-72 | a new room is always created open, with the creation and update time now |
| RoomService.CloseEachKeepsClosed | internal/service/room_service.go:178-194 | the expiry sweep never reopens a room |
| RoomService.SweepClosesListed | internal/service/room_service.go:178-194 | every listed room whose close succeeded is closed afterwards, whatever failed before or after it |
| RoomService.CloseEachLength | internal/service/room_service.go:178-194 | the sweep removes and adds no row |
| RoomService.RoomsKept | internal/service/room_service.go:178-194 | the sweep changes no room's name |
| RoomService.ExpiredListing | internal/service/room_service.go:178-194 | the listed rooms are exactly the views of expired open rooms |
| RoomService.RoomService.CreateRoom | internal/service/room_service.go:51-100 | earlier rows are untouched and exactly one row is appended: the insert of the request's options (service, type, recording, preset, chat, websocket URL, user agent) under a fresh 6-letter name, open, with an empty recordId and the defaulted expiry; LiveKit creation is requested but its errors are ignored |
| RoomService.CreatedRowCarriesOptions | internal/service/room_service.go:64-78 | the inserted row carries each create option in its own column, with both timestamps `now`, and no record status, close or recording start time |
| RoomService.RoomService.CloseRoom | internal/service/room_service.go:132-148 | a DB error is returned; otherwise the room is closed and LiveKit deletion requested, its errors ignored |
| RoomService.RoomService.UpdateRoomStatus | internal/service/room_service.go:156-158 | delegates the status update |
| RoomService.RoomService.UpdateRoomType | internal/service/room_service.go:161-165 | the options' room is replaced by the room name and the update time by now before delegating |
| RoomService.RoomService.UpdateRecordStatus | internal/service/room_service.go:168-170 | delegates the record-status update |
| RoomService.RoomService.AutoRoomExpiredClose | internal/service/room_service.go:178-194 | only a listing error is returned; the listed rooms are exactly the open rows expired before `now`, in table order, with only room and dtmExpired selected; every listed room is closed, continuing past failures |
| RoomService.RoomService.DeleteRoom | internal/service/room_service.go:197-204 | LiveKit deletion is requested and ignored; the DB delete's result is returned |
| UserRepo.Inserted | internal/repository/user_repository.go:38-61 | the new participant row carries room, identity, status and the creation time |
| UserRepo.Flag | internal/repository/user_repository.go:118-143 | booleans are stored as 1 and 0 |
| UserRepo.UpdateUserStatement | internal/repository/user_repository.go:64-85 | userName always, socketId and color only when non-empty, then room and identity last; holes equal arguments |
| UserRepo.WithUserUpdate | internal/repository/user_repository.go:64-85 | the matching (room, identity) rows get the name, and socketId/color only when given |
| UserRepo.WithUserStatus | internal/repository/user_repository.go:88-95 | the matching rows get the status and camera and microphone set to 1 |
| UserRepo.Disconnected | internal/repository/user_repository.go:156-163 | only rows with that socket get an empty socket and camera and microphone 1 |
| UserRepo.WithDevice | internal/repository/user_repository.go:118-143 | the identity's rows get the camera or microphone flag as 1/0; the other rows are unchanged |
| UserRepo.AllDisconnected | internal/repository/user_repository.go:278-285 | only connection rows become disconnect |
| UserRepo.InitUserExistIdempotent | internal/repository/user_repository.go:278-285 | afterwards no row is connected, and a second run changes nothing |
| UserRepo.DetailQueryFor | internal/repository/user_repository.go:171-187 | room and identity take precedence, then socket id, otherwise no query |
| UserRepo.DetailView | internal/repository/user_repository.go:166-192 | the columns the detail query selects |
| UserRepo.AlreadyInRoomMeaning | internal/repository/user_repository.go:195-212 | the in-room count is positive iff some row has that room and identity |
| UserRepo.UserRepository.AddUser | internal/repository/user_repository.go:38-61 | appends the participant, or changes nothing on a failure |
| UserRepo.UserRepository.UpdateUser | internal/repository/user_repository.go:64-85 | the optional-clause update |
| UserRepo.UserRepository.UpdateUserStatus | internal/repository/user_repository.go:88-95 | the status update with camera and microphone reset |
| UserRepo.UserRepository.UpdateUserCamera | internal/repository/user_repository.go:118-129 | the camera update |
| UserRepo.UserRepository.UpdateUserMicrophone | internal/repository/user_repository.go:132-143 | the microphone update |
| UserRepo.UserRepository.UpdateUserDisconnect | internal/repository/user_repository.go:156-163 | the socket disconnect update |
| UserRepo.UserRepository.GetUserDetail | internal/repository/user_repository.go:166-192 | an error without querying when neither key is given; otherwise the first matching row's view, or nil with no error |
| UserRepo.UserRepository.IsUserInRoom | internal/repository/user_repository.go:195-203 | the number of rows with that room and identity |
| UserRepo.UserRepository.GetUserAlreadyInRoom | internal/repository/user_repository.go:206-212 | true iff the query succeeds and some row has that room and identity |
| UserRepo.UserRepository.GetRandomColor | internal/repository/user_repository.go:255-264 | one of the stored colors, or an error when the query fails or there are none |
| UserRepo.UserRepository.InitUserExist | internal/repository/user_repository.go:278-285 | every connected participant is marked disconnect |
| UserService.GrantFor | internal/service/user_service.go:113-139 | always room join for the room; admin or host are room admins; viewers may not publish media or data; everyone else may |
| UserService.ViewerOnlyWatches | internal/service/user_service.go:125-135 | a viewer gets no admin and no publishing; every other type may publish |
| UserService.UserService.GenerateLiveKitToken | internal/service/user_service.go:113-139 | fails without LiveKit; otherwise signs the grant for the user type with a 24-hour TTL |
| UserService.UserService.GenerateUser | internal/service/user_service.go:61-110 | earlier rows are untouched and exactly one row is appended under the next id, the counter advancing by one: the insert of the room, user type and user agent of the request, created `now`, connected, with an empty socket, conference 0, a 10-character identity, a palette color or the fallback #000000, and the given name or a Guest-n name; an AddUser failure changes nothing and returns before any token |
| UserService.UserService.RemoveParticipant | internal/service/user_service.go:199-212 | fails without LiveKit; otherwise marks the user disconnected when the DB allows, and asks LiveKit to remove them whatever the DB said |
| UserService.UserService.GetUserDetail | internal/service/user_service.go:142-151 | the repository lookup; a missing row is nil, not an error |
| UserService.UserService.UpdateUserStatus | internal/service/user_service.go:159-161 | delegates the status update |
| LinkRepo.Inserted | internal/repository/link_repository.go:47-79 | the new link carries its id, room, user type, link type, one-time flag and expiry |
| LinkRepo.RoomAndUserTypeStatement | internal/repository/link_repository.go:100-123 | the userType filter only for a non-empty type, and always the newest row; holes equal arguments |
| LinkRepo.WithOneTimeLink | internal/repository/link_repository.go:179-186 | only rows with that link id get the one-time status |
| LinkRepo.WithDomainIndex | internal/repository/link_repository.go:264-271 | only rows with that link id get the domain index |
| LinkRepo.WithEnabled | internal/repository/link_repository.go:293-300 | every row matching both room and link type gets the enabled flag |
| LinkRepo.WithLatLng | internal/repository/link_repository.go:142-149 | only rows with that link id get the position |
| LinkRepo.OneTimeLinkStatus | internal/repository/link_repository.go:163-176 | 0 when no row matches, the stored status otherwise; a NULL status fails with "failed to get one time link status: " and database/sql's scan error for column 0, `oneTimeLink`, kind int |
| LinkRepo.LastDomainIndexMeaning | internal/repository/link_repository.go:274-290 | 0 when there is no row with another link id; otherwise the domain index of the newest such row, 0 when NULL |
| LinkRepo.OneTimeLinkLatches | internal/repository/link_repository.go:163-186 | once status 1 is written for an existing link, its status reads 1 |
| LinkRepo.LinkRepository.Create | internal/repository/link_repository.go:47-79 | appends the new link, or changes nothing on a failure |
| LinkRepo.LinkRepository.GetByLinkID | internal/repository/link_repository.go:82-97 | the first link with that linkID, with id 0 and without recordId, domainIndex, share, coordinates, userAgent or password (not selected); present iff such a link exists; none is nil with no error |
| LinkRepo.LinkRepository.GetByRoomAndUserType | internal/repository/link_repository.go:100-123 | the matching link with the largest id (ORDER BY id DESC LIMIT 1) of the room, and of the user type when one is given, with id 0 and without recordId, domainIndex, share, userAgent or password (not selected); none is nil with no error |
| LinkRepo.LinkRepository.GetShareURL | internal/repository/link_repository.go:126-139 | the shared link's id, "" with no error when none matches; a NULL linkID fails with "failed to get share URL: " and the scan error for column 0, `linkID`, kind string |
| LinkRepo.LinkRepository.GetOneTimeLinkStatus | internal/repository/link_repository.go:163-176 | the one-time status, 0 with no error when no link matches, and `OneTimeLinkStatus`'s full scan error for a NULL status |
| LinkRepo.LinkRepository.UpdateOneTimeLink | internal/repository/link_repository.go:179-186 | the one-time status update |
| LinkRepo.LinkRepository.GetUserMobile | internal/repository/link_repository.go:205-218 | the room's user mobile, "" with no error when none matches |
| LinkRepo.LinkRepository.UpdateDomainIndex | internal/repository/link_repository.go:264-271 | the domain index update |
| LinkRepo.LinkRepository.GetLastDomainIndex | internal/repository/link_repository.go:274-290 | the domain index (0 when NULL) of the link with the largest id among those with another, non-NULL linkID; 0 when there is none |
| LinkRepo.LinkRepository.UpdateLatLng | internal/repository/link_repository.go:142-149 | the position update |
| LinkRepo.LinkRepository.UpdateLinkEnabled | internal/repository/link_repository.go:293-300 | the enabled update over room and link type |
| LinkService.DetailLookup | internal/service/link_service.go:93-116 | a non-empty link id wins; otherwise a room looks up user type guest; with neither there is no lookup |
| LinkService.LinkParams | internal/service/link_service.go:60-75 | the request's user type is stored as the link type, the stored user type is empty |
| LinkService.CreatedLinkNotFoundByRoom | internal/service/link_service.go:54-117 | a link created by CreateLink is never what the room lookup of GetLinkDetail finds |
| LinkService.UnknownLinkNeverLatches | internal/service/link_service.go:147-158 | for an unknown link the status reads 0 and marking it used changes nothing |
| LinkService.LinkService.GetLinkDetail | internal/service/link_service.go:92-117 | the link by id, else by room as guest, else link not found, each seen through its lookup's column list; a missing link is nil with no error |
| LinkService.LinkService.CreateLink | internal/service/link_service.go:54-89 | earlier rows are untouched and exactly one row is appended under the next id: the insert of `LinkParams` for the request, with a 6-character id (never N or n with the default charset) and the defaulted expiry; a create failure changes nothing; what is returned is that row as the by-linkID lookup selects it (id 0, no share or domainIndex) |
| LinkService.CreatedLinkCarriesOptions | internal/service/link_service.go:67-80 | the inserted link carries share, mobile, the three require flags, password, oneTimeLink and userAgent from the request, the request's type as link type, an empty user type, created `now` |
| LinkService.LinkService.CheckAndUpdateOneTimeLink | internal/service/link_service.go:147-158 | a lookup error (including the full scan error of a NULL status) or status 1 fails without an update; otherwise the status becomes 1, so a second call fails |
| LinkService.LinkService.GetDomain | internal/service/link_service.go:213-228 | writes index last+1 with a failed lookup counting as 0, and returns the API URL or the update error |
| CarRepo.Inserted | internal/repository/car_repository.go:34-53 | the new task carries uid, status and room, created and updated now |
| CarRepo.StampFor | internal/repository/car_repository.go:108-121 | started, arrived, canceled and completed each select their own timestamp column, any other status none |
| CarRepo.WithTask | internal/repository/car_repository.go:104-129 | the task gets the status and update time, and exactly the status's timestamp column gets the same time |
| CarRepo.WithPosition | internal/repository/car_repository.go:132-149 | only rows matching both user name and room get the position |
| CarRepo.TaskListStatement | internal/repository/car_repository.go:169-187 | the status filter only when non-empty, limit and offset last; holes equal arguments |
| CarRepo.CarRepository.CreateTask | internal/repository/car_repository.go:34-53 | appends the task, or changes nothing on a failure |
| CarRepo.CarRepository.GetByID | internal/repository/car_repository.go:56-69 | the task, or nil with no error |
| CarRepo.CarRepository.GetByUID | internal/repository/car_repository.go:72-85 | the task, or nil with no error |
| CarRepo.CarRepository.GetByRoom | internal/repository/car_repository.go:88-101 | the task of the room with the largest id (ORDER BY id DESC LIMIT 1), or nil with no error |
| Tables.LastWhereHasGreatestKey | internal/repository/car_repository.go:90 | on a table whose ids ascend, the last matching row has the largest id of all matching rows |
| Tables.FilterKeepsAscending | internal/repository/room_repository.go:206 | deleting rows keeps the remaining ids ascending |
| CarRepo.CarRepository.UpdateTask | internal/repository/car_repository.go:104-129 | the status update with its timestamp column |
| CarRepo.CarRepository.UpdatePosition | internal/repository/car_repository.go:132-149 | the position update |
| CarRepo.CarRepository.GetTaskList | internal/repository/car_repository.go:169-187 | a page of the newest tasks with that status, at most limit, all from the table |
| ChatRepo.Inserted | internal/repository/chat_repository.go:39-64 | the new message carries room, text and user type, created now |
| ChatRepo.ReversedTwice | internal/repository/chat_repository.go:93-96 | reversing twice gives back the messages |
| ChatRepo.ReversedPermutes | internal/repository/chat_repository.go:93-96 | the reversal keeps the multiset of messages |
| ChatRepo.Window | internal/repository/chat_repository.go:82-99 | at most limit messages, none past the offset, the oldest ones kept when fewer remain |
| ChatRepo.ChronologicalPage | internal/repository/chat_repository.go:82-99 | reversing the newest-first page gives the chronological window |
| ChatRepo.ReverseInPlace | internal/repository/chat_repository.go:93-96 | after the two-index swap loop the array holds the reverse of its old contents |
| ChatRepo.ChatRepository.SaveMessage | internal/repository/chat_repository.go:39-64 | appends the message, or changes nothing on a failure |
| ChatRepo.ChatRepository.GetHistory | internal/repository/chat_repository.go:67-79 | the room's messages in order |
| ChatRepo.ChatRepository.GetHistoryWithLimit | internal/repository/chat_repository.go:82-99 | the page in chronological order, a permutation of the newest-first page |
| ChatRepo.ChatRepository.GetNotification | internal/repository/chat_repository.go:102-113 | at most 10 of the room's newest user messages, newest first, with only id, room, identity, userName, text, dtmCreated and userType filled |
| ChatRepo.ChatRepository.GetMessageByID | internal/repository/chat_repository.go:116-126 | the message, or a no-rows error rather than nil |
| StatsRepo.SumOf | internal/repository/stats_repository.go:61-90 | SUM(CASE …) is NULL over no rows and the match count otherwise |
| StatsRepo.TwoStatusesBounded | internal/repository/stats_repository.go:61-65 | two exclusive status counts add up to at most the total |
| StatsRepo.RoomCounts | internal/repository/stats_repository.go:61-81 | the room counts fail to scan exactly when the service filter leaves no room, with the scan error for column 1, `openRooms`, kind int |
| StatsRepo.RoomCountsCoalesced | internal/repository/stats_repository.go:61-81 | the total is the service's room count and open plus closed never exceeds it |
| StatsRepo.RoomCountsAgree | internal/repository/stats_repository.go:61-81 | with at least one room the query and the coalesced counts agree |
| StatsRepo.SummaryOfServiceWithoutRooms | internal/repository/stats_repository.go:61-81 | a service with no rooms makes the room counts fail with the `openRooms` scan error where zeros are intended |
| StatsRepo.UserCounts | internal/repository/stats_repository.go:76-90 | the user counts fail to scan exactly when room_user is empty, with the scan error for column 1, `activeUsers`, kind int |
| StatsRepo.UserCountsCoalesced | internal/repository/stats_repository.go:76-90 | the total is the number of users and active, the connection rows, never exceeds it |
| StatsRepo.GetSummary | internal/repository/stats_repository.go:57-117 | succeeds iff every query succeeds and both SUMs see rows; a NULL sum fails as "failed to get room stats: " or "failed to get user stats: " followed by that column's scan error; the room and case counts are filtered by service, the others never |
| StatsRepo.GetSummaryCorrected | internal/repository/stats_repository.go:57-117 | succeeds iff every query succeeds, with zero counts for empty tables |
| StatsRepo.Classify | internal/repository/stats_repository.go:123-130 | the first matching CASE arm wins: iPhone/iPad, Android, Windows, Mac, Linux, else Other |
| StatsRepo.DeviceTotalIsSum | internal/repository/stats_repository.go:120-142 | the device total is the sum of the six category counts |
| StatsRepo.DeviceCountsCoverLinks | internal/repository/stats_repository.go:120-142 | every link falls in exactly one category, so the counts sum to the number of links |
| StatsRepo.DeviceGroups | internal/repository/stats_repository.go:120-142 | one positive group per device that occurs, with its count |
| StatsRepo.GetDeviceStats | internal/repository/stats_repository.go:120-142 | the device groups, the service ignored |
| StatsRepo.Distinct | internal/repository/stats_repository.go:145-176 | the GROUP BY keys, each once |
| StatsRepo.GroupCounts | internal/repository/stats_repository.go:145-194 | exactly one group per distinct key, with its number of occurrences |
| StatsRepo.Present | internal/repository/stats_repository.go:145-176 | exactly the non-NULL, non-empty types |
| StatsRepo.GetTypeStats | internal/repository/stats_repository.go:145-159 | link types grouped, NULL and empty excluded, the service ignored |
| StatsRepo.GetUserStats | internal/repository/stats_repository.go:162-176 | user types grouped, NULL and empty excluded, the service ignored |
| StatsRepo.GetCaseStats | internal/repository/stats_repository.go:179-194 | case statuses grouped, filtered by service only when it is positive |
| StatsRepo.DailyStatsStatement | internal/repository/stats_repository.go:197-228 | the service argument only when positive; holes equal arguments |
| StatsRepo.MonthlyStatsStatement | internal/repository/stats_repository.go:231-262 | the service argument only when positive; holes equal arguments |
| Auth.ExtractToken | internal/middleware/auth_middleware.go:19-31 | one case-sensitive "Bearer " prefix is removed, any other header is the token, and an empty result falls back to the token query parameter |
| Auth.BearerRoundTrip | internal/middleware/auth_middleware.go:19-26 | "Bearer " followed by a token extracts that token |
| Auth.LowercaseSchemeIsWholeHeader | internal/middleware/auth_middleware.go:19-26 | a lower-case scheme is not recognised, so the whole header is the token |
| Auth.Authenticate | internal/middleware/auth_middleware.go:13-52 | the next handler runs iff a token exists and verifies, with the claims as locals; otherwise 401 with Invalid token or the verifier's message |
| Auth.AuthenticateOptional | internal/middleware/auth_middleware.go:56-86 | the next handler always runs; locals are set iff the token verifies |
| Auth.OptionalAgreesWithRequired | internal/middleware/auth_middleware.go:13-86 | the optional gate sets locals exactly when the required gate lets the request through, to the same claims |
| Auth.FromContext | internal/middleware/auth_middleware.go:102-117 | the room or identity local of the verified claims, "" when the gate set none |
| Auth.RequiredGateSetsRoom | internal/middleware/auth_middleware.go:44-50 | after the required gate the room from the context is the verified claim's room |
| LinkHandler.SendCustomMessage | internal/handler/link_handler.go:261-289 | message required, then mobile required, then a blank message rejected; success iff the mobile is given and the message not blank, echoing the mobile |
| LinkHandler.HlsLinkOptions | internal/handler/link_handler.go:111-115 | the HLS link is always of user type hls, whatever was requested |
| LinkHandler.ShareUserType | internal/handler/link_handler.go:186-190 | the user type defaults to guest |
| LinkHandler.LatLngOverwrites | internal/handler/link_handler.go:168-179 | a later position update overwrites an earlier one |
| LinkHandler.LastPointSuffices | internal/handler/link_handler.go:168-179 | applying every point in turn equals applying only the last one |
| LinkHandler.LinkHandler.MultiLatLng | internal/handler/link_handler.go:150-180 | only the last point is written; zero points write nothing and succeed with count 0 |
| LinkHandler.LinkHandler.GetShareURL | internal/handler/link_handler.go:184-200 | an empty room is 400 before any lookup; otherwise the share url for the defaulted user type, or a failure carrying the repository's error, the full scan error for a NULL linkID included |
| Sql.NullScan | internal/repository/link_repository.go:130-135 | scanning a NULL column into a Go string or int fails with `sql: Scan error on column index N, name "<column>": converting NULL to <kind> is unsupported` |
| LinkHandler.LinkHandler.CreateHLSLink | internal/handler/link_handler.go:99-121 | the created link has type hls and the request's room |
| FileService.Ext | internal/service/file_service.go:49 | the extension is the last dot-suffix of the name without a slash, empty when there is no dot |
| FileService.ExtOfSuffix | internal/service/file_service.go:49 | a name ending in .suffix has the extension .suffix |
| FileService.MimeType | internal/service/file_service.go:126-145 | the table entry for the lower-cased extension, application/octet-stream otherwise |
| FileService.MimeTypeIgnoresCase | internal/service/file_service.go:127-144 | the MIME type does not depend on the extension's case |
| FileService.JpegExtensions | internal/service/file_service.go:129-130 | .jpg and .jpeg in either case are image/jpeg |
| FileService.RecordFilename | internal/service/file_service.go:120-123 | the room, an underscore, the timestamp and .mp4 |
| FileService.RecordFilenameIsVideo | internal/service/file_service.go:120-145 | a record file name has extension .mp4 and type video/mp4 |
| FileService.Mp4IsVideo | internal/service/file_service.go:126-145 | .mp4 is video/mp4 |
| FileService.FileService.SaveFile | internal/service/file_service.go:42-91 | a size over the limit is refused before any effect, the limit itself accepted; the stored name is 16 alphanumerics plus the extension, with the path, MIME type and url built from it |
| FileService.FileService.SaveVideo | internal/service/file_service.go:94-96 | stores under videos, ignoring the room |
| FileService.FileService.SaveImage | internal/service/file_service.go:99-101 | stores under images |
| Helpers.Rand.Intn | pkg/utils/helpers.go:24-33 | one draw below n |
| Helpers.EffectiveCharset | pkg/utils/helpers.go:24-33 | an empty charset becomes the default one |
| Helpers.GenerateRandomString | pkg/utils/helpers.go:24-33 | exactly n characters, each from the effective charset |
| Helpers.GenerateRoomName | pkg/utils/helpers.go:36-38 | six ASCII letters |
| Helpers.LetterCharsetHalves | pkg/utils/helpers.go:36-38 | the letter charset is a-z then A-Z |
| Helpers.LetterCharsetIsLetters | pkg/utils/helpers.go:36-38 | every letter-charset character is an ASCII letter |
| Helpers.GenerateLinkID | pkg/utils/helpers.go:41-46 | six characters from the charset, never N or n with the default one |
| Helpers.DefaultCharsetRuns | pkg/utils/helpers.go:14 | the default charset is the alphabet in both cases with N and n dropped |
| Helpers.DefaultCharsetLacksN | pkg/utils/helpers.go:14 | the default charset lacks N and n |
| Helpers.GenerateIdentity | pkg/utils/helpers.go:49-51 | ten characters from the alphanumerics and $ |
| Helpers.GenerateViewerIdentity | pkg/utils/helpers.go:54-56 | viewer_ followed by an identity, 17 characters |
| Helpers.GenerateGuestName | pkg/utils/helpers.go:59-61 | Guest- and the decimal form of some n below 100 |
| Helpers.GenerateUserName | pkg/utils/helpers.go:64-66 | User- and the decimal form of a draw below 100 |
| Helpers.DecimalWidth | pkg/utils/helpers.go:59-66 | numbers below 100 have one or two digits |
| Helpers.NullStringValue | pkg/utils/helpers.go:95-100 | the string when valid, "" otherwise |
| Helpers.NullIntValue | pkg/utils/helpers.go:103-108 | the int32 when valid, 0 otherwise |
| Helpers.NullInt64Value | pkg/utils/helpers.go:111-116 | the int64 when valid, 0 otherwise |
| Helpers.NullBoolValue | pkg/utils/helpers.go:127-132 | true iff valid and true |
| Helpers.ToNullString | pkg/utils/helpers.go:143-148 | valid iff non-empty, and reading it back gives the string |
| Helpers.Int32Of | pkg/utils/helpers.go:151-156 | Go's int to int32 conversion wraps modulo 2^32 |
| Helpers.ToNullInt32 | pkg/utils/helpers.go:151-156 | always valid, holding the wrapped value |
| Helpers.NullInt32RoundTrip | pkg/utils/helpers.go:103-108 | reading back gives the value iff it is in int32 range |
| Helpers.ToNullBool | pkg/utils/helpers.go:167-172 | always valid, and reading it back gives the boolean |
| Config.Int64Of | internal/config/config.go:123 | a time.Duration product wraps into int64 range |
| Config.ParseInt | internal/config/config.go:165-172 | an accepted number is in int64 range, from a non-empty string, negative only with a minus sign |
| Config.ParseFormatInt | internal/config/config.go:165-172 | every int64's decimal form parses back to it |
| Config.ParseBool | internal/config/config.go:183-190 | the exact spellings strconv.ParseBool accepts |
| Config.ParseFormatBool | internal/config/config.go:183-190 | a formatted boolean parses back |
| Config.GetEnv | internal/config/config.go:158-163 | a set variable is returned even when empty, the default otherwise |
| Config.GetEnvAsInt | internal/config/config.go:165-172 | the parsed value, or the default when unset or unparsable |
| Config.GetEnvAsInt64 | internal/config/config.go:174-181 | the same rule as the int variant |
| Config.GetEnvAsBool | internal/config/config.go:183-190 | the parsed value, or the default when unset or unparsable |
| Config.GetEnvAsIntFormatted | internal/config/config.go:165-172 | a variable holding a number's decimal form reads back as that number |
| Config.WithDotEnv | internal/config/config.go:81 | the .env file adds variables but never overrides the process environment |
| Config.FromEnv | internal/config/config.go:78-146 | the join delay is the millisecond value as a wrapped Duration |
| Config.FromEmptyEnv | internal/config/config.go:78-146 | with no variables: port 5500, adapter DB 1, state DB 2, file limit 524288000, 365 days, egress limit 4, 5000 ms delay |
| Config.JoinDelayInMilliseconds | internal/config/config.go:123 | the join delay is the variable's value in milliseconds |
| Config.ConfigCache.Load | internal/config/config.go:78-146 | loads from the merged environment and caches it |
| Config.ConfigCache.Get | internal/config/config.go:149-154 | loads only when nothing is cached, otherwise returns the cached config |

## Left out

- Socket.IO transports, Emit/Join and the Fiber adapter are left out as external libraries. Broadcasts and publishes are entries in a ghost effect trace.
- Redis connections, the pub/sub listen goroutine, context cancellation and the mutexes are left out. The model is single-threaded; Redis replies are parameters.
- JSON encoding is a constructor pair whose round trip is proved (`EventManager.Marshal`). Byte-level JSON is not modelled.
- The SQL driver, `LastInsertId` and `RowsAffected` plumbing are not modelled. A statement's failure is a parameter, and a new row's id is the table's next counter.
- `ORDER BY dtmCreated DESC` is modelled as reverse insertion order. LIMIT and OFFSET are natural numbers, so MySQL's errors for negative values are not modelled.
- MySQL LIKE collation is modelled as ASCII case-insensitive containment.
- SQL `=` on strings is modelled as exact equality, while MySQL's default collation compares case-insensitively and ignores trailing spaces. Lookups by room, linkID or identity may therefore match more rows in MySQL than in the model.
- Columns the model's rows do not carry are not modelled: for example roomUserId, sms, accuracy and the patient coordinates of `link_connect`.
- GROUP BY results come in first-appearance order. `ORDER BY count DESC` is not applied.
- GetDailyStats and GetMonthlyStats are modelled by their statements only (`StatsRepo.DailyStatsStatement`, `StatsRepo.MonthlyStatsStatement`). Their date arithmetic belongs to the database.
- Latitude, longitude and accuracy are opaque reals. The accuracy column is not in the link row model.
- LiveKit SDK calls and JWT signing/verification are oracles. The signed token, egress start/list/stop answers and verified claims are parameters.
- `time.Now`, time formatting and day arithmetic are parameters (`now`, `addDays`). `math/rand` is the `Helpers.Rand` draw stream.
- Filesystem writes in SaveFile are a trace of MkdirAll/Create/Remove calls and their answers. Path joining is modelled without `filepath.Clean`.
- DeleteFile, FileExists, GetRecordPath and GetVideoList are left out. They are filesystem I/O with no decision.
- These repository operations are single pass-through statements and are left out:
  - car GetCarPosition, GetUserLatLng and Delete;
  - chat DeleteMessagesByRoom and GetMessageCount;
  - link UpdatePatientLocation, UpdateUserAgent, UpdateErrorLocation, UpdateErrorVideo, GetLinkIDList, GetLastLatLng, GetUserAgentBy* and GetLatLngGroup;
  - link UpdateLinkUserName, GetLinkDetailByRoomAndType and AutoLinkExpiredClose.
- The remaining HTTP handlers, cron scheduling, logging, the router, main and the case/radio/notification/usage-log repositories are left out. They are glue over the modelled services.
- The session key room:identity is not injective, so no lemma claims that sessions of distinct pairs are independent.
- StateManager.SocketStateManager: local mode keeps `*SocketState` pointers in its map, so a caller that changes a state after storing it changes the stored session too. The model stores state values, so that aliasing is not modelled.
- The local-mode set-then-get and remove-then-get round trips are not separate lemmas. They follow from the contracts of `StateManager.SocketStateManager.SetUserSession`, `GetUserSession` and `RemoveUserSession`, which state the exact new map.
- StatsRepo.GetDeviceStats, StatsRepo.GetTypeStats, StatsRepo.GetUserStats and StatsRepo.GetCaseStats: the `rows.Next()` loops that collect results are modelled as functions over the table.
- LinkService.LinkService.CreateLink: the returned link is stated only when the new link id is fresh and the lookup succeeds. A colliding id would return the older row.
- FileService.FileService.SaveFile: the error for a failed open or create is not stated beyond being an error, and the Remove after a failed copy is stated only for the three-call trace.
- Hub.Hub.Stop: requires a hub not yet stopped, because a second Stop closes an already-closed channel, which panics in Go.
- FileService.MimeType: lower-cases ASCII letters only, whereas Go's `strings.ToLower` also maps non-ASCII letters, so an extension such as `.ÀVI` is not recognised by the model.
- Helpers.GenerateRandomString: picks characters of the charset, whereas Go picks bytes of it (`charset[rand.Intn(len(charset))]`). The two agree for every ASCII charset, including the built-in ones, but differ for a caller's charset with multi-byte characters, which Go can split into invalid UTF-8.
- Hub.Hub.HandlePosition: the nil-context publish is modelled as an error the handler ignores. Whether the panic ends the process or the socket library recovers it is not modelled.
- UserService.UserService.GetUserDetail: when the query fails, the contract says only that no user is returned.

## Findings

| source | as written | input that shows it | evidently intended | confidence | as-written member | corrected member |
|---|---|---|---|---|---|---|
| internal/socket/hub.go:211 | the connection broadcast uses `room` as the namespace, but room namespaces are registered as "/"+room | any identity joining room "abc": the broadcast goes to namespace "abc", which is never registered | broadcast user-connection to "/"+room like every other room handler | not executed | Hub.Hub.HandleRoomConnection, Hub.ConnectionBroadcastNamespaceUnregistered | Hub.Hub.HandleRoomConnectionCorrected |
| internal/socket/hub.go:363 | the car position is published with a nil context, and the Redis client reads the context before sending PUBLISH | any car position while Redis is configured: the client dereferences the nil context and no other instance receives `agentCar` | publish with `context.Background()`, as the other handlers at hub.go:310, 345 and 405 do | not executed | Hub.Hub.HandlePosition, EventManager.NilContextNeverPublishes | Hub.Hub.HandlePositionCorrected |
| internal/repository/stats_repository.go:61-90 | SUM(CASE …) over zero rows is NULL, and scanning NULL into an int fails | GetSummary with service 5 when no room has service 5, or with an empty room_user table | the summary reports zero counts | not executed | StatsRepo.GetSummary, StatsRepo.RoomCounts, StatsRepo.SummaryOfServiceWithoutRooms | StatsRepo.GetSummaryCorrected, StatsRepo.RoomCountsCoalesced |
