# Tilemap Town server core in Dafny

This project models the session layer of the Tilemap Town server.

- **The per-connection `Client` session.** This covers:
  - its identity and account login;
  - its map membership and map transitions (`switch_map`);
  - its cached map permissions;
  - the riding graph of vehicles and passengers;
  - its timers and pending requests.
- **The server loop.**
  - The background tick (`mainTimer`) counts down requests, advances the idle and ping counters, unloads maps and runs the shutdown countdown.
  - Each pass of a connection's receive loop splits the frame, handles `IDN` and `PIN`, applies the placement gate and routes remote commands.
  - The teardown runs when a connection ends.

How the Python state is represented:

- **The registries.**
  - All Python `Client` objects and the server globals live in one class, `Server.Town`: `AllClients`, `AllMaps`, `BotWatch`, `ServerShutdown[0]`, the database and the event loop's running flag.
  - `clients` maps each client id to a `Session.Client` record.
  - `maps` maps each map id to a `Maps.GameMap` record.
  - Object references become ids: `vehicle`, `passengers`, `map`.
  - Each method of the Python `Client` becomes a `Town` method taking the id `c` of the client it runs on.
- **The riding graph** is kept symmetric: `u` rides `v` exactly when `u` is among `v`'s passengers.
  - A ghost rank makes it acyclic: a passenger ranks below its vehicle.
  - The rank is what lets the recursive `moveTo` and `switch_map` terminate.
- **The collaborators are parameters of the `Town`:**
  - the hex SHA-512 digest;
  - `filterUsername`;
  - JSON decoding;
  - the map loader behind `getMapById`;
  - `Map.has_permission`.
- **Effects the model records rather than performs:**
  - A send to a client adds the command code to that client's outbox.
  - `disconnect()` sets a close-requested flag.
  - `Map.save` adds the map id to a multiset of saves.
  - `Map.receive_command` appends a delivery to a log.

The invariant `Town.Valid()` (`World.Consistent`) says seven things:

- Clients are filed under their ids, all below the next id.
- The riding graph is linked on both sides and ranked.
- Riders are placed: a client that rides stands on a map, and so does its vehicle (`RidersPlaced`).
- Every client's map is loaded and lists it, and every map lists only clients standing on it.
- Teleport histories hold at most 20 entries.
- Every attached client is registered with the listener categories it records.
- The account table is keyed: rows are filed under their usernames, and every row id is below the next row id (`StoreKeyed`).

Every `Town` method that requires `Valid()` also ensures it. Four internal steps do not mention it: `UpdateMapPermissions`, `CollectIdle`, `DropMaps` and `SaveAll`. Their callers (`Enter`, `UnloadMaps`, `CountDown`) re-establish `Valid()` after calling them.

`mainTimer` re-arms only while `ServerShutdown[0] != 0` (pyserver/tilemaptown_server/server.py:71-72), so a tick at counter 0 is not scheduled again. `Ticks.ShutdownTick` and `Server.Town.Tick` report exactly that.

## Model

| member | source | states |
|---|---|---|
| Protocol.MakeCommand | pyserver/tilemaptown_server/buildclient.py:21-25 | Without a payload, the frame is the bare code. With one, the frame is the code, a space and the payload. |
| Protocol.SplitFrame | pyserver/tilemaptown_server/server.py:97-103 | A message is dropped exactly when it is shorter than 3 characters. The code is its first 3 characters. The payload is present exactly when the message is longer than 4 characters, and it is the text from offset 4. |
| Protocol.FrameRoundTrip | pyserver/tilemaptown_server/buildclient.py:21-25 | Splitting what `makeCommand` built for a 3-character code gives back that code and its payload. |
| Routing.Parse | pyserver/tilemaptown_server/server.py:97-103 | A message is ignored exactly when it is too short. It is undecodable exactly when the payload exists and `json.loads` raises. Otherwise the command is the first 3 characters, with a `None` argument when the message is at most 4 characters long. |
| Routing.ParseMadeCommand | pyserver/tilemaptown_server/server.py:97-103 | A frame made by `makeCommand` parses back to its code and the decoded payload. |
| Routing.Contains | pyserver/tilemaptown_server/server.py:123 | Python's `in` on a decoded payload: a key test on an object, an element test on a list. It raises on `None`, numbers and booleans. |
| Routing.ReadCredentials | pyserver/tilemaptown_server/server.py:106-109 | A `None` payload supplies no credentials. Only an object with string `username` and `password` supplies them. Any other payload makes the lookup raise. |
| Routing.RouteCommand | pyserver/tilemaptown_server/server.py:122-133 | A command goes to a remote map exactly when `remote_map` names a loaded map where the client has `map_bot`. A `remote_map` that is unloaded or lacks the permission is refused. Without the key, the command goes to the client's own map. A `None` payload raises. |
| Routing.StringPayloadRoute | pyserver/tilemaptown_server/server.py:123-133 | A string payload goes to the client's own map. It raises if it contains "remote_map", since indexing a string raises. |
| Routing.RoutedAuthorized | pyserver/tilemaptown_server/server.py:122-133 | Every delivery the router chooses is the client's own command, sent to its own map or to a loaded map where it holds `map_bot`. |
| Accounts.PasswordMatches | pyserver/tilemaptown_server/buildclient.py:400-413 | A stored value that splits into exactly two pieces at ':' is checked as salt and hash. Any other value is compared whole with the digest of the bare password. |
| Accounts.SaltedHashVerifies | pyserver/tilemaptown_server/buildclient.py:405-413 | A "salt:hash" value accepts exactly the passwords whose digest of password plus salt is the hash. |
| Accounts.ChangedPasswordVerifies | pyserver/tilemaptown_server/buildclient.py:371-375 | What `changepass` stores accepts the same password. It accepts another password exactly when the two salted digests coincide. |
| Accounts.LegacyHashVerifies | pyserver/tilemaptown_server/buildclient.py:401-404 | A colon-free legacy value accepts exactly the passwords whose bare digest it is. |
| Accounts.ManyColonsNeverVerify | pyserver/tilemaptown_server/buildclient.py:406-412 | A stored value with two or more colons is compared whole, so no password verifies against it. |
| Storage.CheckPassword | pyserver/tilemaptown_server/buildclient.py:397-414 | Algorithms other than "sha512" are not checked. A NULL hash raises. Otherwise the password is accepted exactly when `PasswordMatches` holds. |
| Storage.Saved | pyserver/tilemaptown_server/buildclient.py:252-265 | `save` writes the session's row under its username, holding its hash, name, map id, position, profile and tags. It creates the row if it is missing, with the next row id, and leaves every other row and both permission tables alone. |
| Storage.SavedKeyed | pyserver/tilemaptown_server/buildclient.py:256-260 | A known user keeps its row id. A new user gets a row id that no other row has. |
| Storage.SaveThenLoad | pyserver/tilemaptown_server/buildclient.py:388-427 | After `save` of a session with a salted hash, `load` accepts its password. It accepts exactly the passwords with the same salted digest, and gives back every saved field. |
| Session.SaveThenRestore | pyserver/tilemaptown_server/buildclient.py:416-427 | The fields `load` assigns from the row `save` wrote are the session's own identity, name, map id and position. |
| Permissions.OrInto | pyserver/tilemaptown_server/buildclient.py:123-126 | The group loop ORs every row's allow bits into the mask it starts from. |
| Permissions.OrAllPermutation | pyserver/tilemaptown_server/buildclient.py:124-126 | The order in which the group rows come back does not change the result. |
| Permissions.MapPermissions | pyserver/tilemaptown_server/buildclient.py:108-126 | A guest gets zero allow and zero deny. The deny mask is the direct row's deny, or zero without a row. Group grants never touch it. |
| Permissions.MapPermissionsCovers | pyserver/tilemaptown_server/buildclient.py:119-126 | A user's allow mask holds the direct allow bits and every group's allow bits. |
| Permissions.MapPermissionsLeast | pyserver/tilemaptown_server/buildclient.py:119-126 | A user's allow mask holds no other bits: any mask with all those bits covers it. |
| Permissions.PermissionByName | pyserver/tilemaptown_server/buildclient.py:128-133 | A name is found exactly when its lower-cased form is in the permission table, and the flag is that entry's. |
| Permissions.PermissionByNameIgnoresCase | pyserver/tilemaptown_server/buildclient.py:128-131 | A lookup gives the same answer for a name and its lower-cased form. |
| Session.NewClient | pyserver/tilemaptown_server/buildclient.py:30-73 | A fresh session is on no map with map id -1 and is a guest. Its ping counter is 180 and its idle counter 0. It rides nothing and carries nobody, with empty history, requests and listeners. |
| Session.Send | pyserver/tilemaptown_server/buildclient.py:75-79 | A send queues the code when the socket is still referenced and does nothing after cleanup. |
| Session.UsernameOrId | pyserver/tilemaptown_server/buildclient.py:238-239 | Gives the username when it is non-empty, otherwise the decimal id, and never an empty string. |
| Session.NameAndUsername | pyserver/tilemaptown_server/buildclient.py:241-242 | The display string is the name, then " (", then the username or id, then ")". |
| Session.BanListMonotone | pyserver/tilemaptown_server/buildclient.py:141-148 | A longer ban list refuses everyone a shorter one refuses. |
| Session.GuestsEntryConcernsGuestsOnly | pyserver/tilemaptown_server/buildclient.py:142-145 | The "!guests" entry decides the verdict for a guest and for no user not literally named "!guests". Names in the list never refuse a guest. |
| Session.TagRoundTrip | pyserver/tilemaptown_server/buildclient.py:244-250 | A tag reads back as it was set. Setting one tag leaves the others as they were. |
| Session.GuestPassesOwnerTestOnUnownedMap | pyserver/tilemaptown_server/buildclient.py:197-199 | The owner test compares `None` with `None`, so a guest passes it on a map with no owner. |
| Session.OwnerTestMeaning | pyserver/tilemaptown_server/buildclient.py:197-202 | The registered owner of the map always passes. Anyone else passes exactly by the operator override or, when admins are accepted, by holding admin. Accepting admins never refuses anyone. |
| Session.RecordedMeaning | pyserver/tilemaptown_server/buildclient.py:269-274 | The history changes only when history is requested, the client is placed and the target differs. Then the position left is appended and the oldest entry dropped beyond 20. The length never exceeds 20. |
| Riding.NoSelfRide | pyserver/tilemaptown_server/buildclient.py:152-153 | Nobody rides itself or carries itself. |
| Riding.NoRidingCycle | pyserver/tilemaptown_server/buildclient.py:150-173 | Following vehicle references one or more times never leads back to the start. |
| Riding.PassengerGroupsDisjoint | pyserver/tilemaptown_server/buildclient.py:211-215 | Two passengers of one vehicle carry disjoint groups, so the recursive moves never touch a client twice. |
| Riding.WhoIsSymmetric | pyserver/tilemaptown_server/buildclient.py:218-230 | In the WHO reports, `u` names `v` as its vehicle exactly when `v` lists `u` among its passengers. |
| Maps.Resident | pyserver/tilemaptown_server/buildclient.py:278 | `getMapById` keeps every loaded map and adds a newly loaded one with no users. |
| Maps.UnloadedMeaning | pyserver/tilemaptown_server/server.py:49-58 | A map stays loaded exactly when it is pinned or has users. Every client's map therefore stays loaded. |
| Maps.IdleRemoved | pyserver/tilemaptown_server/server.py:50-58 | The maps collected as unused are exactly the ones removed. |
| Ticks.RequestsExpire | pyserver/tilemaptown_server/server.py:32-38 | After n ticks a request is pending exactly when its timer started at n or more, and its timer is then n less. A request starting at t is removed on tick t+1. |
| Ticks.TickedMeaning | pyserver/tilemaptown_server/server.py:30-47 | A tick changes a client only in its requests and its connection counters. |
| Ticks.PingCycle | pyserver/tilemaptown_server/server.py:40-47 | After n ticks the ping counter is n lower and the idle counter n higher. A disconnect is requested exactly when the counter went below zero. One ping is sent per mark (60, 30) passed. |
| Ticks.PingTimeoutAfterReset | pyserver/tilemaptown_server/server.py:115-116 | After a `PIN` reset to 300, the client is pinged twice. It is not dropped in the next 300 ticks and is dropped on the 301st. |
| Ticks.ShutdownTick | pyserver/tilemaptown_server/server.py:60-72 | A positive counter is decremented: reaching 1 warns, reaching 0 stops. A counter that is not positive is unchanged. The tick re-arms exactly when the counter is non-zero. |
| Ticks.ShutdownCountdown | pyserver/tilemaptown_server/server.py:60-72 | From s, the counter reads s - n. The final warning comes on tick s - 1 and the stop on tick s. Nothing re-arms after that. |
| Moving.MoveGroup | pyserver/tilemaptown_server/buildclient.py:204-216 | `moveTo` puts the client at (x, y). A following passenger goes to where its vehicle stood, any other passenger to where its vehicle went, recursively. Nobody outside the carried group changes. |
| Moving.MovePassenger | pyserver/tilemaptown_server/buildclient.py:211-215 | One turn of the passenger loop moves that passenger's whole group and keeps the groups moved before. |
| Switching.LandedMeaning | pyserver/tilemaptown_server/buildclient.py:267-316 | An admitted switch leaves the client on the target at its destination, with history as `Recorded` says. Its map id and permission cache change exactly when the map changed. Its riding, identity and listeners are untouched. |
| Switching.SwitchDenied | pyserver/tilemaptown_server/buildclient.py:276-281 | A refused switch only records the history and sends an error. The client keeps its map and map id. The target map is only made resident, so no map's users change. |
| Switching.SwitchArrived | pyserver/tilemaptown_server/buildclient.py:283-316 | Recording, entering unless already there, moving and switching the passengers together are what `switch_map` promises (`Switched`). The client lands as `Landed` says. Each direct passenger, starting from where the vehicle's move left it, is switched exactly as `Followed` says, with its own permission cache. Everything the client carries is `Swept`, and nothing outside its group changes. |
| Switching.FollowedSwept | pyserver/tilemaptown_server/buildclient.py:314-315 | A switched passenger changes only its position, map, map id, permission cache, history and outbox, and its outbox only grows. An admitted passenger stands on the target at the vehicle's position. A refused one keeps its map and map id. |
| Switching.GroupMovedTrailed | pyserver/tilemaptown_server/buildclient.py:204-216 | After `moveTo`, a following passenger stands where its vehicle stood, and any other passenger where its vehicle went. |
| Logins.SwitchPlaces | pyserver/tilemaptown_server/server.py:110-111 | After a switch, the client is on the target exactly when it was admitted, and otherwise where it was. Its connection is untouched. |
| Logins.StayingSwitch | pyserver/tilemaptown_server/buildclient.py:342 | `switch_map(self.map_id, goto_spawn=False)` keeps the account fields and position and places the client as admitted. |
| Logins.SwitchSentToSpawn | pyserver/tilemaptown_server/server.py:110-111 | `switch_map(0)` places the client as `Placed` says, keeps the loaded maps once map 0 is resident, and puts an admitted client at map 0's spawn point. |
| Logins.WelcomedAfter | pyserver/tilemaptown_server/buildclient.py:339-364 | An accepted login holds the account's fields and is on its saved map exactly when that map admits it. It raises exactly when it is left on no map, and otherwise ends with the inventory message. |
| Release.LetOutMeaning | pyserver/tilemaptown_server/buildclient.py:160-162 | Once every passenger is let out, the vehicle carries nobody and each former passenger rides nothing. Each is told, and nobody moved. |
| Release.UnwatchedMeaning | pyserver/tilemaptown_server/buildclient.py:332-333 | Removing the listener entries takes the client out of every recorded category and leaves all other entries alone. |
| Rides.RideComposed | pyserver/tilemaptown_server/buildclient.py:150-173 | Unburdening, boarding and the switch give `Rode`. The edge is on both sides and the rider carries nobody. The rider's whole record is the boarded rider (`BoardedRider`) switched to the vehicle's map and position as `Followed` says. It is at the vehicle's position when admitted, and the edge stays even if the switch is denied. |
| Rides.CleanedUp | pyserver/tilemaptown_server/buildclient.py:325-331 | After `cleanup` the client is detached, rides nothing and carries nobody. Its former vehicle no longer lists it and its former passengers ride nothing. |
| World.UnmountedKeepsConsistent | pyserver/tilemaptown_server/buildclient.py:182-185 | Clearing a riding edge on both sides keeps the registry invariant. |
| World.MountedKeepsConsistent | pyserver/tilemaptown_server/buildclient.py:167-168 | Recording an edge from a rider with no passengers keeps the invariant, with the rider moved to the lowest rank. |
| World.EnterKeepsConsistent | pyserver/tilemaptown_server/buildclient.py:283-296 | Moving a client out of its map's users and into the target's keeps the invariant. |
| World.UnloadedKeepsConsistent | pyserver/tilemaptown_server/server.py:50-58 | Unloading the unpinned maps nobody is on keeps the invariant. |
| World.ConnectedKeepsConsistent | pyserver/tilemaptown_server/server.py:76-91 | A new connection with the next id keeps the invariant. |
| World.RemovedKeepsConsistent | pyserver/tilemaptown_server/server.py:148-151 | Removing a client that rides and carries nobody from its map and the registry keeps the invariant. |
| World.NoneRefersTo | pyserver/tilemaptown_server/server.py:143-151 | Once a client is out of a consistent registry, no client rides or carries it and no map lists it. |
| Server.Town.constructor | pyserver/tilemaptown_server/server.py:155-164 | The server starts with no clients and no maps, running, with the first id 1. |
| Server.Town.Tell | pyserver/tilemaptown_server/buildclient.py:75-79 | Only the client's outbox changes, as `Send` says. |
| Server.Town.CheckBanList | pyserver/tilemaptown_server/buildclient.py:141-148 | The answer is `InBanList` of the session's username. A refused client is sent an error, and nothing else changes. |
| Server.Town.LookUpPermission | pyserver/tilemaptown_server/buildclient.py:128-133 | The answer is `PermissionByName`. A name that is not found sends an error, and nothing else changes. |
| Server.Town.CheckOwner | pyserver/tilemaptown_server/buildclient.py:197-202 | The answer is `MustBeOwner` for the client's map, its owner and the map's admin grant. A refused client is sent an error exactly when `giveError` is set, and nothing else changes. |
| Server.Town.Dismount | pyserver/tilemaptown_server/buildclient.py:175-188 | With no vehicle, only an error is sent. Otherwise the edge is cleared on both sides and both parties are told. |
| Server.Town.LetOutPassengers | pyserver/tilemaptown_server/buildclient.py:160-162 | Every passenger in the snapshot dismounts, as `LetOut` says. |
| Server.Town.Unburden | pyserver/tilemaptown_server/buildclient.py:155-162 | The rider leaves its vehicle and lets out its passengers, as `Unburdened` says. Each former passenger is told once and rides nothing. The former vehicle is told once and no longer lists the rider. Every other client is unchanged. The rider is told once per step, as `UnburdenNotes` says. |
| Server.Town.Board | pyserver/tilemaptown_server/buildclient.py:164-168 | Both parties are told, and the edge is recorded on both sides. |
| Server.Town.Ride | pyserver/tilemaptown_server/buildclient.py:150-173 | Riding oneself does nothing. Otherwise the result is `Rode`, decided by whether the vehicle's map admits the rider. The rider's whole record is as `Followed` says of the unburdened, boarded rider. The vehicle is told and lists the rider. Former passengers and the former vehicle are as `Freed` says, and every other client is unchanged. The loaded maps keep their identity once the vehicle's map is resident. |
| Server.Town.Embark | pyserver/tilemaptown_server/buildclient.py:164-173 | After unburdening, boarding and the switch to the vehicle's map and position give `Rode`, with the rider's whole record and the loaded maps stated as for `Ride`. |
| Server.Town.Follow | pyserver/tilemaptown_server/buildclient.py:173 | The boarded rider, which carries only itself, switches to the vehicle's map and position. The outcome is `Rode`: the rider's record is as `Followed` says, so it is at that position when the map admits it, and the edge stays either way. The loaded maps keep their identity once the vehicle's map is resident. |
| Server.Town.Cleanup | pyserver/tilemaptown_server/buildclient.py:325-333 | The client is detached and unburdened and was told nothing. Former passengers and the former vehicle are told once, and every other client is unchanged. The client is removed from every listener category it recorded. |
| Server.Town.Unseat | pyserver/tilemaptown_server/buildclient.py:326-331 | The socket reference is dropped, then the client is unburdened as `Unburdened` says. Its own record changes only in its riding fields and attachment. |
| Server.Town.Detach | pyserver/tilemaptown_server/buildclient.py:326 | Only the client's socket reference is dropped. |
| Server.Town.Unlisten | pyserver/tilemaptown_server/buildclient.py:332-333 | The listener table becomes `Unwatched`. |
| Server.Town.MoveTo | pyserver/tilemaptown_server/buildclient.py:204-216 | The registry changes as `GroupMoved` says. |
| Server.Town.UpdateMapPermissions | pyserver/tilemaptown_server/buildclient.py:108-126 | Only the client's permission cache changes, to the value computed for its account and map id. |
| Server.Town.Enter | pyserver/tilemaptown_server/buildclient.py:283-303 | The client leaves its old map's users and joins the target's. It takes the target's map id and permission cache and is sent the map, with the listener warning when chat is watched. |
| Server.Town.SwitchMap | pyserver/tilemaptown_server/buildclient.py:267-316 | The outcome is `Switched`. Admission is decided before any occupancy change. A refusal changes only history and outbox. An admission lands the client, and each direct passenger is switched exactly as `Followed` says. Every client it carries changes only as `Swept` allows, and nobody outside its group changes. |
| Server.Town.SwitchAway | pyserver/tilemaptown_server/buildclient.py:276-316 | For a client not on the target, the outcome is as `Switched` says, including each passenger's `Followed` record and the `Swept` frame. |
| Server.Town.SwitchWithin | pyserver/tilemaptown_server/buildclient.py:305-316 | A client already on the target skips leave and enter. The result is True, and the outcome is `Switched`, with the passengers and the frame as for `SwitchMap`. |
| Server.Town.Land | pyserver/tilemaptown_server/buildclient.py:305-316 | The tail of an admitted switch completes `Switched` with a True result, with each passenger `Followed` and everything carried `Swept`. |
| Server.Town.Record | pyserver/tilemaptown_server/buildclient.py:269-274 | Only the client's history changes, as `Recorded` says. |
| Server.Town.Admit | pyserver/tilemaptown_server/buildclient.py:276-296 | The result is the entry permission. A refusal leaves occupancy unchanged and sends an error. An admission enters the map. |
| Server.Town.Arrive | pyserver/tilemaptown_server/buildclient.py:305-316 | The client moves to its destination. Each direct passenger is switched as `Followed` says from where `Trailed` put it. Everything carried is `Swept`. |
| Server.Town.Approach | pyserver/tilemaptown_server/buildclient.py:305-311 | The client moves to `newPos`, else to the spawn point when `goto_spawn`, else nowhere. Its passengers are where `Trailed` puts them, and only positions change. |
| Server.Town.SwitchPassengers | pyserver/tilemaptown_server/buildclient.py:314-315 | Each passenger is switched to the target at the vehicle's position, exactly as `Followed` says. Everything the vehicle carries is `Swept`, the vehicle is unchanged, and only its group changes. |
| Server.Town.SwitchPassenger | pyserver/tilemaptown_server/buildclient.py:314-315 | One turn of the passenger loop: that passenger is switched as `Followed` says, and the loop's frame and `Swept` facts are kept. |
| Server.Town.Tick | pyserver/tilemaptown_server/server.py:25-72 | Every client ticks, the unpinned empty maps are saved once and unloaded, and the counter steps as `ShutdownTick` says. The final warning disconnects every client and saves every map. The tick re-arms exactly when the counter is non-zero. |
| Server.Town.TickClients | pyserver/tilemaptown_server/server.py:30-47 | Every client ticks once. |
| Server.Town.UnloadMaps | pyserver/tilemaptown_server/server.py:50-58 | The maps become `Unloaded`, and each removed map is saved once. |
| Server.Town.CollectIdle | pyserver/tilemaptown_server/server.py:50-56 | It returns exactly the unpinned maps with no users, and saves each once. |
| Server.Town.DropMaps | pyserver/tilemaptown_server/server.py:57-58 | Exactly the collected maps are removed. |
| Server.Town.CountDown | pyserver/tilemaptown_server/server.py:60-72 | The counter and running flag step as `ShutdownTick` says. The final warning closes every client and saves every map. Otherwise nothing else changes. |
| Server.Town.CloseAll | pyserver/tilemaptown_server/server.py:65-66 | Every client is asked to disconnect. |
| Server.Town.SaveAll | pyserver/tilemaptown_server/server.py:67-68 | Every loaded map is saved once. |
| Server.Town.Save | pyserver/tilemaptown_server/buildclient.py:252-265 | The tables become `Saved`. The session learns its row id, which is kept for a known user and fresh for a new one. |
| Server.Town.ChangePass | pyserver/tilemaptown_server/buildclient.py:371-376 | The stored hash becomes "salt:digest" and the session is saved. `load` then accepts the password. |
| Server.Town.Register | pyserver/tilemaptown_server/buildclient.py:378-386 | It succeeds exactly when the filtered name is unused; a failure changes nothing. On success the session takes the name and a salted hash, the tables become `Saved`, every other client is unchanged, and the fresh row accepts the password. |
| Server.Town.LoadAccount | pyserver/tilemaptown_server/buildclient.py:416-427 | The session takes the account row's fields. |
| Server.Town.Login | pyserver/tilemaptown_server/buildclient.py:335-369 | An unknown account or bad password sends an error and changes nothing else. A NULL hash raises with nothing changed. An accepted password ends as `Welcomed`, with the maps kept once the saved map is resident. Only the client and what it carries change. |
| Server.Town.Welcome | pyserver/tilemaptown_server/buildclient.py:339-364 | The accepted branch ends as `Welcomed`: logged in, or raised when left on no map. Only the client and what it carries change, and the loaded maps keep their identity. |
| Server.Town.Reopen | pyserver/tilemaptown_server/buildclient.py:338-342 | The account row is loaded into the session, which then switches to its own map id as `Resumed` says. Only the client and what it carries change. |
| Server.Town.Conclude | pyserver/tilemaptown_server/buildclient.py:343-364 | A session left on no map raises. Otherwise it is sent its inventory and logged in. The result is `Welcomed`. |
| Server.Town.Resume | pyserver/tilemaptown_server/buildclient.py:342 | The session switches to its own map id without moving. The outcome is `Switched`, so the history, greeting, passengers (`Followed`) and frame (`Swept`) are stated, and `Resumed` holds. |
| Server.Town.Pong | pyserver/tilemaptown_server/server.py:115-116 | Only the ping counter changes, to 300. |
| Server.Town.Fallback | pyserver/tilemaptown_server/server.py:110-111 | The outcome of `switch_map(0)` is `Switched`, with each passenger `Followed` and everything carried `Swept`. An admitted client stands at map 0's spawn point, as `SentToSpawn` says. |
| Server.Town.Greet | pyserver/tilemaptown_server/server.py:112-114 | Only the client's outbox changes: the message of the day when non-empty, then the user count. |
| Server.Town.Identify | pyserver/tilemaptown_server/server.py:106-114 | The outcome is `Identified`. Unreadable credentials or a NULL hash end the loop with nothing changed. No credentials or a refused login send the client to map 0's spawn point when admitted. An accepted password restores the account and ends the loop exactly when the client is left on no map. The client is logged in exactly when the password was accepted and the loop goes on. |
| Server.Town.Authenticate | pyserver/tilemaptown_server/server.py:108-114 | `IDN` with credentials ends as `LoggedInto` says, and only the client and what it carries change. |
| Server.Town.SignIn | pyserver/tilemaptown_server/server.py:108-110 | A refusal only sends an error. A NULL hash raises with nothing changed. An accepted password restores the account, and it raises exactly when that leaves the client on no map. |
| Server.Town.Settle | pyserver/tilemaptown_server/server.py:110-114 | A client that did not log in goes to map 0, as `SentToSpawn` says. A logged-in client only receives the greeting. Only the client and what it carries change. |
| Server.Town.Dispatch | pyserver/tilemaptown_server/server.py:122-133 | The command is forwarded, refused with an error or raises, exactly as `RouteCommand` says. `Dispatched` states this. |
| Server.Town.Receive | pyserver/tilemaptown_server/server.py:93-133 | Short messages are skipped, and undecodable ones end the loop. `IDN` ends as `Identified` says, and `PIN` resets the counter. While the map id is -1 no command reaches a map. Otherwise every other command is `Dispatched` along `RouteCommand`. Every forwarded command is authorized and is not `IDN` or `PIN`. |
| Server.Town.Teardown | pyserver/tilemaptown_server/server.py:143-151 | Cleanup runs, then a save when there is a username. The client leaves its map and the registry. The remaining clients are exactly as `Freed` says: former passengers and the former vehicle told once, everyone else unchanged. |
| Server.Town.Retire | pyserver/tilemaptown_server/server.py:143-145 | The client is unburdened, which frames every other client, and unwatched. The tables are saved exactly when there is a non-empty username. |
| Server.Town.Forget | pyserver/tilemaptown_server/server.py:148-151 | The client leaves its map's users and the registry. |
| Server.Town.Connect | pyserver/tilemaptown_server/server.py:76-91 | A fresh client with the next id joins the registry. |

## Left out

- Message texts and broadcasts (`Map.broadcast`, `broadcastToAll`, the WHO/MOV/MSG updates to other users) are not modelled. Only the command code of each send to a client is kept.
- The inventory is reduced to the single `BAG` send. The mail (`EML`) is not modelled, because both are database query plumbing.
- `testServerBanned` and the `X-Real-IP` handling are not modelled. They depend on SQL wildcard matching, wall-clock time and request headers.
- `failedToFind`, `mustBeServerAdmin`, `send_home` and `disconnect`'s message text are not modelled. They only send messages or read the configuration. `disconnect` itself is the close-requested flag.
- The websocket transport (`recv`, `send` futures, `ws.close`), the event loop, `call_later` and `main` are left out. The tick reports whether it re-arms, and the loop has a running flag.
- SHA-512, `random.random()`, `filterUsername`, `json.loads`/`json.dumps`, `getMapById`'s file loading and `Map.has_permission` are parameters. The only assumption about the digest is that it yields 128 lower-case hex digits. The salt is an argument, assumed colon-free like `str(random.random())`.
- JSON is abstract: serialized profile fields (picture, home, watch and ignore lists, client settings) are one opaque string.
- Routing.RouteCommand: a `remote_map` that is a float or a boolean is treated as raising. Python would hash it like an integer.
- Routing.ReadCredentials: a `username` or `password` that is not a string is treated as raising. What `filterUsername` does with a non-string username is not known here. For a non-string password Python raises only in one case: the account exists and uses "sha512", where `password+salt` fails (buildclient.py:412). An unknown account makes `load` return None before the password is used (buildclient.py:394-395), so the client gets an error and falls back to `switch_map(0)`. An account with another algorithm skips the check (buildclient.py:400), so the login succeeds. The model does not follow these two cases.
- Server.Town.Ride requires both clients to be on a map, since the Python code dereferences both maps.
- Server.Town.CheckOwner requires the client to be on a map, since `mustBeOwner` reads `self.map.owner`. Session.MustBeOwner is the test without the error send, which Server.Town.CheckOwner adds.
- Server.Town.Cleanup and Server.Town.Teardown require the socket to still be attached. A second `cleanup` would remove listener entries that are gone and raise.
- Session.Persist: the row does not hold the `regtime` that `save` writes when it creates a row, nor the `lastseen` it writes on every save (buildclient.py:258, 263-264). Both are wall-clock timestamps.
- Server.Town.Save and Server.Town.ChangePass require a username, since `save` on a guest would insert a row without one.
- Map internals (`map_info`, `map_section`, `who`, `save`, `clean_up`, `receive_command`) are recorded, not performed: a `saves` multiset and a `forwarded` log.
- The order in which Python iterates sets and dicts (passengers, clients, maps) is abstracted: each loop picks any remaining element. Where order matters for the final state, the contracts hold for every order.
- `get_tag`'s default argument is a parameter.
- Permissions.Lower: lower-casing covers ASCII letters only. Python's `str.lower` is Unicode-aware (for example, U+212A KELVIN SIGN lowers to 'k'), so a non-ASCII permission name may be found by the server and missed by the model.
- The logging and traceback printing of the receive loop are left out.

