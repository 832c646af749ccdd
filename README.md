# A verified model of the WOS naval game's logic core

This project models, in Dafny, the parts of the WOS naval game (a Unity game built on Mirror networking) and its ASP.NET backend
that hold decisions rather than rendering: the client's server-address book, the join menu and
the server browser, the dedicated-server launcher, the network manager's spawn points, the
ship's command state, the menu panel switcher, the ocean tile manager that follows the camera,
the environment level-of-detail controller, the harbour configuration objects (port, docking,
cargo, port services and port integration), the debug logger, and on the backend the account
endpoints and the server list built from the hosting provider's deployments.

Each C# file of the core is one module. Where the C# object keeps state and its methods update
fields (the address book, the join menu, the launcher, the spawn manager, the ship controller,
the menus, the tile manager, the LOD manager, the logger and the configuration assets), the
module holds a `class` with those fields. Each method's postcondition states the fields it
writes in terms of their old values; its `modifies` clause keeps every other field as it was.
Where a postcondition is weaker than that, "## Left out" says so. Parsers, validators, filters and queries are functions. Each function is tied
by lemmas to a partner: an inverse, a reference definition, or an invariant. Loops over lists
are methods proved against a function that specifies them.

Shared helpers:
- `Wrappers` holds `Option`. A C# `null` result becomes `None`.
- `Strings` holds ASCII versions of `Trim`, `ToLower`, `StartsWith`, `Contains`, `IndexOf`,
  `Split(char)` and `string.Join`.
- `Numbers` holds `int.TryParse` and `ushort.TryParse` as explicit digit-string parsers,
  decimal formatting, and C#'s truncating integer division.
- `Mathf` holds Unity's clamps, minimum and maximum.

Unity `float`s are modelled as `real`. Scene objects are modelled as small classes or integer
ids. Clocks, random choices, HTTP answers and player-preference storage are parameters of the
operations that use them.

## Model

| member | source | states |
|---|---|---|
| Auth.RegistrationError | Backend/EdgegapProxy/Controllers/AuthController.cs:37-63 | the registration checks fire in source order: blank username, length outside 3..50, characters other than letters, digits and '_', blank password, password length outside 8..64; `None` exactly when all pass |
| Auth.ValidUsernameNotBlank | Backend/EdgegapProxy/Controllers/AuthController.cs:202-205 | a non-empty username of allowed characters is never blank, so the blank check cannot reject it |
| Auth.Register | Backend/EdgegapProxy/Controllers/AuthController.cs:32-103 | 400 with the first failing check; 409 exactly when the checks pass and the username is taken; 201 with the new account's id, name and the token exactly when it is free and creation succeeds; 500 "Failed to create account" when creation fails; 500 "Internal server error" when the database, the hash or the token service throws |
| Auth.Login | Backend/EdgegapProxy/Controllers/AuthController.cs:110-156 | 400 when username or password is blank; 500 "Internal server error" when a lookup or the token service throws; otherwise 200 with the account's id, its username and the token exactly when the account exists and the password matches; every 401 says "Invalid credentials" |
| Auth.LoginHidesUnknownUser | Backend/EdgegapProxy/Controllers/AuthController.cs:122-134 | an unknown username and a wrong password get the same 401 answer |
| Auth.Validate | Backend/EdgegapProxy/Controllers/AuthController.cs:164-197 | without the "Bearer " prefix the answer is 401 "No token provided"; with it, 500 "Internal server error" when the token service throws, otherwise 200 with a validation response (valid, player id, username) exactly when the check of the trimmed rest of the header is valid and names both, and 401 "Invalid token" in every other case |
| CargoItems.CargoItemType.constructor | Assets/ScriptableObjects/Configs/Ships/CargoItemTypeSO.cs:11-49 | a new definition holds the given size, weight and rotation flag, with the asset's default name and category |
| CargoItems.CargoItemType.GetArea | Assets/ScriptableObjects/Configs/Ships/CargoItemTypeSO.cs:92-95 | the covered area is not negative for a non-negative size, and at least each side for a size of at least one |
| CargoItems.CargoItemType.GetTotalWeight | Assets/ScriptableObjects/Configs/Ships/CargoItemTypeSO.cs:84-87 | an item of non-negative size and unit weight never weighs less than nothing, and one covering no cell weighs nothing |
| CargoItems.CargoItemType.TotalWeightIsCellSum | Assets/ScriptableObjects/Configs/Ships/CargoItemTypeSO.cs:84-103 | the total weight is the sum of the unit weight over every cell the item covers, in either orientation |
| CargoItems.CellLoadIs | Assets/ScriptableObjects/Configs/Ships/CargoItemTypeSO.cs:84-87 | a block of cells summed cell by cell weighs its cell count times the unit weight |
| CargoItems.CargoItemType.GetRotatedDimensions | Assets/ScriptableObjects/Configs/Ships/CargoItemTypeSO.cs:100-103 | the result holds the same two sides; they are swapped exactly when rotation is asked for and allowed |
| CargoItems.CargoItemType.RotationKeepsArea | Assets/ScriptableObjects/Configs/Ships/CargoItemTypeSO.cs:92-103 | turning an item never changes the area it covers |
| CargoConfig.CountInBandIs | Assets/ScriptableObjects/Configs/Ships/CargoConfigurationSO.cs:143-147 | of the first n cells on an axis, those inside the border are counted in closed form |
| CargoConfig.CountValidCellsIs | Assets/ScriptableObjects/Configs/Ships/CargoConfigurationSO.cs:143-147 | the valid cells of the grid are counted in closed form, row by row |
| CargoConfig.CargoConfiguration.constructor | Assets/ScriptableObjects/Configs/Ships/CargoConfigurationSO.cs:14-57 | the asset's defaults: a 12 by 10 grid, a border of 1, 500 tons |
| CargoConfig.CargoConfiguration.GetTotalGridArea | Assets/ScriptableObjects/Configs/Ships/CargoConfigurationSO.cs:105-108 | the grid area is not negative, and at least each side for a non-empty grid |
| CargoConfig.CargoConfiguration.TotalAreaCountsCells | Assets/ScriptableObjects/Configs/Ships/CargoConfigurationSO.cs:105-118 | the total area is the number of cells of the grid (the valid positions with no border), and a border that leaves room keeps the usable area within it |
| CargoConfig.CargoConfiguration.GetUsableGridArea | Assets/ScriptableObjects/Configs/Ships/CargoConfigurationSO.cs:113-118 | the usable area is at least 1, and is exactly the inner rectangle when the border leaves room |
| CargoConfig.CargoConfiguration.IsValidGridPosition | Assets/ScriptableObjects/Configs/Ships/CargoConfigurationSO.cs:143-147 | a valid position exists only when the border leaves an inner column and row, and with a non-negative border every valid position lies on the grid |
| CargoConfig.CargoConfiguration.UsableAreaCountsValidPositions | Assets/ScriptableObjects/Configs/Ships/CargoConfigurationSO.cs:113-118 | when the border leaves room, the usable area equals the number of valid grid positions |
| CargoConfig.CargoConfiguration.CanAddWeight | Assets/ScriptableObjects/Configs/Ships/CargoConfigurationSO.cs:199-202 | a hold already over capacity takes no further non-negative weight; a hold within capacity can always give weight up |
| CargoConfig.CargoConfiguration.GuardedLoadingStaysWithinCapacity | Assets/ScriptableObjects/Configs/Ships/CargoConfigurationSO.cs:196-202 | loads taken one after another, each only when CanAddWeight allows it, never take a hold that starts within capacity past its capacity |
| CargoConfig.CargoConfiguration.GetCargoType | Assets/ScriptableObjects/Configs/Ships/CargoConfigurationSO.cs:207-215 | a found definition is the first entry with that id; "missing" means every entry is a definition with another id; the walk fails on a null table or on a null entry before any match |
| CargoConfig.CargoConfiguration.OnValidate | Assets/ScriptableObjects/Configs/Ships/CargoConfigurationSO.cs:217-233 | the grid becomes at least 4 by 4 and the border leaves an inner row and column; each definition's id becomes the last slot that holds it, which is its own slot when no definition appears twice |
| DebugLog.DebugSettings.constructor | Assets/Scripts/Debugging/DebugManager.cs:394-412 | ship, ocean, environment, performance, system and economy start switched on and the other six categories off |
| DebugLog.DebugSettings.AllSwitches | Assets/Scripts/Debugging/DebugManager.cs:394-412 | when all twelve switches hold the same value, every category reads that value |
| DebugLog.DebugSettings.EnableAll | Assets/Scripts/Debugging/DebugManager.cs:414-428 | afterwards every category is enabled |
| DebugLog.DebugSettings.DisableAll | Assets/Scripts/Debugging/DebugManager.cs:430-444 | afterwards no category is enabled |
| DebugLog.DebugSettings.CountEnabled | Assets/Scripts/Debugging/DebugManager.cs:303-311 | the count of enabled categories in a list never exceeds the list's length |
| DebugLog.DebugSettings.CountedWhenEnabled | Assets/Scripts/Debugging/DebugManager.cs:303-311 | an enabled category of a list is counted, and a count equal to the list's length means every category in it is enabled |
| DebugLog.CountAllOrNone | Assets/Scripts/Debugging/DebugManager.cs:303-311 | with every switch on, all listed categories are counted; with every switch off, none are |
| DebugLog.DebugManager.constructor | Assets/Scripts/Debugging/DebugManager.cs:19-59 | the inspector defaults: master switch on, 20 messages per frame, a 0.5 s throttle window, nothing logged yet |
| DebugLog.DebugManager.LogInternal | Assets/Scripts/Debugging/DebugManager.cs:169-201 | a message is dropped, with nothing changed, when the frame cap is reached or the same category and message was logged less than the throttle window ago; otherwise the key is stamped with the current time, one entry of that kind, category and message is appended, the frame count goes up by one and the settings are kept; the frame count never passes the cap |
| DebugLog.DebugManager.Log | Assets/Scripts/Debugging/DebugManager.cs:111-118 | with the master switch or the category off nothing changes; with both on the effect is exactly LogInternal's for a Log entry |
| DebugLog.DebugManager.LogWarning | Assets/Scripts/Debugging/DebugManager.cs:123-130 | the same guards as Log; with both switches on the effect is exactly LogInternal's for a Warning entry |
| DebugLog.DebugManager.LogError | Assets/Scripts/Debugging/DebugManager.cs:135-140 | whatever the switches say, the effect is exactly LogInternal's for an Error entry |
| DebugLog.DebugManager.LogPerformance | Assets/Scripts/Debugging/DebugManager.cs:145-151 | only the Performance switch guards it, the master switch does not; when it is on, the effect is exactly LogInternal's for a plain "[PERF] operation: time ms" entry, and when off nothing changes |
| DebugLog.DebugManager.PerfMessage | Assets/Scripts/Debugging/DebugManager.cs:149 | the performance text starts with "[PERF] ", ends with "ms" and holds the operation and the time between |
| DebugLog.DebugManager.IsCategoryEnabled | Assets/Scripts/Debugging/DebugManager.cs:236-254 | an enabled category is counted among the enabled ones, and when all twelve are counted every category is enabled |
| DebugLog.DebugManager.LogOnce | Assets/Scripts/Debugging/DebugManager.cs:156-167 | as written: with a positive throttle window nothing is ever written, although a new key is stamped |
| DebugLog.DebugManager.LogOnceCorrected | Assets/Scripts/Debugging/DebugManager.cs:156-167 | as intended: a new key under the frame cap is written once and remembered; a known key changes nothing |
| DebugLog.DebugManager.LateUpdate | Assets/Scripts/Debugging/DebugManager.cs:102-106 | a new frame starts with no messages counted |
| DebugLog.DebugManager.ClearConsole | Assets/Scripts/Debugging/DebugManager.cs:280-287 | every throttle key and the frame count are forgotten |
| DebugLog.DebugManager.EnableAllCategories | Assets/Scripts/Debugging/DebugManager.cs:260-264 | every category is enabled and the enabled count is 12 |
| DebugLog.DebugManager.DisableAllCategories | Assets/Scripts/Debugging/DebugManager.cs:270-274 | no category is enabled and the enabled count is 0 |
| DebugLog.DebugManager.EnabledCategoryCount | Assets/Scripts/Debugging/DebugManager.cs:303-311 | at most 12 categories are enabled |
| DebugLog.DebugManager.GetEnabledCategoryCount | Assets/Scripts/Debugging/DebugManager.cs:303-311 | the loop over the enum values counts exactly the enabled categories |
| DebugLog.DebugManager.OnValidate | Assets/Scripts/Debugging/DebugManager.cs:349-368 | the new cap is the old one clamped to 1..100 and the new window the old one clamped to 0..5 s; no other field is written |
| DockingConfig.GetDirectionAngle | Assets/Scripts/ScriptableObjects/Configs/DockingConfigurationSO.cs:268-282 | every heading maps to a whole multiple of 45 degrees in 0..315 |
| DockingConfig.ClockwiseAddsEighth | Assets/Scripts/ScriptableObjects/Configs/DockingConfigurationSO.cs:268-282 | the next heading clockwise is 45 degrees further round, wrapping at 360 |
| DockingConfig.DirectionAnglesDistinct | Assets/Scripts/ScriptableObjects/Configs/DockingConfigurationSO.cs:268-282 | different headings have different angles |
| DockingConfig.OppositeIsHalfTurn | Assets/Scripts/ScriptableObjects/Configs/DockingConfigurationSO.cs:268-282 | opposite headings are 180 degrees apart |
| DockingConfig.IsShipSizeCompatible | Assets/Scripts/ScriptableObjects/Configs/DockingConfigurationSO.cs:287-290 | a size passes only when the zone's size window is ordered |
| DockingConfig.IsSpeedValidForDocking | Assets/Scripts/ScriptableObjects/Configs/DockingConfigurationSO.cs:295-298 | a speed passes only when the zone's speed window is ordered |
| DockingConfig.WindowsAreIntervals | Assets/Scripts/ScriptableObjects/Configs/DockingConfigurationSO.cs:287-298 | each check admits an interval: a value between two admitted values is admitted |
| DockingConfig.WindowEndsAdmitted | Assets/Scripts/ScriptableObjects/Configs/DockingConfigurationSO.cs:287-298 | the range tests are inclusive: both ends of an ordered window pass |
| DockingConfig.SizeWindow | Assets/Scripts/ScriptableObjects/Configs/DockingConfigurationSO.cs:389-417 | every preset size window is non-empty and starts at a non-negative size |
| DockingConfig.DetectionFactor | Assets/Scripts/ScriptableObjects/Configs/DockingConfigurationSO.cs:389-417 | every preset scales the detection radius by a positive factor |
| DockingConfig.DockingConfiguration.constructor | Assets/Scripts/ScriptableObjects/Configs/DockingConfigurationSO.cs:37-245 | the asset's defaults for animation, default zone, undocking, hold time, update interval and simultaneous dockings |
| DockingConfig.DockingConfiguration.CreateZoneSettingsForType | Assets/Scripts/ScriptableObjects/Configs/DockingConfigurationSO.cs:381-420 | the zone has the requested type, that type's size window and the default detection radius times that type's factor; every other setting is the default zone's |
| DockingConfig.DockingConfiguration.PresetsOverlap | Assets/Scripts/ScriptableObjects/Configs/DockingConfigurationSO.cs:381-420 | every ship from 10 to 40 units fits a zone of any type, and an anchorage takes every size another preset takes |
| DockingConfig.DockingConfiguration.OnValidate | Assets/Scripts/ScriptableObjects/Configs/DockingConfigurationSO.cs:422-457 | every clamped setting equals its old value raised to its minimum or clamped to its range (durations, speeds and radii, the update interval to 0.02..2, the docking count to at least 1, the hold time to at least 0.1), the speed and size windows end up 0.1 and 1 wide from non-negative minimums; every other setting, the heading included, is kept |
| DockingConfig.DockingConfiguration.ValidatedZonesUsable | Assets/Scripts/ScriptableObjects/Configs/DockingConfigurationSO.cs:422-457 | after validation the default zone admits its own minimum size, and a zone made from it for any type admits the minimum speed |
| EdgegapFilter.KeepMatching | Backend/EdgegapProxy/Services/EdgegapService.cs:109-116 | a deployment is kept exactly when it is in the list and carries every required tag (case-insensitively); the kept ones are a sublist in the original order |
| EdgegapFilter.FilterByTags | Backend/EdgegapProxy/Services/EdgegapService.cs:104-117 | with no required tags the list comes back unchanged; otherwise a deployment survives exactly when it carries every required tag; the result is always a sublist of the input |
| EdgegapFilter.UntaggedDropped | Backend/EdgegapProxy/Services/EdgegapService.cs:111-112 | a deployment with a null or empty tag list never survives filtering once some tag is required |
| EdgegapFilter.ConvertToServerInfo | Backend/EdgegapProxy/Services/EdgegapService.cs:122-153 | a server entry exists exactly when the deployment has a "gameport" port and a tag list; it takes the request id, public IP, external game port and city (named "<city> Server"), and starts unhealthy with ping 9999 |
| EdgegapFilter.ValidateServerHealth | Backend/EdgegapProxy/Services/EdgegapService.cs:158-205 | the server is healthy afterwards exactly when the probe parsed an answer, or the body deserialized to null and it was already healthy; a body that does not parse, an empty one included, counts as a failure; a parsed answer sets the players and the ping; identity, address and port never change |
| EdgegapFilter.Validated | Backend/EdgegapProxy/Services/EdgegapService.cs:69-79 | at most one entry per deployment, and every entry is the probed conversion of some deployment that converts |
| EdgegapFilter.Insert | Backend/EdgegapProxy/Services/EdgegapService.cs:82-85 | inserting adds exactly the new entry to the multiset of servers |
| EdgegapFilter.InsertOrdered | Backend/EdgegapProxy/Services/EdgegapService.cs:82-85 | inserting into a list ordered by health, then players descending, then ping ascending keeps it ordered |
| EdgegapFilter.SortServers | Backend/EdgegapProxy/Services/EdgegapService.cs:82-85 | the sorted list is a permutation of its input |
| EdgegapFilter.SortServersOrdered | Backend/EdgegapProxy/Services/EdgegapService.cs:82-85 | the sorted list is ordered: healthy first, then more players first, then lower ping first |
| EdgegapFilter.HealthyFirst | Backend/EdgegapProxy/Services/EdgegapService.cs:82-85 | in the sorted list every healthy server comes before every unhealthy one |
| EdgegapFilter.GetActiveServers | Backend/EdgegapProxy/Services/EdgegapService.cs:37-99 | a failed request throws "Failed to communicate with Edgegap API"; any other exception is rethrown as it is; a response without data yields no servers; otherwise the result is the filtered deployments, converted, probed and sorted |
| EnvironmentLod.Classify | Assets/Scripts/Environment/EnvironmentLODManager.cs:314-330 | a distance gets High exactly when it is within the first band, and Culled exactly when it is beyond all four limits |
| EnvironmentLod.ClassifyMonotone | Assets/Scripts/Environment/EnvironmentLODManager.cs:314-330 | a farther distance never gets a finer level |
| EnvironmentLod.SumBounds | Assets/Scripts/Environment/EnvironmentLODManager.cs:176-181 | a history whose frame times lie between two bounds sums to between 30 times each bound, so the rolling average stays between them |
| EnvironmentLod.EnvironmentLODManager.constructor | Assets/Scripts/Environment/EnvironmentLODManager.cs:14-93 | the default distances 1500, 3000, 5000 and 8000, dynamic LOD on, multiplier 1, global level High, an update interval of 0.5 s, tile management on, no LOD update yet, and Awake's zeroed 30-frame history |
| EnvironmentLod.EnvironmentLODManager.CalculateLODLevel | Assets/Scripts/Environment/EnvironmentLODManager.cs:314-330 | a tile is culled exactly when it lies beyond the cull distance and every band scaled by the performance multiplier |
| EnvironmentLod.EnvironmentLODManager.CalculateGlobalLOD | Assets/Scripts/Environment/EnvironmentLODManager.cs:212-224 | the global level is never Culled, and it is High exactly when the average frame time over the target, relaxed by the multiplier, is at most 0.8 |
| EnvironmentLod.GlobalLevel | Assets/Scripts/Environment/EnvironmentLODManager.cs:212-224 | the global level for a frame-time ratio is never Culled and is High exactly at a ratio of at most 0.8 |
| EnvironmentLod.GlobalLevelMonotone | Assets/Scripts/Environment/EnvironmentLODManager.cs:212-224 | a slower average frame time never gives a finer global level |
| EnvironmentLod.EnvironmentLODManager.TileLOD | Assets/Scripts/Environment/EnvironmentLODManager.cs:262-266 | a tile's level, as written, is never coarser than either its distance level or the global level |
| EnvironmentLod.EnvironmentLODManager.CappedTileIgnoresDistance | Assets/Scripts/Environment/EnvironmentLODManager.cs:262-266 | as written, a High global level makes every tile High at any distance, and a non-Culled global level never lets a tile be culled |
| EnvironmentLod.EnvironmentLODManager.TileLODCorrected | Assets/Scripts/Environment/EnvironmentLODManager.cs:262-266 | corrected: a tile's level is at least as coarse as both its distance level and the global level, and culled exactly when either one is |
| EnvironmentLod.EnvironmentLODManager.CorrectedTileCulledFarAway | Assets/Scripts/Environment/EnvironmentLODManager.cs:262-266 | corrected: a tile beyond the cull distance and every scaled band is culled whatever the global level |
| EnvironmentLod.EnvironmentLODManager.ApplyTileLOD | Assets/Scripts/Environment/EnvironmentLODManager.cs:332-360 | a tile is visible exactly when its level is not Culled; High and Medium keep high detail, Low and VeryLow drop it, and Culled leaves the detail switch alone |
| EnvironmentLod.EnvironmentLODManager.UpdateTileLOD | Assets/Scripts/Environment/EnvironmentLODManager.cs:255-270 | one tile of the loop: visible exactly when its as-written tile level is not Culled, and high detail exactly for High or Medium |
| EnvironmentLod.EnvironmentLODManager.UpdateOceanTilesLOD | Assets/Scripts/Environment/EnvironmentLODManager.cs:255-270 | every tile of the list that still exists ends up visible exactly when its as-written level is not Culled, with high detail exactly for High or Medium (or its old detail when culled) |
| EnvironmentLod.EnvironmentLODManager.UpdateLODSystems | Assets/Scripts/Environment/EnvironmentLODManager.cs:226-253 | without a camera, or with tile management off, or when the camera has moved at most 50 units and the last update is at most 2 s old, no tile changes; otherwise every tile is brought to its level as in UpdateOceanTilesLOD |
| EnvironmentLod.EnvironmentLODManager.Update | Assets/Scripts/Environment/EnvironmentLODManager.cs:103-114 | the frame is recorded as UpdatePerformanceMonitoring states; once the update interval has passed since the last LOD update, the tiles are refreshed as UpdateLODSystems states and the update time becomes now; otherwise the update time and the tiles are kept |
| EnvironmentLod.EnvironmentLODManager.UpdatePerformanceMonitoring | Assets/Scripts/Environment/EnvironmentLODManager.cs:166-186 | this frame's time in milliseconds replaces the slot at the index, the index advances modulo 30, the average is the buffer's sum over 30, and with dynamic LOD on the global level is recomputed; the ring-buffer and multiplier invariants hold |
| EnvironmentLod.EnvironmentLODManager.HistoryTotal | Assets/Scripts/Environment/EnvironmentLODManager.cs:176-180 | the loop's total is the sum of the whole frame-time history |
| EnvironmentLod.EnvironmentLODManager.UpdateDynamicLOD | Assets/Scripts/Environment/EnvironmentLODManager.cs:188-210 | frames slower than 1.2 times the target lower the multiplier (to no less than 0.5), faster than 0.8 times raise it at half the rate (to no more than 1.5), otherwise it is kept; the global level is then recomputed |
| EnvironmentLod.EnvironmentLODManager.SetManualLOD | Assets/Scripts/Environment/EnvironmentLODManager.cs:406-413 | dynamic LOD is off, the global level is the one given, and the multiplier is back at 1 |
| EnvironmentLod.EnvironmentLODManager.EnableDynamicLOD | Assets/Scripts/Environment/EnvironmentLODManager.cs:418-422 | dynamic LOD is on |
| JoinMenu.IsValidIPAddress | Assets/Scripts/UI/JoinMenuController.cs:864-885 | the join menu accepts exactly the addresses the address book's validator accepts |
| JoinMenu.ParseConnectAddress | Assets/Scripts/UI/JoinMenuController.cs:497-531 | an accepted address has a valid IP; one with a ':' is accepted only when it splits into exactly two parts whose second is a ushort, and then connects to that IP and port; one without a ':' is accepted exactly when it is itself a valid address |
| JoinMenu.ParseStatusAddress | Assets/Scripts/UI/JoinMenuController.cs:690-729 | an accepted address has a valid IP and a port in 0..65535, 7777 when no ':' is present; the empty address is refused |
| JoinMenu.StatusAcceptsConnectable | Assets/Scripts/UI/JoinMenuController.cs:497-531 | every address the connect button accepts also passes the status check, with the same IP and the same port (7777 when none is named) |
| JoinMenu.ConnectFormatted | Assets/Scripts/UI/JoinMenuController.cs:497-531 | a formatted dotted quad with a port up to 65535 connects to that IP and that port |
| JoinMenu.StatusAcceptsExtraPart | Assets/Scripts/UI/JoinMenuController.cs:704-713 | the status check accepts "ip:port:anything" and probes that IP and port |
| JoinMenu.ConnectRefusesExtraPart | Assets/Scripts/UI/JoinMenuController.cs:500-516 | the connect button refuses "ip:port:anything", so the converse of StatusAcceptsConnectable fails |
| JoinMenu.ResolveConnectAddress | Assets/Scripts/UI/JoinMenuController.cs:497-531 | the connect button's address handling agrees with ParseConnectAddress on every address |
| JoinMenu.JoinMenuController.constructor | Assets/Scripts/UI/JoinMenuController.cs:21-62 | the menu starts in the Checking state, not connecting, with no client and no status check running, holding the configuration and address book it was given and recording whether a network manager, its port transport and the connect button were found |
| JoinMenu.JoinMenuController.GetServerAddress | Assets/Scripts/UI/JoinMenuController.cs:432-450 | the configured address when there is a configuration; otherwise the last saved address when there is one, else "127.0.0.1:7777"; never empty without a configuration |
| JoinMenu.JoinMenuController.StartStatusChecking | Assets/Scripts/UI/JoinMenuController.cs:636-644 | the status check is running |
| JoinMenu.JoinMenuController.StopStatusChecking | Assets/Scripts/UI/JoinMenuController.cs:649-656 | the status check is stopped |
| JoinMenu.JoinMenuController.UpdateServerStatus | Assets/Scripts/UI/JoinMenuController.cs:784-855 | the status is set, and the connect button, when present, is interactable exactly when the server is up |
| JoinMenu.JoinMenuController.ConfigureTransportPort | Assets/Scripts/UI/JoinMenuController.cs:597-611 | the transport port is set when a network manager exists and carries a port transport, and kept otherwise |
| JoinMenu.JoinMenuController.OnConnectButtonClicked | Assets/Scripts/UI/JoinMenuController.cs:474-563 | nothing changes unless the server is up and a network manager exists; an address that does not parse leaves the menu not connecting with the status check restarted; an accepted address sets the network address and, when the transport takes one, the named port, is remembered in the address book (its recent list and stored preferences as SaveServerIP leaves them), and starts the client unless starting throws |
| JoinMenu.JoinMenuController.Connect | Assets/Scripts/UI/JoinMenuController.cs:488-563 | past the guards: an address that does not parse ends not connecting, with the status check running and the client, network address, port and address book as they were; an accepted address is connected as ConnectTo states, the address book's list and stored preferences included |
| JoinMenu.JoinMenuController.ConnectTo | Assets/Scripts/UI/JoinMenuController.cs:534-562 | the accepted path: network address and port set, the address remembered in the recent list and in the stored preferences exactly as SaveServerIP writes them, and either the client started or, when starting throws, the menu back to not connecting with the status check running |
| JoinMenu.JoinMenuController.CheckServerStatus | Assets/Scripts/UI/JoinMenuController.cs:677-779 | skipped while connecting; otherwise the server is Up exactly when the address passes the status check's parsing and the health request succeeds, else Down, and the connect button follows |
| Menus.MenuManager.constructor | Assets/Scripts/UI/MenuManager.cs:12-33 | the five panel slots as assigned in the editor, the main menu as the starting panel, no quit requested |
| Menus.MenuManager.Panels | Assets/Scripts/UI/MenuManager.cs:12-33 | every assigned slot's object is among the panels the manager may switch |
| Menus.MenuManager.HideAllPanels | Assets/Scripts/UI/MenuManager.cs:95-102 | every assigned panel is hidden |
| Menus.MenuManager.ShowPanel | Assets/Scripts/UI/MenuManager.cs:60-90 | the requested panel's object, when assigned, is shown and every other assigned object is hidden, so the result depends on the requested panel alone |
| Menus.MenuManager.Awake | Assets/Scripts/UI/MenuManager.cs:35-49 | every panel starts hidden |
| Menus.MenuManager.Start | Assets/Scripts/UI/MenuManager.cs:51-55 | only the starting panel is shown |
| Menus.MenuManager.ShowMainMenu | Assets/Scripts/UI/MenuManager.cs:107-110 | only the main menu is shown |
| Menus.MenuManager.ShowConnectionMenu | Assets/Scripts/UI/MenuManager.cs:115-118 | only the connection menu is shown |
| Menus.MenuManager.ShowHostMenu | Assets/Scripts/UI/MenuManager.cs:123-126 | only the host panel is shown |
| Menus.MenuManager.ShowJoinMenu | Assets/Scripts/UI/MenuManager.cs:131-134 | only the join panel is shown |
| Menus.MenuManager.ShowOptionsMenu | Assets/Scripts/UI/MenuManager.cs:139-142 | only the options panel is shown |
| Menus.MenuManager.OnStartButtonClicked | Assets/Scripts/UI/MenuManager.cs:168-171 | the Start button leaves only the join panel shown |
| Menus.MenuManager.OnOptionsButtonClicked | Assets/Scripts/UI/MenuManager.cs:176-179 | the Options button leaves only the options panel shown |
| Menus.MenuManager.OnExitButtonClicked | Assets/Scripts/UI/MenuManager.cs:184-187 | the Exit button requests that the application quit |
| Menus.MenuManager.OnBackButtonClicked | Assets/Scripts/UI/MenuManager.cs:192-195 | every Back button leaves only the main menu shown |
| NavalControl.NetworkedNavalController.constructor | Assets/Scripts/Player/NetworkedNavalController.cs:217-232 | an empty route, index 0, auto-navigation off, throttle 0 and no emergency stop; the throttle, index and auto-navigation invariant holds |
| NavalControl.NetworkedNavalController.CmdAdjustThrottle | Assets/Scripts/Player/NetworkedNavalController.cs:349-357 | the throttle moves by the given step, clamped to -4..4, and is left alone while the emergency stop is on; the invariant is kept |
| NavalControl.NetworkedNavalController.CmdEmergencyStop | Assets/Scripts/Player/NetworkedNavalController.cs:360-367 | the stop flag is on, the throttle is 0 and auto-navigation is off |
| NavalControl.NetworkedNavalController.CmdAddWaypoint | Assets/Scripts/Player/NetworkedNavalController.cs:370-376 | the waypoint is appended to the route and nothing else changes |
| NavalControl.NetworkedNavalController.CmdToggleAutoNavigation | Assets/Scripts/Player/NetworkedNavalController.cs:379-391 | nothing changes without waypoints; otherwise auto-navigation flips, and switching it on restarts at the first waypoint and releases the emergency stop |
| NavalControl.NetworkedNavalController.CmdClearWaypoints | Assets/Scripts/Player/NetworkedNavalController.cs:394-401 | the route is empty, the index is 0 and auto-navigation is off |
| NavalControl.NetworkedNavalController.UpdateNavigation | Assets/Scripts/Player/NetworkedNavalController.cs:476-516 | the index advances by one exactly when auto-navigation is on and the waypoint is closer than 5 units; auto-navigation only ever switches off here, and only once the index has passed the last waypoint |
| NetworkAddress.Take | Assets/Scripts/Networking/NetworkAddressManager.cs:58-61 | LINQ Take: the first min(n, length) entries, none for n at most 0 |
| NetworkAddress.RememberedNew | Assets/Scripts/Networking/NetworkAddressManager.cs:41-68 | a new address becomes the first entry, the older entries keep their order behind it, and the list holds at most the maximum |
| NetworkAddress.RememberedIdempotent | Assets/Scripts/Networking/NetworkAddressManager.cs:41-68 | saving the same address twice leaves the recent list as saving it once |
| NetworkAddress.RememberedNoDup | Assets/Scripts/Networking/NetworkAddressManager.cs:41-68 | saving never puts a duplicate into a list without duplicates |
| NetworkAddress.RemoveFirstMultiset | Assets/Scripts/Networking/NetworkAddressManager.cs:102-109 | List.Remove takes away exactly one copy of the address when there is one, and otherwise leaves the list as it is |
| NetworkAddress.RemoveOnly | Assets/Scripts/Networking/NetworkAddressManager.cs:102-109 | in a list without duplicates, removing an address leaves exactly the other entries |
| NetworkAddress.SaveLoadRoundTrip | Assets/Scripts/Networking/NetworkAddressManager.cs:148-164 | a non-empty list of non-empty entries without ';', stored joined with ';' and loaded again, comes back unchanged |
| NetworkAddress.NetworkAddressManager.constructor | Assets/Scripts/Networking/NetworkAddressManager.cs:13-34 | the defaults (10 recent servers, "127.0.0.1") and the recent list loaded from the stored preferences |
| NetworkAddress.NetworkAddressManager.SaveServerIP | Assets/Scripts/Networking/NetworkAddressManager.cs:41-68 | an empty address changes nothing; otherwise it is stored as the last server, and a new one goes to the front of the recent list, which is cut back to the maximum and stored again ; the preferences afterwards are exactly SavedPrefs of the old ones |
| NetworkAddress.SavedPrefs | Assets/Scripts/Networking/NetworkAddressManager.cs:41-68 | the preferences a save leaves: unchanged for an empty address; otherwise the last-server key holds the address, a new address also stores the joined remembered list, and no other key appears |
| NetworkAddress.NetworkAddressManager.GetLastServerIP | Assets/Scripts/Networking/NetworkAddressManager.cs:73-76 | the stored last server, or the default address when none is stored |
| NetworkAddress.NetworkAddressManager.GetRecentServers | Assets/Scripts/Networking/NetworkAddressManager.cs:81-84 | a copy of the recent list |
| NetworkAddress.NetworkAddressManager.ClearAllServers | Assets/Scripts/Networking/NetworkAddressManager.cs:89-97 | the recent list is empty and both preference keys are deleted, every other preference kept |
| NetworkAddress.NetworkAddressManager.RemoveServer | Assets/Scripts/Networking/NetworkAddressManager.cs:102-109 | the first occurrence of the address is removed, and the stored list is rewritten only when something was removed |
| NetworkAddress.NetworkAddressManager.LoadRecentServers | Assets/Scripts/Networking/NetworkAddressManager.cs:148-157 | a stored non-empty list replaces the recent list, split on ';'; otherwise the list is kept |
| NetworkAddress.NetworkAddressManager.SaveRecentServers | Assets/Scripts/Networking/NetworkAddressManager.cs:159-164 | the recent list is stored joined with ';' and nothing else changes |
| NetworkAddress.NoEmptyAddress | Assets/Scripts/Networking/NetworkAddressManager.cs:173-194 | the empty text is not a valid address |
| NetworkAddress.AllOctets | Assets/Scripts/Networking/NetworkAddressManager.cs:182-189 | the loop answers true exactly when every part parses as an int in 0..255 |
| NetworkAddress.IsValidIP | Assets/Scripts/Networking/NetworkAddressManager.cs:173-194 | the validator accepts exactly "localhost", four dot-separated octets, or, when the text does not split into four parts, any text with a dot |
| NetworkAddress.DottedQuadValid | Assets/Scripts/Networking/NetworkAddressManager.cs:173-194 | every dotted quad of numbers 0..255 is a valid address |
| NetworkAddress.DottedQuadOutOfRange | Assets/Scripts/Networking/NetworkAddressManager.cs:173-194 | a dotted quad whose first number is above 255 is rejected |
| NetworkAddress.ValidHasDot | Assets/Scripts/Networking/NetworkAddressManager.cs:173-194 | every valid address other than "localhost" contains a dot |
| NetworkAddress.GetServerType | Assets/Scripts/Networking/NetworkAddressManager.cs:199-213 | as written: Unknown exactly for the empty text, Local exactly for "localhost" and "127.0.0.1", LAN only under "192.168.", "10." or "172.", Cloud only when "edgegap" or "cloud" appears |
| NetworkAddress.PublicAddressCalledLan | Assets/Scripts/Networking/NetworkAddressManager.cs:206-207 | as written, the public address 172.234.24.224 is classified as LAN |
| NetworkAddress.ClassifyServer | Assets/Scripts/Networking/NetworkAddressManager.cs:199-213 | corrected: the same Unknown and Local cases, and LAN only where the address as written says LAN too |
| NetworkAddress.Classify172 | Assets/Scripts/Networking/NetworkAddressManager.cs:206-207 | corrected: a non-local address under "172." is LAN exactly when its second number is in 16..31 |
| NetworkAddress.ClassifyPrivate172 | Assets/Scripts/Networking/NetworkAddressManager.cs:206-207 | corrected: 172.b.c.d is LAN exactly when b is in 16..31, the private block of RFC 1918 |
| Numbers.TryParseInt32 | Assets/Scripts/Networking/NetworkAddressManager.cs:184 | int.TryParse succeeds only with a value in the 32-bit range, the value the text denotes |
| Numbers.TryParseUInt16 | Assets/Scripts/UI/JoinMenuController.cs:506 | ushort.TryParse succeeds only with a value in 0..65535, the value the text denotes |
| Numbers.UInt16RoundTrip | Assets/Scripts/UI/JoinMenuController.cs:506 | a port number written out in decimal parses back to itself |
| Numbers.Int32RoundTrip | Assets/Scripts/Networking/NetworkAddressManager.cs:184 | a 32-bit integer written out in decimal parses back to itself |
| Strings.Split | Assets/Scripts/Networking/NetworkAddressManager.cs:154 | Split yields at least one piece and no piece holds the separator |
| Strings.SplitJoin | Assets/Scripts/Networking/NetworkAddressManager.cs:148-164 | joining pieces that hold no separator and splitting again gives the pieces back |
| Strings.JoinSplit | Assets/Scripts/Networking/NetworkAddressManager.cs:148-164 | splitting and joining again gives the text back |
| OceanChunks.WindowFacts | Assets/Scripts/Environment/OceanChunkManager.cs:188-198 | the nested loops around a chunk visit each of the (2r+1)² chunks of the square window exactly once, and no other chunk |
| OceanChunks.InitialQueueFacts | Assets/Scripts/Environment/OceanChunkManager.cs:185-201 | the chunks queued for a window are exactly its inactive chunks, each once; with no active tiles that is all (2r+1)² of them |
| OceanChunks.PendingMembers | Assets/Scripts/Environment/OceanChunkManager.cs:193-196 | a chunk is queued exactly when the loops visit it and it has no tile |
| OceanChunks.SpawnAllFacts | Assets/Scripts/Environment/OceanChunkManager.cs:250-255 | spawning a run of queued chunks never replaces an existing tile; with a prefab it adds exactly the queued chunks, each a tile of that prefab at its own chunk, and without one it adds nothing |
| OceanChunks.DespawnAllFacts | Assets/Scripts/Environment/OceanChunkManager.cs:258-263 | despawning a run of queued chunks removes exactly those chunks and keeps every other tile as it was |
| OceanChunks.Quota | Assets/Scripts/Environment/OceanChunkManager.cs:250-263 | a queue loop handles the whole queue or the budget left for the frame, whichever is smaller, and nothing once the budget is used |
| OceanChunks.OceanChunkManager.constructor | Assets/Scripts/Environment/OceanChunkManager.cs:15-126 | the serialized defaults (radius 4, runtime radius 5, 25 tiles per frame, interval 0.2) with an empty dictionary and empty queues |
| OceanChunks.OceanChunkManager.SpawnInitialTiles | Assets/Scripts/Environment/OceanChunkManager.cs:185-201 | the spawn queue gains, in loop order, exactly the inactive chunks of the window around the centre |
| OceanChunks.OceanChunkManager.QueueColumn | Assets/Scripts/Environment/OceanChunkManager.cs:190-197 | the inner loop appends exactly the inactive chunks of one column of the window, in order |
| OceanChunks.OceanChunkManager.UpdateOceanChunks | Assets/Scripts/Environment/OceanChunkManager.cs:203-245 | the spawn queue holds exactly the inactive chunks of the new window and the despawn queue exactly the active chunks outside it farther than radius + 1, neither with duplicates |
| OceanChunks.OceanChunkManager.RequiredTiles | Assets/Scripts/Environment/OceanChunkManager.cs:210-218 | the required set is exactly the window of the radius around the centre |
| OceanChunks.OceanChunkManager.QueueMissing | Assets/Scripts/Environment/OceanChunkManager.cs:221-227 | the spawn queue holds each required chunk without a tile exactly once |
| OceanChunks.OceanChunkManager.QueueFarAway | Assets/Scripts/Environment/OceanChunkManager.cs:230-244 | the despawn queue holds, once each, exactly the active chunks that are not required and lie farther than radius + 1 from the centre |
| OceanChunks.OceanChunkManager.ProcessTileQueues | Assets/Scripts/Environment/OceanChunkManager.cs:247-264 | each queue loses a prefix of the length its frame budget allows, the counters grow by those lengths, and the tiles are the old ones with that spawn prefix spawned and then that despawn prefix despawned; every tile stays filed under its own chunk |
| OceanChunks.OceanChunkManager.SpawnQueued | Assets/Scripts/Environment/OceanChunkManager.cs:250-255 | the spawn loop dequeues as many chunks as the budget allows, spawning each in order |
| OceanChunks.OceanChunkManager.DespawnQueued | Assets/Scripts/Environment/OceanChunkManager.cs:258-263 | the despawn loop dequeues as many chunks as the budget allows, despawning each in order |
| OceanChunks.OceanChunkManager.SpawnTile | Assets/Scripts/Environment/OceanChunkManager.cs:266-380 | without a default prefab, or when the chunk already has a tile, nothing changes; otherwise a tile for the chunk is added, recorded with the default prefab |
| OceanChunks.OceanChunkManager.DespawnTile | Assets/Scripts/Environment/OceanChunkManager.cs:382-398 | the chunk's tile, if any, is removed and nothing else |
| OceanChunks.OceanChunkManager.RebuildOcean | Assets/Scripts/Environment/OceanChunkManager.cs:540-558 | without a camera nothing changes; otherwise every tile is gone, the whole window around the camera's chunk is queued, and that chunk becomes the last camera chunk |
| OceanChunks.OceanChunkManager.Start | Assets/Scripts/Environment/OceanChunkManager.cs:128-140 | without a camera nothing changes; otherwise the camera's chunk is recorded and the inactive chunks of the window around it are queued in loop order |
| OceanChunks.OceanChunkManager.FollowCamera | Assets/Scripts/Environment/OceanChunkManager.cs:156-162 | the camera's chunk becomes the last camera chunk, and the queues are left alone when it has not changed |
| OceanChunks.OceanChunkManager.ApplyRuntimeCullingOverrides | Assets/Scripts/Environment/OceanChunkManager.cs:648-655 | the grid radius becomes the runtime radius |
| OceanChunks.OceanChunkManager.Update | Assets/Scripts/Environment/OceanChunkManager.cs:142-169 | without a camera nothing changes; otherwise the frame counters are reset; before the interval has passed the tiles, queues, update time, camera chunk and radius are kept; after it the time and camera chunk are recorded and the runtime radius applies, and when the camera is still in the same chunk the budgeted prefixes of the old queues are spawned and despawned and removed from them, the counters ending at the numbers processed |
| PortConfig.PortConfiguration.constructor | Assets/Scripts/ScriptableObjects/Configs/PortConfigurationSO.cs:74-136 | the asset's defaults: "New Harbor", a medium trading port, radius 800 with a 150 warning band, repair, refuel, trading and missions offered at quality and prices 1, and its five levels |
| PortConfig.PortConfiguration.IsApproachingProtectionBoundary | Assets/Scripts/ScriptableObjects/Configs/PortConfigurationSO.cs:173-177 | a ship in the warning band is inside the protection zone, at least radius minus warning distance from the port |
| PortConfig.PortConfiguration.ProtectionZoneLayout | Assets/Scripts/ScriptableObjects/Configs/PortConfigurationSO.cs:164-177 | with a non-negative warning distance, IsWithinProtectionZone holds exactly in the warning band or inside it; the boundary and, for a non-negative radius, the port itself are in the zone; the zone holds every point nearer the port than one of its points |
| PortConfig.PortConfiguration.WarningBandAfterValidation | Assets/Scripts/ScriptableObjects/Configs/PortConfigurationSO.cs:318-341 | once validated, the zone's edge and the point 10 units inside it are in the warning band, and no point closer than 10 units to the port is |
| PortConfig.PortConfiguration.GetSuggestedDockingLocations | Assets/Scripts/ScriptableObjects/Configs/PortConfigurationSO.cs:182-192 | each size suggests a count inside its own range: 1-3 small, 4-6 medium, 7-10 large, 11 or more massive |
| PortConfig.SuggestedLocationsGrow | Assets/Scripts/ScriptableObjects/Configs/PortConfigurationSO.cs:182-192 | a larger port is always suggested more docking locations |
| PortConfig.PortConfiguration.IsServiceAvailable | Assets/Scripts/ScriptableObjects/Configs/PortConfigurationSO.cs:197-211 | only the eight recognised names, in any letter case, can be available, and each of the eight reports its own switch |
| PortConfig.PortConfiguration.OnValidate | Assets/Scripts/ScriptableObjects/Configs/PortConfigurationSO.cs:318-341 | an empty name gets the default back; the radius becomes at least 100; the warning distance becomes its old value bounded by radius - 10 and raised to 10; each level is its old value clamped to 0..1, quality to 0.1..3 and prices to 0.1..5; type, size, the other service settings and the remaining fields are kept |
| PortIntegration.PortIntegrationConfiguration.constructor | Assets/Scripts/ScriptableObjects/Configs/PortIntegrationConfigurationSO.cs:32-317 | the asset's defaults for the camera, input, LOD, performance, save and debug settings and the 500 MB memory minimum |
| PortIntegration.PortIntegrationConfiguration.GetCameraModeForState | Assets/Scripts/ScriptableObjects/Configs/PortIntegrationConfigurationSO.cs:322-331 | "docked", "approaching" and "undocking" in any letter case get their configured camera mode; any other state gets Automatic |
| PortIntegration.PortIntegrationConfiguration.ShouldLockInput | Assets/Scripts/ScriptableObjects/Configs/PortIntegrationConfigurationSO.cs:336-346 | input is locked only while the UI is open and only for ship or camera input |
| PortIntegration.PortIntegrationConfiguration.GetLODForDistance | Assets/Scripts/ScriptableObjects/Configs/PortIntegrationConfigurationSO.cs:351-367 | a port is culled exactly when it lies beyond the visibility range and every detail range scaled by the performance multiplier |
| PortIntegration.PortIntegrationConfiguration.LODForDistanceMonotone | Assets/Scripts/ScriptableObjects/Configs/PortIntegrationConfigurationSO.cs:351-367 | a farther port never gets a finer level |
| PortIntegration.PortIntegrationConfiguration.ShouldAutoSave | Assets/Scripts/ScriptableObjects/Configs/PortIntegrationConfigurationSO.cs:404-415 | an auto-save happens only below the session's maximum and only for docking, undocking or a service transaction |
| PortIntegration.PortIntegrationConfiguration.ShouldLogMessage | Assets/Scripts/ScriptableObjects/Configs/PortIntegrationConfigurationSO.cs:420-433 | nothing is logged with the game's debugging off; errors are always logged when it is on |
| PortIntegration.LogLevelMonotone | Assets/Scripts/ScriptableObjects/Configs/PortIntegrationConfigurationSO.cs:420-433 | raising the log level never silences a message that was logged |
| PortIntegration.PortIntegrationConfiguration.OnValidate | Assets/Scripts/ScriptableObjects/Configs/PortIntegrationConfigurationSO.cs:503-556 | each settings group equals its old value with every clamped field replaced by that field's clamp to its editor range (the detail ranges strictly increasing from at least 50 up to the visibility range, the recovery threshold above the performance threshold, the log level within 0..3, the memory minimum at least 100); all other fields are kept |
| PortServices.SecurityRequirement | Assets/Scripts/ScriptableObjects/Configs/PortServicesConfigurationSO.cs:372-378 | every requirement is below 1, and only banking, upgrades and trading need any security |
| PortServices.SecurityOrder | Assets/Scripts/ScriptableObjects/Configs/PortServicesConfigurationSO.cs:372-378 | banking needs more security than upgrades, upgrades more than trading, and trading more than every other service |
| PortServices.WindowLengths | Assets/Scripts/ScriptableObjects/Configs/PortServicesConfigurationSO.cs:366-368 | the window as written is the hour count rounded down to even, centred on noon; the corrected window has the full count and stays within the day |
| PortServices.CountOpenIs | Assets/Scripts/ScriptableObjects/Configs/PortServicesConfigurationSO.cs:364-369 | the number of hours of the day inside a window is the window's length clipped to the day |
| PortServices.PortServicesConfiguration.GetService | Assets/Scripts/ScriptableObjects/Configs/PortServicesConfigurationSO.cs:254-257 | nothing exactly when no definition has the type; otherwise the first definition of that type |
| PortServices.FirstOfTypeIn | Assets/Scripts/ScriptableObjects/Configs/PortServicesConfigurationSO.cs:256 | List.Find: nothing exactly when no definition has the type, otherwise the first that does |
| PortServices.PortServicesConfiguration.GetServicesByTier | Assets/Scripts/ScriptableObjects/Configs/PortServicesConfigurationSO.cs:262-265 | exactly the switched-on definitions of the tier, each as many times as the list holds it |
| PortServices.OfTier | Assets/Scripts/ScriptableObjects/Configs/PortServicesConfigurationSO.cs:264 | List.FindAll: exactly the switched-on definitions of the tier, a sub-multiset of the list |
| PortServices.PortServicesConfiguration.UnavailableService | Assets/Scripts/ScriptableObjects/Configs/PortServicesConfigurationSO.cs:357-358 | a missing or switched-off service is never available |
| PortServices.PortServicesConfiguration.IsServiceAvailable | Assets/Scripts/ScriptableObjects/Configs/PortServicesConfigurationSO.cs:354-383 | as written, a service is available only when the corrected rule also finds it available, and the two agree when the service's hour count is even |
| PortServices.PortServicesConfiguration.IsServiceAvailableCorrected | Assets/Scripts/ScriptableObjects/Configs/PortServicesConfigurationSO.cs:354-383 | corrected, a service limited to fewer than 24 hours is available only at an hour of the day, 0 to 23 |
| PortServices.PortServicesConfiguration.AvailableNeedsSecurity | Assets/Scripts/ScriptableObjects/Configs/PortServicesConfigurationSO.cs:372-380 | an available service always has the security its type requires |
| PortServices.PortServicesConfiguration.OpenHoursPerDay | Assets/Scripts/ScriptableObjects/Configs/PortServicesConfigurationSO.cs:364-369 | as written, a service open fewer than 24 hours is open for its hour count rounded down to even; corrected, for the full count |
| PortServices.OneHourServiceNeverOpen | Assets/Scripts/ScriptableObjects/Configs/PortServicesConfigurationSO.cs:366-368 | as written, a service open one hour a day is never available: its window is 12 to 12 |
| PortServices.OneHourServiceOpenAtNoon | Assets/Scripts/ScriptableObjects/Configs/PortServicesConfigurationSO.cs:366-368 | corrected, the same service is open at noon and closed at one |
| PortServices.PortServicesConfiguration.FindBundleForServices | Assets/Scripts/ScriptableObjects/Configs/PortServicesConfigurationSO.cs:388-410 | the loop picks exactly the bundle the scan specification picks |
| PortServices.CountMatches | Assets/Scripts/ScriptableObjects/Configs/PortServicesConfigurationSO.cs:395-400 | the inner loop counts how many requested entries the bundle includes |
| PortServices.MatchCount | Assets/Scripts/ScriptableObjects/Configs/PortServicesConfigurationSO.cs:395-400 | a bundle matches at most as many services as were requested |
| PortServices.BestBundle | Assets/Scripts/ScriptableObjects/Configs/PortServicesConfigurationSO.cs:388-410 | a chosen bundle is one of the bundles, and its match count is the one recorded |
| PortServices.BestBundleIsBest | Assets/Scripts/ScriptableObjects/Configs/PortServicesConfigurationSO.cs:388-410 | no bundle is found exactly when none covers at least 70% of the request with a match; otherwise the chosen one qualifies, no qualifying bundle matches more, and every earlier qualifying bundle matches fewer |
| ServerBrowser.GetConnectionAddress | Assets/Scripts/Networking/ServerBrowserManager.cs:358-361 | the connection address is the server's IP followed by a colon |
| ServerBrowser.ConnectionAddressPort | Assets/Scripts/Networking/ServerBrowserManager.cs:358-361 | the text after that colon reads back as the server's port |
| ServerBrowser.ConnectionAddressRoundTrip | Assets/Scripts/Networking/ServerBrowserManager.cs:358-361 | for an IP without ':' and a port in 0..65535, the bundled configuration reads the connection address back as the same IP and port |
| ServerBrowser.GetDisplayName | Assets/Scripts/Networking/ServerBrowserManager.cs:366-372 | the name starts with the city, ends in " - Offline" exactly for an unhealthy server, and in "ms" for a healthy one |
| ServerBrowser.HealthCheckPort | Assets/Scripts/Networking/ServerBrowserManager.cs:237-238 | the server's own health port when it has one, otherwise 8080 |
| ServerBrowser.ApplyHealthCheck | Assets/Scripts/Networking/ServerBrowserManager.cs:235-276 | the server is healthy exactly when the health request got an answer, which sets the ping and, when reported, the player counts; the identity, address, port and city never change |
| ServerBrowser.FallbackServer | Assets/Scripts/Networking/ServerBrowserManager.cs:189-211 | the fallback entry is named after the configured location, unhealthy with ping 9999, status "Unknown" and health port 30407; it has an address and port only when the configured address splits into exactly two pieces, and a port only when the second piece is an int |
| ServerBrowser.FallbackHostPort | Assets/Scripts/Networking/ServerBrowserManager.cs:203-211 | for "host:port" with a host without ':', the fallback entry carries that host and port |
| ServerBrowser.FallbackRefusesExtraColon | Assets/Scripts/Networking/ServerBrowserManager.cs:203-211 | an address with two colons gives the fallback entry no address and no port |
| ServerBrowser.FallbackAgreesWithConfig | Assets/Scripts/Networking/ServerBrowserManager.cs:203-211 | where both the fallback parser and the bundled configuration accept the address, they agree on host and port |
| ServerBrowser.CountHealthy | Assets/Scripts/Networking/ServerBrowserManager.cs:127 | the healthy count is zero exactly when no server is healthy, and the list's length exactly when all are |
| ServerBrowser.FirstHealthy | Assets/Scripts/Networking/ServerBrowserManager.cs:305 | nothing exactly when no server is healthy; otherwise the first healthy server of the list |
| ServerBrowser.FirstHealthyOfOrderedList | Assets/Scripts/Networking/ServerBrowserManager.cs:304-305 | on a list ordered healthy first, the best server is the head when the head is healthy and there is none otherwise |
| ServerBrowser.FindById | Assets/Scripts/Networking/ServerBrowserManager.cs:328 | nothing exactly when no server has the id; otherwise a listed server with that id |
| ServerBrowser.ServerBrowserManager.constructor | Assets/Scripts/Networking/ServerBrowserManager.cs:28-47 | the default backend URL, the configured fallback, and an idle browser with an empty list and no error |
| ServerBrowser.ServerBrowserManager.RequestUrl | Assets/Scripts/Networking/ServerBrowserManager.cs:97-102 | the URL is the backend's "/api/servers", with "?forceRefresh=true" exactly when a refresh is forced |
| ServerBrowser.ServerBrowserManager.RefreshServers | Assets/Scripts/Networking/ServerBrowserManager.cs:78-102 | while a fetch runs nothing happens; otherwise a fetch starts with the list and error cleared, asking that URL |
| ServerBrowser.ServerBrowserManager.FinishFetch | Assets/Scripts/Networking/ServerBrowserManager.cs:104-174 | a parsed list replaces the cached one with its server and healthy counts; a parse or request failure records its message and an answer without a list keeps the last error; every outcome without a list falls back to the configured server; the fetch is then over |
| ServerBrowser.ServerBrowserManager.TryFallbackConfig | Assets/Scripts/Networking/ServerBrowserManager.cs:179-230 | the probed fallback entry is appended with both counts at 1 when it is healthy; otherwise, or without a fallback configuration, the list and counts are unchanged |
| ServerBrowser.ServerBrowserManager.GetBestServer | Assets/Scripts/Networking/ServerBrowserManager.cs:296-313 | nothing exactly when no listed server is healthy; otherwise a healthy listed server (the first) |
| ServerBrowser.ServerBrowserManager.GetAllServers | Assets/Scripts/Networking/ServerBrowserManager.cs:318-321 | a copy of the list |
| ServerBrowser.ServerBrowserManager.GetServerById | Assets/Scripts/Networking/ServerBrowserManager.cs:326-329 | nothing exactly when no listed server has the id; otherwise a listed server with that id |
| ServerConfigs.GetServerIP | Assets/Scripts/Networking/ServerConfig.cs:26-37 | the IP is a prefix of the address: the text before the first ':' when that colon is not the first character, the whole address otherwise |
| ServerConfigs.GetServerPort | Assets/Scripts/Networking/ServerConfig.cs:42-57 | the port always fits a ushort; anything other than 7777 comes from text after a colon that is neither first nor last and parses as a ushort, and such text always gives its value |
| ServerConfigs.EmptyAddress | Assets/Scripts/Networking/ServerConfig.cs:26-57 | an empty address gives no IP and port 7777 |
| ServerConfigs.LeadingColon | Assets/Scripts/Networking/ServerConfig.cs:26-57 | an address starting with ':' is its own IP and gets port 7777 |
| ServerConfigs.HostPortRoundTrip | Assets/Scripts/Networking/ServerConfig.cs:26-65 | "host:port" with a host without ':' and a port up to 65535 gives back that host and port, and the full address is the two joined by a colon |
| ServerConfigs.DefaultConfigParts | Assets/Scripts/Networking/ServerConfig.cs:14-18 | the shipped asset points at 172.234.24.224, port 31139 |
| ServerLaunch.Next | Assets/Scripts/Networking/ServerLauncher.cs:171 | a value exists exactly when another argument follows, and it is that argument |
| ServerLaunch.PortSetAt | Assets/Scripts/Networking/ServerLauncher.cs:169-176 | an argument sets a port only when it is a port flag followed by text that parses as a ushort |
| ServerLaunch.StepPort | Assets/Scripts/Networking/ServerLauncher.cs:169-176 | one argument changes the port exactly when it sets one, to that value |
| ServerLaunch.ParsePrefixPort | Assets/Scripts/Networking/ServerLauncher.cs:165-207 | after any number of arguments the port is the last one they set, or the starting port |
| ServerLaunch.LastPortWins | Assets/Scripts/Networking/ServerLauncher.cs:165-207 | the last port flag with a valid value decides the port |
| ServerLaunch.PortKeptWithoutValidFlag | Assets/Scripts/Networking/ServerLauncher.cs:165-207 | without a port flag carrying a valid value the port stays as it was |
| ServerLaunch.TrailingFlagIgnored | Assets/Scripts/Networking/ServerLauncher.cs:169-194 | a port, player or scene flag in the last position changes nothing |
| ServerLaunch.FlagCaseInsensitive | Assets/Scripts/Networking/ServerLauncher.cs:167 | flags are recognised whatever their letter case |
| ServerLaunch.ServerLauncher.constructor | Assets/Scripts/Networking/ServerLauncher.cs:26-42 | the inspector defaults: auto-start on, port 7777, 300 players, scene "PortHarbor", verbose logging, server not started, no quit requested |
| ServerLaunch.ServerLauncher.ParseCommandLineArguments | Assets/Scripts/Networking/ServerLauncher.cs:161-208 | the settings after the loop are those of examining every argument in order |
| ServerLaunch.ServerLauncher.ApplyArgument | Assets/Scripts/Networking/ServerLauncher.cs:167-206 | one pass of the switch applies exactly the flag at that position, with the next argument as its value |
| ServerLaunch.ServerLauncher.StartServer | Assets/Scripts/Networking/ServerLauncher.cs:111-159 | nothing happens without a network manager or once the server runs; otherwise the start scene, when named, becomes active and the server runs, or, when starting throws, the application is asked to quit with code 1 |
| ServerLaunch.ServerLauncher.CheckAndStartServer | Assets/Scripts/Networking/ServerLauncher.cs:80-109 | the server runs afterwards exactly when it already ran, or when the build is headless with auto-start on or "-server"/"--server" is given, a network manager exists and starting does not throw; when a start is attempted, the start scene becomes active and a throwing start asks to quit with code 1, and otherwise the scene and exit request are kept |
| SpawnPoints.Without | Assets/Scripts/Networking/WOSNetworkManager.cs:197-203 | the parent object is filtered out and every other child kept |
| SpawnPoints.CollectSpawnPoints | Assets/Scripts/Networking/WOSNetworkManager.cs:185-206 | the tagged objects when there are any; otherwise nothing without a "SpawnPoints" object, and with one exactly its child transforms other than itself |
| SpawnPoints.Turns | Assets/Scripts/Networking/WOSNetworkManager.cs:86-88 | the round-robin picks from a start index go through the points in order, wrapping at the end |
| SpawnPoints.WOSNetworkManager.constructor | Assets/Scripts/Networking/WOSNetworkManager.cs:16-26 | no spawn points yet, the chosen spawn method, round-robin index 0 |
| SpawnPoints.WOSNetworkManager.GetNextSpawnPoint | Assets/Scripts/Networking/WOSNetworkManager.cs:70-97 | without spawn points the origin is used; Random picks one of the points, the default case the first; round-robin takes the point at the stored index and advances it modulo the count, or throws when the index is past the end; an index in range stays in range |
| SpawnPoints.WOSNetworkManager.SpawnInTurn | Assets/Scripts/Networking/WOSNetworkManager.cs:86-88 | players joining in turn under round-robin take the points in order from the stored index, wrapping at the end, and after as many players as points the index is back where it started |
| SpawnPoints.WOSNetworkManager.NextTurn | Assets/Scripts/Networking/WOSNetworkManager.cs:86-88 | the k-th pick after a start index is the point k places further on, wrapping, and the index moves one place on |
| SpawnPoints.WOSNetworkManager.FindSpawnPointsInScene | Assets/Scripts/Networking/WOSNetworkManager.cs:183-225 | the spawn array is a new array holding exactly the points the scene offers, empty when it offers none; the round-robin index is left as it was |
| SpawnPoints.RoundRobinAfterShrink | Assets/Scripts/Networking/WOSNetworkManager.cs:86-88 | as written, two round-robin spawns over three points followed by a scene with one point make the next spawn index past the end of the array |
| SpawnPoints.WOSNetworkManager.FindSpawnPointsInSceneCorrected | Assets/Scripts/Networking/WOSNetworkManager.cs:183-225 | corrected: the same new array, and the round-robin index restarts at 0 so it fits that array |
| SpawnPoints.RoundRobinAfterShrinkCorrected | Assets/Scripts/Networking/WOSNetworkManager.cs:86-88 | corrected, the same sequence spawns at the single new point |

## Left out

- Text is ASCII. `ToLower`, `char.IsLetterOrDigit`, `char.IsWhiteSpace` and case-insensitive comparison are modelled for ASCII only. Culture rules and other Unicode letters are not.
- `float` is modelled as `real`, so single-precision rounding is not modelled anywhere.
- PortServices.PortServicesConfiguration.FindBundleForServices: the test `matchCount >= requested * 0.7f` is modelled exactly, as `10 * matchCount >= 7 * requested`. Float rounding at the 70% boundary is not modelled.
- Unity and Mirror plumbing is not modelled: `Awake`/`OnEnable`/`OnDestroy` wiring, singleton `Instance` lookups, UI component discovery, `OnGUI`, gizmos, RPC fan-out and the client/server callbacks of the network manager.
- Coroutines (`ServerStatusCheckLoop`, `AutoRefreshLoop`, `FetchServersFromBackend`) are modelled as their separate steps. The waiting between steps is not modelled.
- Distances (`Vector3.Distance`), the current time, `Random.Range`, `Application.isBatchMode` and the success of starting a client or server are parameters.
- HTTP requests, JSON parsing, the database, password hashing and token signing are parameters or results handed to the operations.
- Player preferences are a `map<string, string>`. Writes to disk are not modelled.
- Console output is a list of entries. `FormatMessage` and stack traces are not modelled; they only format text.
- DebugLog.DebugManager.LogPerformance takes the elapsed time already formatted: the `F2` float formatting of `timeMs` is not modelled.
- The logger's `Initialize` and the presets `SetupShipAndOcean`, `SetupPerformanceOnly` and `SetupErrorsOnly` are not modelled, nor is `GetStats`. These only copy fixed flags or build display text.
- NavalControl.NetworkedNavalController: the commands (`CmdAdjustThrottle`, `CmdEmergencyStop`, `CmdAddWaypoint`, `CmdToggleAutoNavigation`, `CmdClearWaypoints`) and `UpdateNavigation` act on one object, which is the host-mode view. Replication is not modelled. In the source only the throttle and the emergency stop are synchronised; the route, its index and the auto-navigation flag are plain fields. `UpdateNavigation` runs only on the local player. So on a dedicated server with a remote client, the commands' route changes stay on the server's copy and the client's navigation does not see them.
- The ship's physics and steering are not modelled: `ApplyNavalPhysics`, `UpdatePhysics`, `HandleSteering`, the input callbacks and the speed getters. They are float dynamics and input plumbing; the input callbacks only forward to the `Cmd*` commands, which are modelled.
- The ocean tile manager's tile variation, biome colours, colour blending, `GetChunkCoordinates`, `GetChunkWorldPosition`, the debug helpers (`ForceEnableAllTileRenderers`, `DisableCullingOnAllTiles`, `ForceRebuildOcean`) and `GetOceanStats` are not modelled. They are rendering, or chunk arithmetic whose result is a parameter here.
- OceanChunks.OceanChunkManager.Update does not state the tiles and queues after a frame in which the camera changed chunk. They are UpdateOceanChunks' queues processed as ProcessTileQueues states; UpdateOceanChunks describes its queues by membership, so there is no single value to equate them to.
- ServerBrowser.ServerBrowserManager.RefreshServers models `serverList.Clear()` as assigning a new empty list. Subscribers to `OnServersUpdated` that kept the old `List` object would see it emptied in place; that aliasing is not modelled.
- PortServices.PortServicesConfiguration.GetServicesByTier states membership and multiplicity, not that the result keeps the list's order.
- OceanChunks.OceanChunkManager.FollowCamera states the recorded chunk, and that the queues are kept when the camera has not changed chunk. When the chunk changes, the new queues are those UpdateOceanChunks promises; that contract is not repeated here.
- OceanChunks.OceanChunkManager.SpawnTile records the default prefab for every tile. The biome configuration's choice of a per-depth prefab is not modelled; the depth lookup is a call into the biome asset.
- In the LOD manager, the wave-effect and ship-wake LOD loops (`UpdateWaveEffectsLOD`, `UpdateShipWakesLOD`, `ApplyWakeLOD`) are not modelled. They repeat the tile rule over other scene objects. `FindEnvironmentSystems`, `ForceUpdateLOD` and `GetStats` are also not modelled. The tile list that `RefreshOceanTileControllers` finds, each tile's distance to the camera and whether the camera moved more than 50 units are parameters of `UpdateLODSystems`.
- EnvironmentLod.EnvironmentLODManager.UpdateTileLOD models the tile cap as written, taking the finer of the two levels. The corrected rule is stated separately; see Findings.
- The editor ranges (`[Range]` attributes) of the LOD manager are part of its `Valid()` invariant rather than being checked on assignment.
- The address book's predefined servers (`AddPredefinedServer`, `GetPredefinedServer`, `GetAllPredefinedServers`) and the debug helpers `PrintAllServers` and `DebugClearAllServers` are not modelled. They are a separate lookup table, and logging.
- ServerConfigs.GetFullAddress returns the stored address unchanged. It has no contract of its own; HostPortRoundTrip relates it to GetServerIP and GetServerPort.
- ServerLaunch.ServerLauncher.StartServer models the player build, where a throwing start asks `Application.Quit(1)`. In the editor the source skips the quit; that build is not modelled.
- The launcher's `InitializeNetworkManager`, `PrintConnectionInfo`, `StartServerManually`, `StopServer`, `GetServerStatus` and `OnApplicationQuit` are not modelled. They only forward to the network library or print.
- In the join menu, the server-browser callbacks (`InitializeServerBrowser`, `OnServerListUpdated`, `OnServerBrowserError`, `UpdateServerConfigFromServerInfo`), `GetDisplayAddress` and the client connect/disconnect callbacks are not modelled. They copy values into UI text or the configuration asset.
- In the menu manager, `ValidatePanels` and `QuitGame` are not modelled; they only log, or quit the application. The Exit button is modelled as a request to quit.
- In the cargo configuration, `GridToWorldPosition`, `WorldToGridPosition`, `CalculateTotalWeight`, `GetWeightPerformancePenalty` and `GetWeightUtilization` are not modelled. They are float geometry and ratios.
- In the port services configuration, the cost, time and quality formulas, the tier multipliers, `ValidateConfiguration` and the clamps of `OnValidate` are not modelled. They are float formulas and editor checks.
- In the port integration configuration, `ShouldApplyPerformanceOptimization`, `GetQualityScaleForPerformance`, `ValidateConfiguration` and `GetIntegrationStats` are not modelled. They are float thresholds, warnings or display text.
- In the port configuration, `GetPriceModifier`, `GetServiceEfficiency`, `ValidateConfiguration` and `GetPortStats` are not modelled. They are float formulas and display text.
- In the docking configuration, `GetDirectionVector`, `GetDockingDuration`, `ValidateConfiguration` and the approach waypoints are not modelled. They are float geometry and timings.
- EdgegapFilter.SortServers states that the result is ordered and a permutation of its input. It does not state that LINQ's `OrderBy` is stable.
- PortServices.BestBundle on its own states only that a chosen bundle comes from the list. Its optimality is stated in BestBundleIsBest.

## Findings

| source | as written | input that shows it | evidently intended | confidence | as-written member | corrected member |
|---|---|---|---|---|---|---|
| Assets/Scripts/Networking/NetworkAddressManager.cs:206-207 | every address starting with "172." is classified as LAN | "172.234.24.224", the shipped default server, is classified as LAN | only the private block 172.16.0.0/12 (second part 16..31) is LAN | high, not executed | NetworkAddress.PublicAddressCalledLan | NetworkAddress.ClassifyPrivate172 |
| Assets/Scripts/Debugging/DebugManager.cs:156-167 | LogOnce records the message's time, then calls LogInternal, whose throttle finds that fresh time and drops the message | the first LogOnce of any message with the default throttle of 0.5 s writes nothing | the first LogOnce of a message is written | high, not executed | DebugLog.DebugManager.LogOnce | DebugLog.DebugManager.LogOnceCorrected |
| Assets/Scripts/Networking/WOSNetworkManager.cs:183-225 | a new scene replaces the spawn array without bringing the round-robin index back into range | three spawn points, two round-robin spawns, then a scene with one spawn point: the next spawn indexes past the end | the index restarts when the array is replaced | medium, not executed | SpawnPoints.RoundRobinAfterShrink | SpawnPoints.RoundRobinAfterShrinkCorrected |
| Assets/Scripts/ScriptableObjects/Configs/PortServicesConfigurationSO.cs:366-368 | the opening window is 12 - h/2 to 12 + h/2 with integer halves, so an odd h loses an hour | hoursAvailable = 1 gives the window 12 to 12, so the service is never open | the window is h hours long | medium, not executed | PortServices.OneHourServiceNeverOpen | PortServices.OneHourServiceOpenAtNoon |
| Assets/Scripts/Environment/EnvironmentLODManager.cs:262-266 | a tile takes the finer of its distance level and the global level, so a high global level raises far tiles to full detail and no tile is culled | global level High and a tile beyond the cull distance: the tile stays visible at High | the global level may only coarsen a tile ("performance adjustment"), taking the coarser of the two | medium, not executed | EnvironmentLod.EnvironmentLODManager.CappedTileIgnoresDistance | EnvironmentLod.EnvironmentLODManager.CorrectedTileCulledFarAway |
