# Battleship royale and the form library: a verified model

This project models two parts of the repository in Dafny and proves what they promise.

**The game.** A server (`source/serveur.c`) and any number of clients (`source/client.c`) play battleship over one
connection each. The server keeps the board twice: a grid of cell statuses and a ship record per player. `Board`,
`Shots` and `Verdicts` state what one placement, one shot, a list of shots and the end-of-round counting do to these
records; `Server` and `Client` hold the same operations as the sources have them, in classes with arrays, loops and
counters, each proved equal to its specification. `View` follows the board string from the server's grid to the board a
client shows, `Requests` the printer and scanner of the messages, `Placement` the parameter menu and the placing of a
ship, `Lobby` the accept loop and the key thread that run at the same time. `Settings` counts what the keys of the
parameter menu do, `Choosing` what a player's keys choose: cursor, directions, and the ships sent. `Protocol*` put the
server program and n client programs side by side, joined by two queues of whole messages per client, and prove
properties of every run under every schedule, for every choice of ships and shots; `ProtocolShots` follows the shots of
a round from the cells the players choose to the board. `Fleets` says which boards ships and shots can bring about;
`ProtocolBoards` shows that a running game has no others, and `ViewLimits` on which of them the clients' views are
right. `Session` joins menu, lobby and game.

**The form library** (`ncurses-6.4/form`). `FormBase` has what all of it shares. `FormPages`, `FormRings`,
`FormConnect` and `FormLife` build a form on a field array: page table, size, and a sorted circular list of fields per
page, by pointer assignments on heap objects; a failed construction is undone. `FieldStore` is the memory behind fields
and fieldtypes: maps from addresses to cells, where freeing removes the key, so that a use after free or a double free
has no meaning and is excluded by proof. `FieldLibrary` has the calls as the sources make them, one assignment at a
time, with their failure paths; `FieldRings` and `FieldRefs` prove that the rings of fields sharing a buffer and the
reference counts of types stay exact; `FieldRuns` and `FieldTheorems` state this for every sequence of calls, and
`FieldAsked` says member by member what each call leaves. `Arguments` is the recursive making and freeing of type
arguments under every pattern of failing allocations; `ArgumentLedger` and `ArgumentRuns` keep the account of all
arguments over every sequence of calls, and `TypeFlags` says which types have arguments and what is made for them.

Results where the code falls short of what one expects, with the exact condition:

- The players' views are right in every game exactly when the n * n digits fit the scan width
  (`ViewLimits.ViewFaithfulIff`). The client scans 99 characters (`source/client.c:857`), so boards up to 9 are shown right
  and the default board of 11 is not (`ViewLimits.ClientViewFaithfulIff`): for any number of players and any sizes,
  `ViewLimits.ViewLosesShot` gives a game in which a single shot has missed and no player is shown it.
- A request is parsed back to itself exactly when its name is nonempty, has no semicolon and at most 99 characters, and its
  payload is nonempty, has no white space and fits the scan width (`Requests.RoundTripIff`). The acknowledgements of the
  server have a blank as payload, which the receiver never stores (`Requests.BlankPayloadLost`); a longer payload arrives
  cut to the width (`Requests.PayloadCut`).
- Turning a ship round when it would leave the board is enough for every cursor position exactly when the board is at
  least 2 * taille - 2 wide (`Placement.AlwaysInsideIff`); the parameter menu keeps it at 2 * taille.
- A linked type is flagged as having arguments when it is linked. The flag says whether a leaf below has any as long as
  arguments are given only to types that are not linked and from which no type without arguments is built:
  `TypeFlags.GivingKeepsIff` is exact for one call, `TypeFlags.FlagsInRuns` states it for every run, and
  `TypeFlags.ToldTooLate` is a type whose leaf gets its arguments too late.
- In the parameter menu LEFT does not always take back what RIGHT did: `Settings.LeftUndoesRight` and
  `Settings.RightUndoesLeft` say exactly when.
- When one ship is left, the server announces the winner but leaves `etat` as it was (`source/serveur.c:568-598`):
  `Server.Game.VerifierFinPartie` says so, and `Fleets.OneSurvivorPossible` gives such a game for all players and sizes.

Assumptions: the grid starts all EMPTY with `nbBateau` 0 (`init_game` leaves the board unset,
`source/serveur.c:847-860`); each `envoyer` is received whole and in order by exactly one `recevoir`; keys, chosen cells,
delays, the allocator's answers and those of the callback functions are inputs, quantified over everywhere.

## Model

| member | source | states |
|---|---|---|
| Board.PlaceCellsClosed | source/serveur.c:727-773 | what the placement loop has written after n rounds, cell by cell: the n cells of the ship in the record and on the grid, everything else untouched |
| Board.PlacedShip | source/serveur.c:727-773 | for each of the four letters: record cell j is at distance j from the anchor that way, the grid turns BOAT on exactly the interval of the ship, one ship more is counted; any other letter changes nothing |
| Board.ShipIsInterval | source/serveur.c:727-773 | the cells of a ship are the literal interval leftwards, rightwards, upwards or downwards of its anchor |
| Board.ShipInsideIff | source/client.c:478-535 | a ship lies on the board if and only if its anchor does and the board reaches far enough its way |
| Board.EmptyBoardAgrees | source/serveur.c:847-860 | a board without ships whose grid is EMPTY has its two records in agreement |
| Board.PlacementAgrees | source/serveur.c:683-773 | placing the next ship inside the board, over other ships or not, keeps grid and ship records in agreement |
| Board.PlacementCovers | source/serveur.c:727-773 | a placement covers exactly the ship's own cells besides those covered before |
| Shots.ShotsRefine | source/serveur.c:486-489 | the loop of mutating shots equals a closed form that depends only on the set of in-range cells shot: covered cells HIT, bare ones MISSED, ship cells following, nothing else changed |
| Shots.ShotsOrderIrrelevant | source/serveur.c:486-489 | order, repetition and out-of-range shots do not matter |
| Shots.ShotExtends | source/serveur.c:633-681 | one shot, with the swapped arguments of tirer_bateau, adds exactly the cell aimed at to the cells shot |
| Shots.ShotsAgree | source/serveur.c:633-681 | after any shots every ship cell has the grid's status at its place, BOAT and HIT cells are covered, MISSED ones are not |
| Shots.SunkExactly | source/serveur.c:486-489 | a ship is sunk exactly when each of its cells was hit before or is among the cells shot |
| Shots.ShotKeeps | source/serveur.c:633-681 | a shot never raises a ship, moves one or changes how many there are |
| Verdicts.CountMeaning | source/serveur.c:533-578 | what the sunk counter and the survivor flag mean after n ships |
| Verdicts.VerdictMeaning | source/serveur.c:533-630 | 10 to the only player afloat, 9 to a loser of a decided game, 8 to a sunk and 7 to a floating player of an undecided one, each if and only if |
| Verdicts.OneWinner | source/serveur.c:568-598 | at most one player is told it has won; if the game is decided with a ship afloat, its owner is and all others are told 9 |
| View.EncodeAt | source/serveur.c:787-812 | where in the string each cell of the grid is |
| View.EncodeDigits | source/serveur.c:787-812 | the digit of a cell is 1 for a miss, 2 for a hit and 0 for anything else |
| View.DigitsShown | source/client.c:582-611 | a digit 1 is shown as a miss and 2 as a hit; 3, or any other on an own cell, as BOAT |
| View.ViewIsProjection | source/client.c:582-611 | if the string fits the scan, every cell shown is the projection of the server's: shots as they are, BOAT exactly on the own unhit cells, EMPTY elsewhere |
| View.BoardStringReceived | source/client.c:849-858 | printed and scanned as a request, the board string arrives cut to the scan width |
| View.EncodeHidesShips | source/serveur.c:787-812 | the strings of two grids are equal if and only if the grids agree up to unhit ships |
| View.OwnUnhitCellsShown | source/client.c:606-610 | on an agreeing board BOAT is shown exactly on the unhit cells of the player's own record |
| Requests.PlainRoundTrips | source/serveur.c:873-887 | parsing a printed plain request gives its three members back, whatever the receiver held |
| Requests.PayloadCut | source/serveur.c:873-887 | a one-word payload of any length arrives cut to the scan width, id and name unchanged |
| Requests.BlankPayloadLost | source/serveur.c:640-640 | the server's acknowledgement leaves the receiver's payload member as it was |
| Requests.RoundTripIff | source/serveur.c:873-887 | a request round trips if and only if it is plain |
| Requests.ScanIntPrinted | source/serveur.c:875-886 | the integer conversion reads back every printed integer and stops after it |
| Requests.IntsRoundTrip | source/serveur.c:779-779 | semicolon separated integers of any number and length round trip |
| Requests.ShotReachesServer | source/client.c:395-399 | the shot a client sends fits its buffer, and the server reads the cell aimed at |
| Requests.ShipReachesServer | source/client.c:807-809 | the same for the ship with its direction letter |
| Requests.ParametersReachClient | source/serveur.c:776-785 | the client reads the four parameters the server printed |
| Placement.ParameterMenu | source/serveur.c:169-264 | the menu loop launches exactly the games that the sequence of keys determines, which Settings counts |
| Placement.MenuKeepsParams | source/serveur.c:187-255 | whatever the keys, the settings shown and every game launched keep all limits and a ship of at most half the board |
| Settings.MenuStarts | source/serveur.c:847-860 | the menu shows 2 players, board 11, ship 5, timeout 15 and the display on before any key |
| Settings.RightKeys | source/serveur.c:221-254 | n presses of RIGHT raise the selected setting by n up to its limit and no other, but for the board that a longer ship needs, with the exact values |
| Settings.LeftKeys | source/serveur.c:187-219 | n presses of LEFT lower the selected setting by n down to its limit and no other, but for the ship that a smaller board allows, with the exact values |
| Settings.UpDownKeys | source/serveur.c:173-184 | n presses of UP or DOWN move the selection n lines, at most to the first or last, and do nothing else |
| Settings.OtherKeys | source/serveur.c:257-265 | ENTER launches a game with the settings on screen, q leaves the menu for good, other keys do nothing |
| Settings.LeftUndoesRight | source/serveur.c:187-254 | n presses of LEFT take back n of RIGHT if and only if no limit was met on the way, or met from the opposite one, and no longer ship has widened the board |
| Settings.RightUndoesLeft | source/serveur.c:187-254 | the converse, with the ship that a smaller board has shortened |
| Choosing.TurnedFits | source/client.c:478-535 | drawing turns a ship round if and only if it does not fit the way asked for, and turned round it fits |
| Choosing.LastWishIsLastArrow | source/client.c:743-768 | the direction wished for in the menu is that of the last arrow key, rightwards before the first |
| Choosing.CursorMoves | source/client.c:640-701 | n presses of an arrow key move the cursor n cells that way or to the edge, from the corner on, and do nothing else |
| Choosing.CursorOnBoard | source/client.c:673-701 | whatever the keys, the cursor stays on the board |
| Choosing.MenuStretch | source/client.c:743-830 | from ENTER on, until q, the cursor rests and every ENTER sends one ship, with the letter of the last arrow key of the menu if the ship fits that way, else the opposite one |
| Choosing.QuitAndOthers | source/client.c:820-830 | q closes the menu and does nothing else |
| Placement.TurnedInside | source/client.c:478-535 | the direction in force after drawing keeps the ship inside the board |
| Placement.AlwaysInsideIff | source/client.c:478-535 | it does for every cursor and direction if and only if the board is at least 2 * taille - 2 wide |
| Fleets.FleetShip | source/serveur.c:727-773 | after any further placements ship k is still where its own request put it |
| Fleets.MissPossible | source/serveur.c:643-663 | for any players and sizes, any cell of the board can be the one missed shot of a game |
| Fleets.PlayedAgrees | source/serveur.c:486-489 | on every board of a game the two records agree and there is one ship per player |
| Fleets.OneSurvivorPossible | source/serveur.c:554-598 | for any players and sizes there is a game with one survivor, whose sunk counter is one short so that etat stays |
| ViewLimits.ViewLosesShot | source/client.c:849-858 | if the string is longer than the scan there is a game in which no player sees the board right |
| ViewLimits.ViewFaithfulIff | source/client.c:849-858 | every player's view is right in every game if and only if n * n is at most the scan width |
| ViewLimits.ClientViewFaithfulIff | source/client.c:857-857 | with the client's scan width, exactly for boards up to 9 |
| Server.CollectOne | source/serveur.c:712-726 | taking one conforming ship keeps the state of the collection: as many ships as players served, one under each id, records in agreement |
| Server.Game.PlacerBateau | source/serveur.c:727-773 | the loop makes the board the placed one, which Board.PlacedShip spells out, in each of the four directions, and leaves it for any other letter; settings unchanged |
| Server.Game.RecevoirBateaux | source/serveur.c:683-725 | for any delays the collection ends with players 0 .. nbJoueur - 1 served once each in order and exactly their ships on the board |
| Server.Game.RecevoirBateau | source/serveur.c:700-724 | one arrived request extends the collection by that player's ship |
| Server.Game.TirerBateau | source/serveur.c:673-681 | the two loops hit exactly the ship cells at the transposed coordinates |
| Server.Game.RecevoirTir | source/serveur.c:643-663 | one shot makes the board the one after that shot |
| Server.Game.RecevoirTirs | source/serveur.c:486-489 | the shots of a round make the board the closed form on the set of cells shot |
| Server.Game.VerifierFinPartie | source/serveur.c:533-630 | the ids sent are the verdicts, the board is unchanged, and etat becomes 2 only if all ships are sunk |
| Server.Game.ADesCellulesIntactes | source/serveur.c:540-550 | the flag of the inner loops is set exactly if the ship is not sunk |
| Server.Game.EncoderPlateau | source/serveur.c:787-812 | the nested loops build the encoded grid |
| Client.ClientGame.DecodePlateau | source/client.c:582-611 | the loops give each cell its decoded status, own ship included |
| Client.ClientGame.MenuPlacerBateau | source/client.c:743-830 | the loop sends exactly one ship for each ENTER reached, at the cursor, with the letter of the last arrow key before it if the ship fits that way, else the opposite one; every ship lies on the board, the last one is the one recorded, the replies end the menu, and only q, a 0 or want of a key or a reply does |
| Client.ClientGame.EnregistrerBateau | source/client.c:771-805 | the cells recorded run from the cursor in the direction of the letter, and are those the server records for the anchor sent |
| Client.ClientGame.ChoixBateau | source/client.c:640-741 | for any keys and replies the ships sent are those the keys read have chosen; the one accepted is the first answered with 0 and the last sent, it lies on the board and is the one recorded, and the client waits only for want of a key or a reply |
| Lobby.StepKeeps | source/serveur.c:268-427 | every step of either thread keeps the lobby invariant |
| Lobby.LobbySound | source/serveur.c:268-427 | for every interleaving the player table holds each accepted connection once under its own index and no rejected one, and a game is launched with 2 to maxJoueur players |
| Lobby.PlayersAnsweredOne | source/serveur.c:379-419 | for every interleaving the players, followed by the one being entered, are in order exactly the connections whose identification read 1; one that answered anything else is in no slot |
| Lobby.EnterStarts | source/serveur.c:285-300 | ENTER with two players or more starts the game two steps of the thread later, whatever the accept loop does meanwhile |
| Lobby.EnterTooEarly | source/serveur.c:281-293 | with fewer than two players ENTER does nothing, and other keys never do |
| Lobby.LaunchFollows | source/serveur.c:374-427 | once the game is started the accept loop launches it within six of its steps, under every interleaving |
| Lobby.NobodyAfterStart | source/serveur.c:386-397 | once the game is started nobody is asked or let in who was not being identified already |
| ProtocolInvariant.InitialInv | source/serveur.c:431-455 | the invariant of the joint system holds when the lobby is over |
| ProtocolSteps.ClientStepKeeps | source/client.c:147-308 | every step of a client keeps the joint invariant |
| ProtocolServerSteps.ServerStepKeeps | source/serveur.c:431-502 | every step of the server keeps the joint invariant |
| ProtocolServerSteps.RunKeeps | source/serveur.c:431-502 | so does every run under every schedule |
| ProtocolTheorems.Lockstep | source/serveur.c:444-501 | the message at the head of a channel has the id its receiver waits for, no direction holds more than two, no client fails |
| ProtocolTheorems.NoDeadlock | source/serveur.c:444-501 | until the final statuses are acknowledged some process can step |
| ProtocolTheorems.LifeAgreement | source/client.c:207-294 | from the head of a round to its first shot a client is alive exactly if its ship has an unhit cell on the server |
| ProtocolTheorems.DeadMeansSunk | source/client.c:257-290 | at any moment the server's records agree and a dead client's ship is sunk |
| ProtocolTheorems.FinalAgreement | source/serveur.c:554-598 | at the end every client has finished, has won exactly if its ship floats, and at most one has |
| ProtocolTheorems.DeadStaysDead | source/serveur.c:600-630 | after an 8 a player is sent only 8 or 9, and nothing follows a 9 or 10 |
| ProtocolTheorems.OnlyTheLivingShoot | source/serveur.c:633-671 | the board changes only by a ship of the collection or a living player's shot; a dead player's message never changes it |
| ProtocolShots.AimSent | source/client.c:395-399 | the cell a living client chooses is the one its message carries |
| ProtocolShots.ShotTakenExactly | source/serveur.c:643-663 | in every reachable state, for every player: after the shot is taken the cell aimed at is HIT if it was BOAT or HIT and MISSED otherwise, and every other cell is as before |
| ProtocolShots.RoundShots | source/serveur.c:465-501 | under every schedule, at the first status of a round the board is the one at its head with exactly the cells shot that the living clients chose on the board; the living and no others have chosen one |
| ProtocolShots.NoShotYetTaken | source/serveur.c:465-489 | until the first shot of a round is answered the board is the one at its head |
| ProtocolTheorems.ViewAgreement | source/client.c:449-466 | once a client has its view of the round, the board it shows is the projection of the server's until the first shot, if the board fits the scan |
| ProtocolTheorems.StepsUseWork | source/serveur.c:465-501 | every step but the start of a round uses up one of at most 26 events per client |
| ProtocolTheorems.RoundsEnd | source/serveur.c:465-501 | no schedule takes more than 26 steps per client within a round |
| ProtocolBoards.ReachablePlayed | source/serveur.c:431-502 | once the ships are in, the board of every reachable state is one that n conforming ships and some shots bring about |
| ProtocolBoards.ShipSent | source/client.c:807-809 | the ship a client chooses is the one its message carries, and the one it remembers |
| ProtocolBoards.ShipKept | source/client.c:771-809 | it remembers that ship until it chooses another |
| ProtocolBoards.ShipsStand | source/serveur.c:700-773 | once the ships are in, the ship on the board under every client's id runs from the anchor it chose in the direction it chose |
| Session.SessionPlayable | source/serveur.c:101-455 | whatever keys set the parameters and whoever joined, the game launched has 2 to maxJoueur players and the sizes set, which the protocol's results cover |
| Session.SessionSafe | source/serveur.c:101-502 | from menu through lobby to any point of the game: client and server in step, and someone can move unless it is over |
| FormPages.PageOfMonotone | ncurses-6.4/form/frm_def.c:174-184 | page numbers grow along the array, strictly at an opening field |
| FormPages.PagesPartition | ncurses-6.4/form/frm_def.c:174-227 | every field is in exactly one page of the table, and there are as many pages as the first loop counted |
| FormPages.PageStartIff | ncurses-6.4/form/frm_def.c:203-213 | a page begins exactly at index 0 or a new-page field |
| FormPages.PagesAbut | ncurses-6.4/form/frm_def.c:199-225 | the first page begins at 0, the last ends at the last field, consecutive ones abut |
| FormRings.InsertFieldByPosition | ncurses-6.4/form/frm_def.c:79-113 | the pointers after the call form the ring with the new field before the first one not above or left of it |
| FormRings.WalkRing | ncurses-6.4/form/frm_def.c:79-113 | following snext in a ring meets its fields in turn and returns to the head |
| FormRings.Spliced | ncurses-6.4/form/frm_def.c:104-108 | the four assignments of a splice make a ring with the new field inserted |
| FormRings.InsertedInOrder | ncurses-6.4/form/frm_def.c:91-102 | inserting there keeps a ring in screen order |
| FormRings.SortPage | ncurses-6.4/form/frm_def.c:229-241 | the inner sorting loop leaves a ring of exactly the page's fields in screen order, each with its index and page |
| FormConnect.ClaimFields | ncurses-6.4/form/frm_def.c:174-185 | the first loop stops exactly at a field that is owned or occurred before, having claimed those before it, and otherwise counts the pages |
| FormConnect.FillPages | ncurses-6.4/form/frm_def.c:197-225 | the second loop leaves a page table that partitions the array and the form as wide and high as the running maxima |
| FormConnect.WidestIsMax | ncurses-6.4/form/frm_def.c:215-222 | the running maximum is the maximum |
| FormConnect.PagesApart | ncurses-6.4/form/frm_def.c:229-241 | two pages of an array without repetitions share no field |
| FormConnect.SortPages | ncurses-6.4/form/frm_def.c:228-252 | the third loop leaves every page sorted, sorting one never disturbing another |
| FormLife.CheckFields | ncurses-6.4/form/frm_def.c:174-195 | success of the first pass means a free array without repetitions; the code answered otherwise is exact |
| FormLife.ConnectFields | ncurses-6.4/form/frm_def.c:156-252 | the exact result code for every array, and on success a partitioned, sized and sorted form |
| FormLife.AnswerMeaning | ncurses-6.4/form/frm_def.c:174-195 | each code if and only if: a field owned or repeated, else no field or more than 32767, else no page table |
| FormLife.PageBounds | ncurses-6.4/form/frm_def.c:228-252 | smin and smax of a page are the indices of the first and last field of its ring |
| FormLife.PageTraversal | ncurses-6.4/form/frm_def.c:228-252 | from smin, snext visits every field of pmin .. pmax exactly once in screen order and returns; smax is the last |
| FormLife.FieldsOfPage | ncurses-6.4/form/frm_def.c:234-240 | every field knows its page, its index and its form, and sprev undoes snext |
| FormLife.FreshFormSize | ncurses-6.4/form/frm_def.c:215-222 | from a fresh form rows and cols are the exact maxima of the field extents |
| FormLife.DisconnectFields | ncurses-6.4/form/frm_def.c:123-143 | exactly the fields owned by this form lose their owner |
| FormLife.FreeForm | ncurses-6.4/form/frm_def.c:366-383 | a null or posted form is refused, any other gives up exactly its own fields |
| FormLife.NewForm | ncurses-6.4/form/frm_def.c:300-333 | a form is returned exactly if everything succeeds; on any failure every field's owner and all its other members are as before the call, for any array |
| FieldStore.PrefilledAt | ncurses-6.4/form/fld_def.c:318-331 | where the blanks and the terminators of a new field's buffers are |
| FieldRings.AloneKeepsRings | ncurses-6.4/form/fld_def.c:302-306 | a new field on a ring of its own keeps the partition into rings |
| FieldRings.SplicedLoop | ncurses-6.4/form/fld_link.c:70-71 | the two link assignments put the new field behind the old one in its ring |
| FieldRings.LinkKeepsRings | ncurses-6.4/form/fld_link.c:63-91 | link_field keeps the partition: one ring per buffer, all its members sharing it |
| FieldRings.BypassedLoop | ncurses-6.4/form/fld_def.c:371-380 | taking a field out leaves a ring of the others |
| FieldRings.FreeKeepsRings | ncurses-6.4/form/fld_def.c:366-380 | free_field keeps the partition, and a ring goes exactly with its last member |
| FieldRings.AloneIff | ncurses-6.4/form/fld_def.c:366-370 | a field is linked to itself if and only if no other field has its buffer |
| FieldRings.SameBufferIff | ncurses-6.4/form/fld_link.c:70-73 | two fields share a buffer if and only if link leads from one to the other |
| FieldRefs.FieldsRecount | ncurses-6.4/form/fld_def.c:213-257 | changing holders and counting the changes keeps every count equal to the number of references |
| FieldRefs.TypeAdded | ncurses-6.4/form/fld_ftlink.c:61-75 | a new type starts without references, and a linked one adds one to each operand |
| FieldRefs.TypeDropped | ncurses-6.4/form/fld_newftyp.c:132-147 | freeing a type without references takes one from each operand and leaves nothing dangling |
| FieldRefs.NobodyHolds | ncurses-6.4/form/fld_newftyp.c:132-133 | a count of zero means that nothing refers to the type |
| FieldRuns.DoKeeps | ncurses-6.4/form/fld_def.c:213-397 | every call, succeeding or failing, keeps rings, buffers, counts and the order of types |
| FieldRuns.RunKeeps | ncurses-6.4/form/fld_def.c:213-397 | so does every sequence of calls from the initial library |
| FieldTheorems.SharingIsLinking | ncurses-6.4/form/fld_link.c:63-91 | in every sound store sharing a buffer is being on one ring |
| FieldTheorems.BuffersExactly | ncurses-6.4/form/fld_def.c:366-380 | the buffers allocated are exactly those of live fields |
| FieldTheorems.BufferGoesWithLast | ncurses-6.4/form/fld_def.c:366-370 | free_field frees the buffer if and only if no other field uses it |
| FieldTheorems.FreeableIff | ncurses-6.4/form/fld_newftyp.c:124-147 | free_fieldtype succeeds if and only if the type is not built in and nothing refers to it |
| FieldTheorems.CountsExact | ncurses-6.4/form/fld_type.c:58-77 | in every store of every run ref is the number of references, and no field, default field or linked type refers to a freed type |
| FieldTheorems.BuiltinsStay | ncurses-6.4/form/fld_newftyp.c:132-136 | built-in types are never freed and never without a reference |
| FieldTheorems.LinkThenFree | ncurses-6.4/form/fld_link.c:93-96 | freeing a field just linked restores the store |
| FieldTheorems.NewThenFree | ncurses-6.4/form/fld_def.c:337-342 | freeing a field just made restores the store |
| FieldTheorems.LinkTypesThenFree | ncurses-6.4/form/fld_newftyp.c:138-146 | freeing a linked type just made restores the store |
| FieldAsked.NewAsked | ncurses-6.4/form/fld_def.c:286-336 | after new_field: size, place and buffers as asked for, the default type, and everything else as before |
| FieldAsked.DupAsked | ncurses-6.4/form/fld_dup.c:58-84 | after dup_field: the source's shape and type, the place asked for, a buffer of its own, and everything else as before |
| FieldAsked.TextCopied | ncurses-6.4/form/fld_dup.c:82-90 | in a sound store the copy has the source's text, character by character, over all its buffers |
| FieldAsked.LinkAsked | ncurses-6.4/form/fld_link.c:63-91 | after link_field: the source's shape, type and buffer, the place asked for, behind the source on its ring, and everything else as before |
| FieldAsked.FreeAsked | ncurses-6.4/form/fld_def.c:355-397 | after free_field: who was linked to the field is linked to its successor, its type has a reference less, and everything else is as before |
| FieldAsked.TypeAsked | ncurses-6.4/form/fld_type.c:58-77 | after set_field_type: the new type, or none if its arguments cannot be made, one reference moved, and everything else as before |
| FieldAsked.LinkTypesAsked | ncurses-6.4/form/fld_ftlink.c:57-75 | after link_fieldtype: the two operands, arguments if and only if one of them has, a reference more for each, and everything else as before |
| FieldAsked.FreeTypeAsked | ncurses-6.4/form/fld_newftyp.c:124-147 | after free_fieldtype: the type gone, a reference less for each operand, and everything else as before |
| FieldAsked.WhenTheyFail | ncurses-6.4/form/fld_def.c:275-397 | the code of every call on fields and fieldtypes, and that one that fails, other than set_field_type, has changed nothing |
| FieldLibrary.Library.CopyType | ncurses-6.4/form/fld_def.c:213-238 | the field gets the type and the type a reference, or the field no type and no count changes |
| FieldLibrary.Library.FreeType | ncurses-6.4/form/fld_def.c:248-257 | the field's type loses one reference |
| FieldLibrary.Library.Prefill | ncurses-6.4/form/fld_def.c:318-331 | the nested loops turn any buffer contents into blanks with terminators |
| FieldLibrary.Library.Release | ncurses-6.4/form/fld_def.c:366-396 | on any ring: successor linked to predecessor, type released, buffer freed only if alone and present |
| FieldLibrary.Library.Predecessor | ncurses-6.4/form/fld_def.c:375-378 | the loop ends, at the field linked to the given one |
| FieldLibrary.Library.FreeField | ncurses-6.4/form/fld_def.c:355-397 | the store after free_field, refused for a null or connected field |
| FieldLibrary.Library.NewField | ncurses-6.4/form/fld_def.c:275-343 | the store after new_field; if anything fails it is exactly as before |
| FieldLibrary.Library.Abandon | ncurses-6.4/form/fld_def.c:337-342 | freeing the unfinished field restores the store |
| FieldLibrary.Library.DupField | ncurses-6.4/form/fld_dup.c:51-99 | the store after dup_field, with the copied buffer that FieldAsked.TextCopied spells out, or everything as before |
| FieldLibrary.Library.LinkField | ncurses-6.4/form/fld_link.c:52-96 | the store after link_field: the new field behind the old one, or everything as before, ring included |
| FieldLibrary.Library.AbandonLink | ncurses-6.4/form/fld_link.c:93-96 | freeing the unfinished linked field restores ring and store |
| FieldLibrary.Library.SetFieldType | ncurses-6.4/form/fld_type.c:49-81 | the old type is released in any case; the new one is attached and counted, or none is |
| FieldLibrary.Library.NewFieldtype | ncurses-6.4/form/fld_newftyp.c:74-112 | the store after new_fieldtype |
| FieldLibrary.Library.LinkFieldtype | ncurses-6.4/form/fld_ftlink.c:52-86 | the store after link_fieldtype, with the flag that TypeFlags.FlagsInRuns gives a meaning, or everything as before |
| FieldLibrary.Library.FreeFieldtype | ncurses-6.4/form/fld_newftyp.c:124-147 | the store after free_fieldtype, refused while referenced or built in |
| Arguments.MadeFrom | ncurses-6.4/form/fld_def.c:85-118 | the nodes made come from the allocator's answers, each used once |
| Arguments.MakeTree | ncurses-6.4/form/fld_def.c:85-118 | whatever fails, the result is a tree of exactly the nodes allocated, and no error is counted if and only if nothing is missing |
| Arguments.FreeTree | ncurses-6.4/form/fld_def.c:180-202 | freeing a tree removes exactly its nodes, hands each leaf argument to its freearg once, and touches no freed node |
| Arguments.MakeThenFree | ncurses-6.4/form/fld_def.c:85-202 | for every type and every pattern of failures, freeing what was made restores the memory and hands every argument made to its own freearg exactly once |
| Arguments.Memory.MakeArgument | ncurses-6.4/form/fld_def.c:85-118 | the recursion has exactly the specified effect on memory, answers and error count |
| Arguments.Memory.FreeArgument | ncurses-6.4/form/fld_def.c:180-202 | the recursion removes exactly the tree's nodes and makes exactly its freearg calls |
| Arguments.Memory.Attach | ncurses-6.4/form/fld_type.c:60-72 | success leaves a complete tree, any failure leaves the memory as it was and every argument made released |
| ArgumentLedger.UnfoldSame | ncurses-6.4/form/fld_ftlink.c:66-74 | a type unfolds to the same tree as long as it and what it is built from stay, whatever other types come and go |
| ArgumentLedger.UnfoldUnique | ncurses-6.4/form/fld_ftlink.c:66-74 | the tree that a linked type unfolds to is well defined |
| ArgumentLedger.LedgerInRuns | ncurses-6.4/form/fld_def.c:85-202 | in every store that library calls reach, every live type unfolds to a finite tree and its ledger balances |
| ArgumentLedger.Dropped | ncurses-6.4/form/fld_def.c:248-257 | releasing one field's argument takes exactly its tree and leaves all others |
| ArgumentLedger.Planted | ncurses-6.4/form/fld_type.c:63-64 | making one field's argument adds exactly its tree and disturbs no other |
| ArgumentRuns.StepKeeps | ncurses-6.4/form/fld_def.c:85-397 | every call keeps the account of arguments balanced, failing ones included |
| ArgumentRuns.RunBalanced | ncurses-6.4/form/fld_def.c:85-397 | in every state of every run the argument nodes are the disjoint union of the live fields' complete trees, no freed node was touched, and every argument made is handed to its freearg as often as made or still outstanding |
| ArgumentRuns.NothingLeft | ncurses-6.4/form/fld_def.c:355-397 | when all fields are freed no node is left and the arguments made are those handed back |
| TypeFlags.GivingKeepsIff | ncurses-6.4/form/fld_arg.c:78-85 | giving a type arguments keeps all flags right if and only if it has some already, or is not linked and every type built from it has some |
| TypeFlags.FlagsKept | ncurses-6.4/form/fld_ftlink.c:66-74 | every other call keeps the flags right |
| TypeFlags.TreeMeaning | ncurses-6.4/form/fld_ftlink.c:66-74 | a type is a leaf, or linked of what its two operands are |
| TypeFlags.FlagMeaning | ncurses-6.4/form/fld_ftlink.c:67-68 | if the flags are right a type has arguments if and only if some leaf below it has |
| TypeFlags.FlagsInRuns | ncurses-6.4/form/fld_ftlink.c:66-74 | in every store of every run in which no linked type, nor one from which a type without arguments is built, is given arguments, a type has arguments if and only if some leaf below it has |
| TypeFlags.FlagsInPasses | ncurses-6.4/form/fld_ftlink.c:66-74 | in the runs of the account of arguments the flags are right as long as no linked type is given arguments |
| TypeFlags.ToldTooLate | ncurses-6.4/form/fld_arg.c:78-85 | a leaf given arguments after it was linked, and the linked type that does not know |
| TypeFlags.MakesEvery | ncurses-6.4/form/fld_def.c:85-118 | making the arguments of a type, if nothing fails, gives every leaf that has arguments the next answer of the makearg functions, none of them null, and asks for no others |
| TypeFlags.SetTypeMakesEvery | ncurses-6.4/form/fld_type.c:63-76 | after a set_field_type that succeeds every leaf of the field's type that has arguments has the answer of its makearg in the field's tree, and what is due to freearg functions grows by those whose type has one |
| TypeFlags.ReleaseHandsBack | ncurses-6.4/form/fld_def.c:180-202 | releasing a field's argument hands every argument in its tree whose type has a freearg to that freearg, in order, and calls no other |

## Left out

- Drawing, colours, key input, the I2C display and the timers: keys, chosen cells and expiry are inputs.
- Sockets, shared memory and thread primitives: queues of whole messages, and steps on shared variables. An empty poll of the collection loop is a delay in `Server` and not a step in `Protocol`.
- Server behaviour after a winner is announced: the source's loop goes on because `etat` stays; the joint model ends when the final statuses are acknowledged.
- The read at source/client.c:228 with the printing function as deserialiser: a read whose contents are ignored, as the code that follows does.
- Boards of more than 999 cells, whose string exceeds the request buffer, and board views beyond the scan width in `ProtocolTheorems.ViewAgreement`: outside it, `ViewLimits.ViewFaithfulIff` says what happens.
- Clients that do not follow source/client.c, and connections that break.
- Requests.RoundTripIff: is about printing and scanning. format_req copies at most 99 and 999 characters and writes no terminator after a full copy (source/serveur.c:865-871), so a name of 99 characters is only printed right if the byte after it happens to be 0; names up to 98 and payloads below 999 always are.
- Board, player and ship indices outside the fixed arrays of the sources, and a timeout that overflows an int.
- TypeFlags.SetTypeMakesEvery: for stores whose flags are right, which `TypeFlags.FlagsInRuns` and `TypeFlags.FlagsInPasses` give; where a leaf got its arguments too late, none are made for it.
- Server.Game.PlacerBateau: one loop stands for the four that differ only in the direction.
- Client.ClientGame.EnregistrerBateau: one loop stands for the four that differ only in the direction.
- Field arrays of more than 65535 entries, where the count wraps round to a small positive short.
- FormLife.NewForm: the array itself is a sequence, so a caller that changes it later is not modelled; form_driver's search for the first active field, windows and hooks are not part of this model.
- FormLife.FreshFormSize: for field extents between 1 and 32767, which fit the form's short members; `FormConnect.Widest` keeps the cast for all others.
- set_form_fields: its rollback does not release partly connected fields, so no atomicity holds.
- FieldStore.FieldMade: buffer counts above 32767, which the source casts to a short, and overflow of buffer sizes.
- Members of a field that only the driver and the attribute setters use, and the wide-character configuration.
- FieldLibrary.Library.CopyType: copying arguments succeeds or fails as an input. The source's copy of a linked type's argument recurses with the linked type itself instead of its operands (ncurses-6.4/form/fld_def.c:146-147), so it is not modelled as a tree copy.
- FieldLibrary.Library.FreeType: its reference only; releasing the argument is `ArgumentRuns.Released`, proved with all others in `ArgumentRuns.RunBalanced`.
- FieldLibrary.Library.SetFieldType: whether the arguments can be made is an input; in `ArgumentRuns.Step` it is the outcome of making them.
- ArgumentRuns.RunBalanced: new_field, dup_field and link_field of a type with arguments copy them and are not among its calls, and set_fieldtype_arg is called only on a type that nothing refers to.
- ArgumentLedger.LedgerInRuns: a type must not gain arguments (set_fieldtype_arg) between making and freeing.
- Field validation, generic types and the built-in types' own callbacks.
