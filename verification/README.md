# Bus journeys over a network of stations

A Dafny model of the station servers (one in Python, one in C) that answer "how do I get from here to there,
leaving at this time?" by flooding UDP packets, and of the programs that generate their networks and timetables.
`dafny verify dfyconfig.toml` checks the whole project.

## What is modelled

- **The packet handler.** `Protocol` gives the handler of both servers as one function of a station and a payload,
  in three stages (at the destination, at the source, onward), and what a station does with its list of queries.
  `PyServer` and `CServer` are the two programs in their own form: a mutable Python payload, query list and list of
  waiting clients; C arrays allocated by `load_payload` and written in place, the query ring (`QueryRing`) and the
  linked client list (`Clients`). Both are proved to do what the functions say, and to end exactly when a finished
  payload's query is not held.
- **Runs of a network.** In `Runs` a state holds every packet in flight, the queries every station holds, the stations
  that are down, and a record of what was asked, injected and came home. A run is any sequence of questions, timeouts
  and deliveries; a delivery picks any packet. A delivery its station cannot handle, or a finished payload whose query
  it does not hold, takes the station down, and packets to it are lost from then on.
- **The programs and the runs.** `Simulation` has both servers, in their own form, keep step with their station in a run:
  the same packets, the same queries held, down exactly when the program has ended.
- **What a payload holds.** `Journey` writes down, for every stage and position, the one payload there can be; `Steps`
  proves the handler moves from each to the next, and `Positions` draws out what any packet in flight satisfies.
- **What a station can bear.** `Capacity` proves that a hundred different queries never take a station down, and says
  exactly which packets in flight will; `Overflow` proves that 101 can.
- **Exactly the simple paths come home** (`Enumeration`), by counting, per path, the packets that lead to it.
- **Floods die out** (`Termination`), by a weight summed over the packets in flight.
- **The earliest arrival.** `Itinerary` proves that the forward pass is best on its path and that a trip over a walk
  with loops is never faster than one over a simple path; `Earliest` puts the parts together: what a Python station has
  stored in the end. `Replies` is about what a waiting browser is told, and `AskAgain` about what a browser is sent that
  asks for a journey with an answer; neither need be what is stored, and `Triangle` has a network of three stations in
  which both differ from it.
- **The wire** (`Codec`, `RoundTrip`, `PayloadC`, `Wire`) and the length of its lines (`Sizes`), **Warshall and the two
  network builders** (`Graphs`, `Warshall`, `Routes`), **the timetable generator and its files** (`Generator`,
  `TimetableFile`, `FileRoundTrip`).
- **All of it together.** `GeneratedNetwork`: a generated network meets every assumption of the protocol, so each
  query on it ends with the earliest arrival.

## Assumptions

- Names and addresses are one to one; a neighbour entry is the address that neighbour uses for itself; neighbour
  lists have no duplicates and never name the station itself; an address is a host, a colon and a port number. Names,
  addresses, routes and times are not empty and hold no white space (as Python's `split` sees it) and no semicolon.
  Every station can read its own departures, and every station of the network every arrival; for a C station that means
  digits, a colon, digits (`Journey.WellFormed`).
- The destination asked for is not the asking station, the asking station can read the starting time, and neither holds
  white space or a semicolon (`Journey.ValidKey`). `Wire.InitialLineIsReadIff` says that exactly these queries come back
  from the wire as they were asked by a Python station, and `Wire.InitialLineIsLoadedIff` which by a C station. With a
  semicolon in the name the Python handler raises if and only if fewer than three words stand before it, on one line
  (`Wire.SemicolonCutsTheLine`).
- Timetables do not change during a run; the channel neither loses, repeats, cuts nor invents packets, except that
  packets to a station that is down are lost. On a generated network of at most twenty stations no packet is long enough
  to be cut (`Sizes.TwentyStationsFitADatagram`).
- For optimality (`Itinerary.Regular`), in each timetable the buses to one station arrive in file order, none arrives
  before it leaves, and every time is before 99:99. Departures need not be sorted. For a table whose departures do
  increase, `Timetable.GreedyIffNoOvertaking` shows that this order is exactly what greedy search needs.
- A C station searches all rows but the last, so "every bus" means every row that station can find.
- In `Sizes` a character is a byte.

## Where the code does not do what one would expect

- The first payload is `0 0 0 ...` with no hop, not the `0 1 1 source ...` of the repository's README
  (`Wire.InitialLine`).
- The C search never looks at its last row; `Timetable.SearchesAgreeIff` says exactly when that changes its result, and
  `Timetable.LastBusIsMissed` has a table of two rows on which it does.
- A station goes down when a payload comes home to a query it does not hold: `server.py` reads the answers of `None`
  at line 528, `main.c` follows a null pointer at line 241 (`Runs.StationFailsIff`). A full Python list drops every new
  query for good and floods for it all the same (`Capacity.FullListStaysAsItIs`), and a full C ring forgets its oldest,
  for which a client may still wait. A hundred different queries are always safe (`Capacity.HundredQueriesAreSafe`); 101
  need not be, at any station that can reach another (`Overflow.OneQueryTooMany`, `Triangle.BroughtDown`).
- A waiting browser is told when the first payload comes home, not when the fastest does (`Replies.FirstIsTold`). That
  is the earliest arrival if and only if none that comes home later is faster (`Replies.FirstToldIsEarliestIff`), and one
  can count on it if and only if all simple paths arrive at the same time (`Replies.AlwaysToldTheEarliestIff`).
  `Triangle.ToldTooLate` has a run in which a browser is told 20:00 though 11:00 is possible.
- A Python station goes on to store the earliest arrival (`Earliest.EarliestArrival`), but a browser that asks again is
  sent whatever line the station wrote last (`PyServer.Server.OnRequest`). In every run that is the stored answer if and
  only if the last packet the station handled brought home the path of the stored answer and no flood has been asked of
  it since (`AskAgain.SentTheAnswerIff`). Even if nothing else was asked, and that once, one can count on it if and only
  if there is at most one simple path (`AskAgain.AlwaysSentTheAnswerIff`). In `Triangle.SentTooLate` nothing is left to
  happen, 11:00 is stored and 20:00 is sent.
- C's `search_query` returns a copy, so a C station never keeps an answer (`Capacity.CStationsStoreNothing`,
  `Triangle.NothingKept`). The earliest-arrival theorem is about Python stations.
- A C station that is asked floods only at its next timeout: the call that would flood at once is commented out at
  line 406 of `main.c`. In `Runs` asking and the timeout are two actions.
- Python's `remove_client` never unlinks the head of the list, told or not (`Clients.StaysIffFirst`). So after a payload
  that found a client waiting, the next for the same journey tells another if and only if that client was not the first
  in the list and the next that waits is not closed (`PyServer.NextIsToldIff`); in `PyServer.ToldByTheThird` the second of
  two is told by the third payload only, and only because somebody has asked for something else.
- `main.c` reads a row of the timetable at index -1, to print it, at line 278, exactly when the search before it finds no
  bus and 99:99 is written. The model leaves printing out.

## Model

| member | source | states |
|---|---|---|
| Text.ClockRoundTrip | timetable/timetable.c:96-100 | reading back a printed "%02i:%02i" gives the minutes, for every number; below 6000 it fits five characters |
| Text.PrintedClock | files/buildrandomtimetables.c:183-191 | a printed time is hours, a colon and two digits of minutes below 60, the hours of two digits below 100 hours |
| Text.PrintedClockIsTheOnly | files/buildrandomtimetables.c:183-191 | below 100 hours no other string of that form means the same time |
| Text.TimeToMinutesIs | server.py:170-179 | what the Python reader makes of any string: two numbers around a colon, or a dash, or 0 with neither, and an exception for all others |
| Text.NumeralsAreDecimal | files/buildrandomtimetables.c:185-188 | numerals are decimal, and padded to two digits |
| Timetable.SearchTimetable | server.py:203-220 | the Python loop returns the first row that leaves in time for the station, or none |
| Timetable.SearchTimetableC | timetable/timetable.c:102-117 | the C loop finds what the first-match search finds in all rows but the last |
| Timetable.FirstMatch | server.py:203-210 | the search returns the row at the least matching index, and fails exactly when none matches |
| Timetable.SearchesAgreeIff | timetable/timetable.c:103-107 | the two searches differ if and only if the last row matches and no row before it does |
| Timetable.LastBusIsMissed | timetable/timetable.c:102-107 | on a table of two rows the C search misses a bus the Python search finds |
| Timetable.SearchAgain | server.py:494-502 | searching from the departure just found gives the same row, sorted or not |
| Timetable.GreedyIffNoOvertaking | server.py:203-210 | with increasing departures, the first bus is the best at every time if and only if none overtakes |
| PyServer.Message.UpdateOnArrival | server.py:77-88 | a hop is appended to all four lists while found is 0; current goes down, below zero if it must, when found is 1 |
| PyServer.Message.Deserialize | server.py:56-75 | the fields become the parsed payload, or stay when the pattern does not match |
| PyServer.QueryManager.Add | server.py:157-162 | a query is appended unless the list is full |
| PyServer.QueryManager.Search | server.py:164-168 | the first query for this journey |
| PyServer.QueryManager.Update | server.py:510-525 | the stored answer is replaced only by a strictly faster one; the answer then read is that of the query found, and none where none was |
| PyServer.Server.OnDatagram | server.py:473-575 | sends and finishes what the protocol says, and the line kept last is that of the payload finished, sent on or appended; ends exactly when a finished payload's query is not in the list, and otherwise records it and tells and closes the first client that waits |
| PyServer.Server.OnLine | server.py:473-478 | a line is parsed, handled, answered, recorded and kept as above, and each payload sent on is serialized; a line that does not match is handled as an empty payload, and one whose words run out ends the program |
| PyServer.Server.TurnAtDestination | server.py:481-491 | found goes from 0 to 1 with a hop appended, and from 2 to 3 |
| PyServer.Server.TurnAtSource | server.py:493-506 | found goes from 1 to 2 with the first departure, and from 3 to 4 |
| PyServer.Server.Dispatch | server.py:508-575 | an answer recorded and told, or else packets sent on, by the value of found; the exception at line 528 exactly for a query not in the list |
| PyServer.Server.Answer | server.py:508-541 | the query list, the client list, the closed sockets and what one client is told, or the exception |
| PyServer.Server.SendOn | server.py:542-575 | one packet onward, or back, or a flood, by the value of found |
| PyServer.Server.WriteLeg | server.py:548-561 | the next station's time and route are written, or 99:99 and NOTFOUND |
| PyServer.Server.Flood | server.py:573-575 | one copy to each neighbour not yet visited, in order |
| PyServer.Server.OnRequest | server.py:436-467 | exactly with an answer in the first entry for the journey the browser is sent the line kept last, and closed; otherwise it waits first in the list, an unknown query is registered, one initial packet is sent and its line is kept |
| PyServer.AnswerIsStored | server.py:510-525 | after a finished payload the entry of its journey holds it, or the answer it held if that is as fast, and every other entry is as it was |
| PyServer.FirstIsToldWhatIsStored | server.py:528-541 | the first client that waits is told, unless closed before, what the entry of the journey then holds, and is closed |
| PyServer.NextIsToldIff | server.py:141-149 | after a payload that found a client waiting, the next tells another if and only if that client was not first in the list and the next that waits is not closed |
| PyServer.ToldByTheThird | server.py:528-541 | of two that wait for a journey, and a third client for another, the second is told by the third payload only |
| Protocol.WrittenIsSent | server.py:508-575 | whatever the handler finishes or sends is the payload whose line it wrote |
| Protocol.HopIsAppended | main.c:188-198 | a flooded payload gains one hop of this station, with dots, or the first row at a C destination; current is one more in Python and hops in C |
| Protocol.FloodGoesTo | server.py:573-575 | a copy goes to a neighbour exactly when the payload has not visited it |
| Protocol.SourceWrites | server.py:493-501 | the source writes the departure of the first row that matches, or 99:99, and nothing else |
| CServer.Server.OnDatagram | main.c:187-321 | the C handler does what the protocol says within the slots load_payload allocated; it follows a null pointer exactly when a finished payload's query is not in the ring, and otherwise every client that waits is told this payload and leaves |
| CServer.Server.OnLine | main.c:178-184 | a line is loaded, handled and answered as above, and every payload sent on is crafted |
| CServer.Server.OnRequest | main.c:378-389 | a query not in the ring is added, the browser waits first in the list and once, nothing is sent |
| CServer.Server.TurnAtDestination | main.c:187-204 | as in Python, with the first timetable row as placeholder, and a slot left for the flood |
| CServer.Server.TurnAtSource | main.c:207-231 | as in Python, indexing the stations by current |
| CServer.Server.Dispatch | main.c:235-321 | look-up and draining of the clients, or the null pointer, for a finished payload; else packets sent on |
| CServer.Server.SendOn | main.c:258-321 | one packet onward, or back, or a flood, by the value of found, in place |
| CServer.Server.WriteLeg | main.c:266-282 | the leg's slots are overwritten, all others kept |
| CServer.Server.Flood | main.c:305-320 | the nested loops choose exactly the neighbours not among the stations before this one |
| PayloadC.CPayload.constructor | payload/payload.c:41-68 | four arrays of hops slots, one more while found is 0 |
| PayloadC.CPayload.Append | main.c:298-303 | the slot after the last becomes the new hop and current becomes hops |
| PayloadC.FillSlots | payload/payload.c:74-77 | the slots hold the next tokens in order; it fails exactly when strtok runs out |
| PayloadC.LoadPayload | payload/payload.c:36-101 | the strtok scan loads exactly what the line means, into fresh arrays of the allocated size |
| PayloadC.CraftPayload | payload/payload.c:3-34 | the strcat loops build the crafted line |
| PayloadC.CraftFits | payload/payload.c:3-34 | line and terminator fit the allocation for every hops >= 1, with names up to 60, times 5 and addresses 23 characters |
| Steps.FloodOn | server.py:569-575 | a flooded payload becomes one copy with this station appended, for every unvisited neighbour |
| Steps.Arrival | server.py:481-485 | at the destination it becomes a found payload on its simple path, sent one station back |
| Steps.Backtrace | server.py:562-568 | a found payload goes back one station, unchanged but for current |
| Steps.TurnAtSource | server.py:493-502 | at the source it turns forward with the first departure and the first leg written |
| Steps.ForwardWalk | server.py:548-561 | each station writes the next leg and sends it to the next station |
| Steps.TurnAtDestination | server.py:488-491 | with every leg written it turns back from the destination |
| Steps.WayBack | server.py:542-547 | it goes back one station, unchanged but for current |
| Steps.Finish | server.py:504-512 | at the source it is the finished answer for its path |
| Steps.DeliveryKeepsLegitimacy | server.py:473-575 | every legitimate packet can be handled up to the look-up of its query, and leaves only legitimate ones, or its path's answer |
| Runs.BestIsMinimum | server.py:517-524 | the running choice is the first minimum of the answers to a query, and is missing exactly when there are none |
| Runs.EveryRunKeepsInv | server.py:473-575 | in every reachable state, stations down or not, packets, answers and query lists keep their invariant |
| Runs.StationFailsIff | server.py:508-528 | a delivery takes its station down if and only if it brings home a payload whose query the station does not hold |
| Runs.PythonFloodsIff | server.py:453-458 | asked, or at a timeout, a Python station sends one initial packet if and only if the query is not registered or no answer to it has come home |
| Runs.CFloodsAtTimeoutOnly | main.c:403-407 | asked, a C station sends nothing; at a timeout it sends one initial packet |
| Simulation.PythonDelivers | server.py:473-575 | the Python program ends, sends, finishes, keeps queries and writes its line as the run's delivery says |
| Simulation.PythonAsks | server.py:436-467 | asked, it holds the queries and sends the packets the run says |
| Simulation.CDelivers | main.c:178-321 | the C program ends, sends, finishes and keeps its ring as the run's delivery says |
| Simulation.CAsks | main.c:378-407 | asked, its ring is the list the run says, and nothing is sent |
| Positions.EveryPacketIsInPlace | main.c:187-321 | lists of length hops, distinct addresses, source first, destination last exactly when found, addressed to the current station; every payload index and time the handler works with is in range, up to the look-up of the query |
| Positions.EveryPacketAsksWhatWasAsked | server.py:542-575 | destination, source and starting time of every packet are those of an injected query, whose station begins its path |
| Positions.ForwardPacketIsOptimal | server.py:548-557 | in flight, each time gathered is the least arrival along the path so far over every choice of buses |
| Capacity.HundredQueriesAreSafe | server.py:151-162 | a station asked at most a hundred different queries is never down and holds each of them |
| Capacity.DeliveriesAreHarmlessIff | server.py:508-528 | however all packets in flight are delivered, every station stays up if and only if each query with a route on its way home is held |
| Capacity.FullListStaysAsItIs | server.py:157-162 | a full Python list never takes another query, in any continuation, and no answer to one it lacks ever comes home |
| Capacity.CStationsStoreNothing | client/client.c:46-61 | no C station ever has an answer stored |
| Overflow.OneQueryTooMany | server.py:510-528 | at any station that can reach another, 101 different queries can end with that station, alone, down |
| Enumeration.EveryRunConserves | server.py:473-575 | in every state, packets leading to a path plus its answers never exceed the injections of the query, and equal them while no station of the path is down |
| Enumeration.ExactEnumeration | server.py:473-575 | once quiet, only simple paths have come home, none more often than injected, and each whose stations are up exactly that often |
| Termination.HandlingLowersWeight | server.py:542-575 | a delivery leaves less weight than the packet had, however many copies it sends |
| Termination.DeliveriesAreBounded | server.py:542-575 | a run delivers no more packets than the weight of what was injected |
| Termination.FloodsDieOut | server.py:542-575 | any run, with stations down or not, can be continued by deliveries until nothing is in flight |
| Itinerary.FirstLegAgrees | server.py:494-502 | times[0], routes[1] and times[1] describe one bus |
| Itinerary.FailureIsAbsorbing | server.py:552-554 | after 99:99 every later time is 99:99 and every later route NOTFOUND |
| Itinerary.ForwardPassIsEarliest | server.py:548-557 | the time written at a station is at most the arrival of any choice of one bus per leg |
| Itinerary.ForwardPassIsReached | server.py:548-557 | a time short of 99:99 is the arrival of buses that can be caught one after another |
| Itinerary.LoopsCanBeCut | server.py:573-575 | every trip over any walk is matched by one over a simple path that arrives no later |
| Itinerary.WalkGivesRoute | server.py:573-575 | a destination some walk reaches is reached by a simple path |
| Earliest.EarliestArrival | server.py:473-575 | once quiet with no station on its routes down, a registered query's stored answer is the earliest over all trips on all walks, 99:99 exactly when there is none, missing exactly when no walk leads there |
| Earliest.HundredQueriesAreAnswered | server.py:473-575 | while no station was asked more than a hundred different queries, none is down, every query is registered, and each that is quiet has the earliest arrival |
| Earliest.StoredAnswerIsBestSoFar | server.py:517-524 | at any moment the stored answer is a fastest of those come home |
| Earliest.RegisteredUnlessFull | server.py:445-449 | an injected query is in the list unless the list is full |
| Earliest.SameAnswer | main.c:192-197 | the answer for a path does not depend on which program each station runs |
| Earliest.MixedNetworksAgree | main.c:266-276 | networks that differ only in the programs bring home the same answers equally often, for every path with no station down |
| Replies.FirstIsTold | server.py:528-541 | a Python station tells the best that has come home, a C station what just came, so the first who are told are told the first payload to come home |
| Replies.FirstToldIsEarliestIff | main.c:251-256 | what is told first is the earliest if and only if none that came home later is faster |
| Replies.AnyRouteMayComeFirst | server.py:573-575 | every simple path is the first to come home in some run of one question |
| Replies.AlwaysToldTheEarliestIff | server.py:528-539 | in every run what is told first is the earliest, if and only if all simple paths arrive at the same time |
| AskAgain.SentTheAnswerIff | server.py:459-463 | in every run a browser that asks again is sent the stored answer if and only if the station last handled the homecoming of its path, with no flood asked since |
| AskAgain.SlowerMayBeSent | server.py:459-463 | for any two paths a run in which the faster is stored and the slower is sent to a browser that asks again |
| AskAgain.AlwaysSentTheAnswerIff | server.py:459-463 | with one question asked once, the stored answer is always sent if and only if there is at most one simple path |
| Triangle.ToldTooLate | server.py:528-539 | a run, with either program, in which the first told is not the earliest |
| Triangle.SentTooLate | server.py:459-463 | a settled run in which the earliest arrival is stored and a browser that asks again is sent the later one |
| Triangle.NothingKept | main.c:240-249 | a run in which two answers came home to a C station and none is stored |
| Triangle.BroughtDown | main.c:240-241 | a run of 101 queries, with either program, that takes a station down |
| Triangle.TriangleExists | server.py:528-539 | the network of these runs exists; asked at 07:00 it may answer 20:00 for a station one can reach by 11:00 |
| RoundTrip.EncodersAgree | server.py:46-54 | with at least one hop the two encoders write the same bytes |
| RoundTrip.DeserializesBoth | server.py:56-75 | Python reads every payload of tokens from either encoder |
| RoundTrip.LoadsBoth | payload/payload.c:36-101 | C loads every payload of tokens from either encoder |
| RoundTrip.CodecsInteroperate | payload/payload.c:3-101 | all four pairs of encoder and decoder round-trip, with any number of hops |
| Wire.EveryPacketSurvivesTheWire | server.py:473-478 | every packet of every run is read back as it was, whichever programs write and read it |
| Wire.EveryAnswerSurvivesTheWire | server.py:512-523 | every answer is read back from the line a station stores |
| Wire.LineMeansItsWords | server.py:56-75 | any line that begins with three numbers is cut up by its words, and raises only with fewer than three |
| Wire.TwoHopLine | server.py:46-54 | the line of a payload with two hops in full, from either encoder |
| Wire.InitialLineIsReadIff | server.py:56-75 | Python reads its first line back if and only if name and time are not empty and hold no white space and no semicolon |
| Wire.SemicolonCutsTheLine | server.py:58-73 | a semicolon in the name asked for: no match after a line end, and otherwise an exception if and only if fewer than three words stand before it |
| Wire.InitialLineIsLoadedIff | main.c:151 | C loads its first line back if and only if the name is not empty and holds no blank, and the time is not empty and holds no semicolon |
| Sizes.EveryPacketFitsItsBuffer | payload/payload.c:3-34 | in a run craft_payload never overruns its buffer, with names up to 60, addresses up to 23 and times up to 5 characters |
| Sizes.EveryLineIsBounded | server.py:46-54 | no line of a run is longer than a path through all stations can make it |
| Sizes.TwentyStationsFitADatagram | server.py:265-268 | on a generated network of at most twenty stations every line is shorter than the 1024 bytes received |
| Warshall.CopyMatrix | files/buildrandomtimetables.c:51-55 | w becomes a copy of adj |
| Warshall.UpdateRow | files/buildrandomtimetables.c:57-63 | a row stays sound and gains every walk through stations up to k, though w is read while overwritten |
| Warshall.Warshall | files/buildrandomtimetables.c:49-73 | w ends as the transitive closure, and the result is true exactly when every ordered pair is joined by a walk |
| Routes.FreshDrawLowersMissing | files/buildrandomtimetables.c:83-87 | a fresh draw lowers the missing links by exactly two entries and keeps the network symmetric and irreflexive |
| Routes.LinkedIsNetwork | files/buildrandomtimetables.c:79-87 | after any draws the matrix is symmetric and irreflexive |
| Routes.LinkedIff | files/buildrandomtimetables.c:83-87 | two stations are linked exactly when they differ and a draw has named them, in either order |
| Routes.BuildRoutes | files/buildrandomtimetables.c:77-89 | the loop stops at the first draw after which the network is connected, and otherwise uses every draw |
| Routes.CompleteIsConnected | files/buildrandomtimetables.c:88 | the complete graph on two or more stations is accepted |
| Routes.EnoughDrawsConnect | files/buildrandomtimetables.c:79-88 | draws that name every pair leave a connected network |
| Routes.ConnectedHasNeighbour | files/buildrandomtimetables.c:152-171 | in a connected network every station has a neighbour, so 60 / nn is defined |
| Routes.BuildLinearRoutes | files/buildlinetimetables.c:81-88 | the linear builder sets exactly the links of the line |
| Routes.ChainIsConnected | files/buildlinetimetables.c:81-88 | the line is a connected network |
| Routes.ChainIsALine | files/buildlinetimetables.c:81-88 | the line has n - 1 links, and joins a station with the one before and the one after |
| Generator.CountNeighbours | files/buildrandomtimetables.c:152-158 | nn is the number of links of the station |
| Generator.BuildTimetable | files/buildrandomtimetables.c:169-197 | the loop's rows and end time are those of the day's recursion, for any draws |
| Generator.BusesAreDrawn | files/buildrandomtimetables.c:175-196 | bus k is that of the k-th draw that names a link: its skew after its distance, and the next bus a headway, both parts of the draw and 2 minutes after it, until closing |
| Generator.TimetableIsDrawn | files/buildrandomtimetables.c:169-196 | the same with the first bus nn minutes after opening and a headway of 60 / nn |
| Generator.BusesNeverOvertake | files/buildrandomtimetables.c:175-196 | departures increase, arrivals at one station increase, each bus takes its distance and at most two minutes more |
| Generator.BusesAreSpaced | files/buildrandomtimetables.c:169-195 | the first bus leaves on time and each next one a headway and 2 to 6 minutes later, lateness not counted |
| Generator.FullDayHasABus | files/buildrandomtimetables.c:175-196 | a day that runs to its close has a row |
| Generator.LabelsDiffer | files/buildrandomtimetables.c:93-116 | up to 676 stations get different names |
| Generator.NameIsNumber | files/buildrandomtimetables.c:104-117 | a name of one letter, or two with the lower first, is the number of its station |
| Generator.LabelsTakeTurns | files/buildrandomtimetables.c:91-102 | a label is one of four kinds, in turn, and the name |
| Generator.RowSays | files/buildrandomtimetables.c:185-191 | the route names this station and then the other, the stop this one, the last column the other's label |
| Generator.GeneratedTableIsRegular | files/buildlinetimetables.c:182-210 | a generated table is readable, ordered, before 24:00 and never overtakes |
| Generator.GeneratedRowsAreShort | files/buildrandomtimetables.c:169-197 | generated routes and times survive the wire and have at most eight and five characters |
| TimetableFile.SkipToStation | timetable/timetable.c:18-32 | the first loop stops after the first line that holds a station |
| TimetableFile.Store | timetable/timetable.c:49-56 | a row is written below the size, and the array is doubled when full |
| TimetableFile.ReadTimetable | timetable/timetable.c:3-61 | the array holds the file's rows in order and is never written at or past its size |
| FileRoundTrip.FileReadsBack | files/buildrandomtimetables.c:165-188 | the C reader finds the station and exactly the printed rows |
| FileRoundTrip.RowLooksLikeThis | files/buildrandomtimetables.c:185-191 | a printed row is its five columns, joined by commas |
| FileRoundTrip.IsRowIff | timetable/timetable.c:43-48 | a line is a row for the C reader exactly when it has five columns that fit its fields |
| FileRoundTrip.IsStationIff | timetable/timetable.c:23-31 | a line is a station for it exactly when it has three |
| FileRoundTrip.LineByLine | timetable/timetable.c:18-48 | any other line, and any comment, is passed over |
| FileRoundTrip.EntryByEntry | server.py:190-193 | each line adds its columns to the Python entries unless it is blank or a comment |
| FileRoundTrip.SplitCommasIs | server.py:193 | the columns hold no comma and joined by commas they are the line |
| FileRoundTrip.StripIs | server.py:191 | strip takes off white space at both ends and leaves none there |
| FileRoundTrip.EntriesReadBack | server.py:187-194 | the Python reader's entries are the station line and then the printed rows |
| FileRoundTrip.GeneratedFileReadsBack | files/buildrandomtimetables.c:165-188 | every generated file reads back, in both servers, as the rows generated |
| Clients.ClientList.Add | client/client.c:5-15 | the new client is first, the others follow in order |
| Clients.ClientList.Find | client/client.c:17-26 | the first client that asked this journey, or null when none did |
| Clients.ClientList.Remove | client/client.c:28-39 | the first node with this descriptor is unlinked, the others keep their order |
| Clients.ClientList.RemovePython | server.py:141-149 | a descriptor is removed exactly when the head does not have it |
| Clients.RemoveFdPythonIs | server.py:141-149 | it takes out the client on the descriptor, and no other, unless that is the first of all |
| Clients.StaysIffFirst | server.py:141-149 | after Python's remove_client a descriptor is still in the list if and only if the first client has it |
| Clients.ClientList.Drain | main.c:251-256 | each matching client is answered once, in order, and exactly the others remain, in order |
| Clients.ClientList.Readd | main.c:384-388 | the client is first in the list, once, and the others on other descriptors keep their order |
| Clients.RemoveThenAddKeepsFdsDistinct | main.c:384-388 | remove-then-add never puts a descriptor in the list twice |
| QueryRing.Ring.Add | client/client.c:41-44 | the ring takes the query after the ones it holds |
| QueryRing.SlotsHold | client/client.c:41-44 | the slots hold exactly the last hundred queries, and blanks before that |
| QueryRing.RingIsList | client/client.c:41-44 | adding to the ring is adding to a list that drops its oldest when full |
| QueryRing.RingHoldsList | client/client.c:46-61 | a query with a name is found in the ring exactly when it is in that list |
| QueryRing.Ring.Search | client/client.c:46-61 | a query is found exactly when one of the last hundred, or a blank of a ring not yet full, matches |
| QueryRing.Finish | main.c:235-257 | a null pointer exactly when the query is not in the ring; otherwise all clients of the journey are drained and told the reply; the ring keeps nothing |
| GeneratedNetwork.GeneratedIsRegular | files/buildrandomtimetables.c:137-203 | a generated network meets every assumption of the protocol |
| GeneratedNetwork.EveryQueryIsAnswered | server.py:473-575 | on a generated network whose stations were asked at most a hundred queries each, a quiet query has an answer and it is the earliest arrival |

## Left out

- Sockets, `select`, signals and local address discovery: packets are a collection from which any may be delivered next.
- The HTTP text, `parse_query`, the browser page and the shell scripts.
- The wait loops at a timeout appear only as the flood they start. `main.c` walks a list it is freeing there, and the loop of
  `server.py` never moves on from its first client.
- Reloading a timetable when its file changes: tables are fixed for a run.
- A source asking for itself, an unreadable starting time, a name or time with white space or a semicolon and a payload with
  found above 4: the servers raise, misread the line or run past an array there.
- Strings on which `int()` would accept signs, blanks or underscores count as unreadable, and digits are ASCII digits.
- The sizes of the C string buffers inside a payload: only the line `craft_payload` builds is measured.
- Coordinates: the distance between two stations is any whole number up to 78, and `rand` is any sequence of draws.
- Printing, logging, freeing memory, and the past-midnight search that is commented out in both servers.
- PayloadC.LoadPayload: lines on which it would read a missing number or token give null, because what the C code then does is undefined.
- What happens to a network after a station is down is modelled as the loss of every packet sent to it; a restart is not.
- CServer.Server.WriteLeg: does not model the print at line 278 of `main.c`, which reads index -1 when no bus is found.
- Positions.EveryPacketIsInPlace: does not cover that print, which computes nothing.
- Which clients still wait at a C station when a wait times out: a timeout may come for any query the station was asked,
  though `main.c` floods only for clients in its list. What is proved of all runs is proved of those as well.
- PyServer.Message.Deserialize: asks that the words do not run out, because the code raises there and leaves the object half changed; PyServer.Server.OnLine says that the program then ends.
- Generator.BuildTimetable: takes finitely many draws and says whether the day was closed, because the source's loop need not end for every sequence of draws.
