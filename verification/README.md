# Verified models of the hard parts of Syncless

Syncless is a library for coroutine I/O.  This project models the parts of it that are state machines or
algorithms in their own right, and proves what they are for:

- the asynchronous DNS resolver (`Resolver.dfy`), with its request lists (`Requests.dfy`), its ring of
  nameservers (`Nameservers.dfy`), its domain search (`SearchDomains.dfy`), and its reader and writer of
  compressed names (`DnsName.dfy`, `DnsNameWriting.dfy`, `DnsNameRoundTrip.dfy`, `DnsRequest.dfy`);
- the tasklet scheduler with its channels (`Scheduler.dfy`), and two clients of it: the message queue
  (`Queues.dfy`) and the reordering of the runnables by helper tasklets (`Surgery.dfy`);
- the substring search (`FastSearch.dfy`);
- the event loop with its deadlines (`MiniEvent.dfy`, `TimeVals.dfy`);
- the byte buffer (`EvBuffer.dfy`).

The sources are imperative, and so are the models: the lists are linked objects whose `next` and `prev` are
rewritten in place, arrays are written in loops, and every method is proved against a specification on ghost
sequences.  What the world does is arbitrary: packets, what a send does, times, readiness, the ids drawn, and
what callbacks do are inputs or free choices.  The callback of a lookup records its outcome.

## How to read the main results

*Resolver.*  `Resolver.Inv` says that both request lists are well-formed rings without common members, that the
counters are their lengths, that exactly the requests on the wire have a server, that their packets carry their
ids, that sends and reissues stay within their limits, that every search is on its plan, and that nothing on the
wire is forgotten: each such request has its timer running, or is due while some socket is watched for room.
`Resolver.Conserved` says that the accepted lookups are those of the requests on the lists plus those told, as
multisets.  `Resolver.Settled` says that no lookup waits while there is room on the wire.  `Resolver.Run` keeps
them over every sequence of inputs, and takes only lookups that the inputs ask for; `Resolver.Step` says exactly
which, and what every input does.  `ExactlyOnce`, `SearchFollowsOrder`, `PacketAsks`, `BoundedEffort` and
`BoundedLookup` say what that means for one lookup and for one request, and `TakenDown` what it means for a server
that does not answer.

*Names.*  A `Walk` is a finite path through labels and pointers (section 4.1.4 of RFC 1035).
`ParseIsMeaning` says that the parser succeeds exactly on finite paths whose text fits, so its pointer budget
never refuses a name without a loop.  `MessageRoundTrip` is the round trip for whole messages that share one
label table.

*Scheduler.*  `Scheduler.Inv(null, null)` says that the runnables are one doubly linked ring that starts at
current, that every queue is apart from it, that each balance is sends minus receives and the signed length of
the queue, and that what a woken receiver holds is the value of the send with the number of its receive.
`Scheduler.Play` keeps it over every run, whose story tells each step exactly (`Leads`).  `Scheduler.Resume` returns
that value.  `Queue.Inv` adds that every item that is there while a receiver waits has a woken receiver on the ring,
apart from wake-ups given up.

*Event loop.*  `EventLoop.Dispatch` lets the callbacks of one pass delete and add events as they like, and bounds
the examinations by the events linked at the start and those added.  `EventLoop.Loop` strings the passes together:
a persistent timer that no callback touches has moved by its timeout for each time that it fired (`SteadyTimer`),
and each turn makes of the deadlines and signals what `TakesTurn` says.

## Where the code does not do what it promises

- An exact condition for the round trip of names: an empty label ends the name on the wire, so the text of a
  name survives exactly if no label in front of a dot is empty, or it is the bare dot (`TextSurvivesIff`).
- The closing zero of a name is written without a check of the buffer's size.  `PlainWriteLength` gives the
  exact length, and `RequestAlwaysFits` shows that the size computed for a request always suffices.
- A reply "server failed" is to be treated as a timeout, according to the comment at
  coio_src/coio_minihdns.c:825-828; the code goes on to the search or tells the caller at once, and the model
  follows the code (`Resolver.JudgeServer`, `Resolver.ReplyHandle`).
- After a bad reply a request is to be tried on another server (coio_src/coio_minihdns.c:676-691).  A request
  that was not sent yet has moved already when its server goes down, and the next pick may fall on the server
  it moved to; then it counts as not worth a reissue.  `Resolver.WillReissue` is the exact condition: with g
  servers left up and m unsent requests of that server from this one on, it is reissued if and only if m is no
  multiple of g.  `OneOtherServer` is the whole family with g = 1, and `NotReissued` a run into it.
- Each name of a search is to be tried once.  Adding a domain or changing the threshold changes the list that
  searches under way hold, in place.  `SearchFollowsOrder` holds while the list is untouched;
  `AddedInMidSearch` and `NdotsInMidSearch` say exactly what a change does; `TriedAgain` is an input and
  `TriedTwice` a run.
- A suspension starts the count of sends and reissues over, so the number of sends of one request has no bound
  but the number of suspensions (`BoundedEffort`).  `SentAgain` shows that the bound is attained: under limits that
  allow one sending, a request is sent n + 1 times in a run with n suspensions, for every n, unless a socket of one
  of the servers was full.
- `transaction_id_pick` takes an id that the head of the list on the wire has (`Resolver.Acceptable` is the
  condition); `EqualIds` is a run that ends with two requests on the wire under one id.
- A channel handover does not put the woken tasklet on the ring if its stale `prev` is current.  `Send` and
  `Receive` state both cases (`Scheduler.Stale` is the guard), and `LostReceiver` is a run into the bad one.
- Taking the last of several waiters off a channel loses the end pointer of the queue, and only that
  (`Scheduler.Harm` is the guard; `Channel.Withdraw`, `Scheduler.RemoveFromChannel` and `Scheduler.Throw` state
  it), and `LostEnd` is a run into it.
- A message queue wakes a receiver for each item put in while receivers wait.  If a tasklet fails, its exception
  is raised in main; if main was woken for an item and did not run yet, the item stays and nobody comes for it.
  `Queue.givenUp` counts those wake-ups, one exactly for each failure while main is woken (`Queue.Step`), and the
  promise holds up to that number (`Queue.Play`, `Queue.SomeoneComes`).  Once nobody is woken, those who wait stay
  until something is put in, and beside the same items unless somebody asks for one (`Queue.Play`); `LostWakeUp` is
  a run into that state, and stays in it.
- A pending signal makes select return at once, but if select then reports nothing and no deadline is finite, the
  pass that would deliver the signal is skipped (the clause on `passed` of `EventLoop.LoopOnce` says exactly
  when), and `MissedSignal` is such a turn.

## Model

| member | source | states |
|---|---|---|
| `NameParsing.WriteLabel` | coio_src/coio_minihdns.c:900-907 | A dot (except before the first label) and the label are appended to the output exactly if they leave room for the closing zero |
| `NameParsing.NameParse` | coio_src/coio_minihdns.c:864-918 | Terminates on every packet; returns 0 exactly when the specification run succeeds, and then the output holds the name and its zero, and the index moves to where the run says; otherwise it stays |
| `NameParsing.JumpsAreDistinct` | coio_src/coio_minihdns.c:887-897 | A finite path never jumps to the same offset twice |
| `NameParsing.JumpsFitBudget` | coio_src/coio_minihdns.c:894-896 | Pigeonhole: a path without a loop stays within the pointer budget, so the guard fires on loops only |
| `NameParsing.ParseComplete` | coio_src/coio_minihdns.c:876-918 | On a finite path the parser yields exactly the path's labels joined by dots and the offset behind the first pointer, or fails for lack of room |
| `NameParsing.ParseIsMeaning` | coio_src/coio_minihdns.c:864-918 | Main result: for every packet, offset and limit, the parser yields a result if and only if a finite path from the offset denotes it and its text fits |
| `NameParsing.ParseAdvances` | coio_src/coio_minihdns.c:911-914 | On success the index is strictly advanced and at most the packet's length |
| `NameWriting.LabelTable.GetPos` | coio_src/coio_minihdns.c:1218-1227 | The position of the first entry for a suffix, or -1 |
| `NameWriting.LabelTable.Add` | coio_src/coio_minihdns.c:1230-1245 | Adds an entry at the end; a table with 128 entries refuses and stays as it is |
| `NameWriting.Pointer` | coio_src/coio_minihdns.c:1285-1288 | As a 16-bit number in network order the pointer is 0xc000 and the low 14 bits of the position; the reader takes the same 14 bits (`NameParsing.Target`) |
| `NameWriting.DnsnameToLabels` | coio_src/coio_minihdns.c:1258-1322 | Writes what the specification of compressed writing says, updates the table likewise, even when it fails, and leaves every other byte alone |
| `NameRoundTrip.WriteAppends` | coio_src/coio_minihdns.c:1283-1319 | Writing never touches the bytes before the name |
| `NameRoundTrip.PointerStands` | coio_src/coio_minihdns.c:1285-1288 | The pointer written for a known suffix reads back as that suffix; it goes strictly backwards |
| `NameRoundTrip.WriteStands` | coio_src/coio_minihdns.c:1283-1319 | After a successful write the name and every new table entry stand in the bytes, on paths whose pointers go strictly backwards |
| `NameRoundTrip.TextSurvivesIff` | coio_src/coio_minihdns.c:1289-1318 | Exactly which names come back as they went in, up to a trailing dot: those without an empty label before a dot, and the bare dot |
| `NameRoundTrip.ComposeSound` | coio_src/coio_minihdns.c:1258-1322 | In a message of names and other bytes that share one table, every name stands where it was put, also after later items |
| `NameRoundTrip.MessageRoundTrip` | coio_src/coio_minihdns.c:864-1322 | Main result: each name of such a message parses back to its labels, and a clean name to its own text, with the reader at the start of the next item |
| `DnsRequest.EvdnsRequestDataBuild` | coio_src/coio_minihdns.c:1338-1363 | The packet is the header, the name and type and class, with the length or the error code that the specification says; `RequestReadsBack` says what numbers they are |
| `DnsRequest.RequestReadsBack` | coio_src/coio_minihdns.c:1345-1357 | A built packet, read by 16-bit numbers in network order: the id, 0x0100, one question, no records, and behind the name the type and the class |
| `DnsRequest.PlainWriteLength` | coio_src/coio_minihdns.c:1283-1319 | Without a table, writing succeeds exactly if the labels fit and there is room up to the closing zero, and has exactly the wire length |
| `DnsRequest.RequestAlwaysFits` | coio_src/coio_minihdns.c:1324-1363 | In the size computed for it, a request is built if and only if the name and each of its labels are within the lengths that DNS allows, refused with a negative code otherwise, and it fits |
| `DnsRequest.NameLimits` | coio_src/coio_minihdns.c:1281-1313 | The names that can be encoded, in plain numbers: at most 255 bytes, and no 64 bytes in a row without a dot |
| `DnsRequest.RequestRoundTrip` | coio_src/coio_minihdns.c:1338-1363 | The question of a built request parses back as the name it was built for |
| `SearchDomains.StringNumDots` | coio_src/coio_minihdns.c:1708-1716 | The loop from dot to dot counts every dot of the text, as a multiset of characters does |
| `SearchDomains.SearchState.PostfixAdd` | coio_src/coio_minihdns.c:1915-1933 | The domain without leading dots comes first, the rest is unchanged, and the counter stays the length |
| `SearchDomains.OnlyDotsGo` | coio_src/coio_minihdns.c:1919-1919 | Exactly the leading dots of a domain go |
| `SearchDomains.SearchState.ReverseList` | coio_src/coio_minihdns.c:1937-1949 | Reverses the list in place; the counter stays its length |
| `SearchDomains.SearchState.MakeNew` | coio_src/coio_minihdns.c:1977-2002 | The base name with the n-th domain, which is the one `DomainBehind` describes; for n below the counter the end of the list is never reached |
| `SearchDomains.DomainBehind` | coio_src/coio_minihdns.c:1984-1995 | The name that is tried begins with the base, ends with the domain, has one dot between them and no byte more; its labels are those of the base, less a closing dot, and behind them those of the domain |
| `SearchDomains.SearchOrder` | coio_src/coio_minihdns.c:2004-2081 | Main result: while the list stays as it is, the names tried are raw then every domain in list order, or every domain then raw, by the number of dots; each once, one more than there are domains |
| `SearchDomains.RestIs` | coio_src/coio_minihdns.c:2044-2074 | From any place in a search, what is left are the domains behind it and then the raw name if it has too few dots |
| `SearchDomains.AddedInMidSearch` | coio_src/coio_minihdns.c:1915-1933 | A domain added in mid-search always adds one try, and that is the name tried last once again, unless that was the raw name |
| `SearchDomains.NdotsInMidSearch` | coio_src/coio_minihdns.c:1957-1963 | A threshold changed in mid-search keeps the tries that are left if and only if the dots of the name are on the same side of both; else the raw name is tried twice or never |
| `Nameservers.NameserverRing.Pick` | coio_src/coio_minihdns.c:1098-1130 | Terminates; returns the next server that is up and moves the head behind it, or if none is up moves the head on by one and returns that; the branch that asserts is never reached |
| `Nameservers.NameserverRing.PickEach` | coio_src/coio_minihdns.c:1095-1130 | Main result on the choice: while no state changes, a row of picks is the one predicted, and as many picks as servers are up return each of them exactly once |
| `Nameservers.NameserverRing.MarkDown` | coio_src/coio_minihdns.c:574-598 | The up set loses the server, the counter follows, and the first probe timer is set only if it was up |
| `Nameservers.NameserverRing.MarkUp` | coio_src/coio_minihdns.c:621-631 | The up set gains the server, and the counter follows |
| `Nameservers.NameserverRing.Add` | coio_src/coio_minihdns.c:1633-1646 | Puts a server behind the head of the ring that runs through `next`; its `prev` is the head, whose own `prev` follows only if the head was alone |
| `Nameservers.NameserverRing.Unknown` | coio_src/coio_minihdns.c:1597-1613 | One turn of the ring finds whether an address is known |
| `Nameservers.RoundRobin` | coio_src/coio_minihdns.c:1095-1130 | The same of the predicted picks, for every ring and every set of servers that are up |
| `Nameservers.ComesBack` | coio_src/coio_minihdns.c:1095-1130 | From behind a server that is up, the n-th pick is that server again if and only if n is a multiple of the number of servers that are up |
| `Requests.RequestList.Insert` | coio_src/coio_minihdns.c:1694-1706 | At the tail of a circular doubly linked list |
| `Requests.RequestList.Unlink` | coio_src/coio_minihdns.c:642-653 | Takes one request out of such a list and keeps the order of the others |
| `Requests.RequestList.PopHead` | coio_src/coio_minihdns.c:710-721 | Takes the head out |
| `Requests.RequestList.StepBack` | coio_src/coio_minihdns.c:1572-1576 | The last request becomes the first |
| `Requests.LookupsMinus` | coio_src/coio_minihdns.c:642-653 | Taking a request off a list takes exactly its lookup off |
| `Requests.LookupsCounts` | coio_src/coio_minihdns.c:363-363 | A lookup counts once for every request on a list that stands for it |
| `Resolving.ProbeNameIsEncodable` | coio_src/coio_minihdns.c:1491-1492 | A packet can always be built for the name that is probed with |
| `Resolving.Resolver.constructor` | coio_src/coio_minihdns.c:363-448 | The empty resolver satisfies everything that the steps keep |
| `Resolving.Resolver.TransactionIdPick` | coio_src/coio_minihdns.c:1075-1093 | The id is not 0xffff and passes the walk, which does not exclude the id of the list's head |
| `Resolving.Resolver.RequestFindFromTransId` | coio_src/coio_minihdns.c:519-533 | The first request on the wire with an id |
| `Resolving.Resolver.MoveUnsent` | coio_src/coio_minihdns.c:607-617 | Exactly the requests of the failed server that were not sent yet move to servers that are up, one pick for each, in list order |
| `Resolving.Resolver.NameserverFailed` | coio_src/coio_minihdns.c:574-618 | The up set loses the server; requests move exactly if it was up and another one is |
| `Resolving.Resolver.TransmitTo` | coio_src/coio_minihdns.c:1392-1419 | 0, 1 or 2 exactly as the send did; a hard error takes the server out of the up set, anything else changes nothing |
| `Resolving.Resolver.Transmit` | coio_src/coio_minihdns.c:1421-1467 | Either one more send is counted, the timer runs and the request is no longer due, or nothing is counted, it is due, and its server is choked; a choked server is not tried; 0 exactly if the packet went out, and the up set loses the server exactly if the send failed |
| `Resolving.Resolver.EvdnsTransmit` | coio_src/coio_minihdns.c:1499-1520 | Tries every due request: each is sent once, and that is counted, or is due still, and then some socket is full; those not due stay as they are; the result is whether one was due; no server comes up |
| `Resolving.Resolver.Pump` | coio_src/coio_minihdns.c:702-732 | The oldest waiting requests go to the wire, in order, exactly as many as fit; then none waits while there is room; every sending meanwhile is counted, each promoted request was sent unless some socket is full, and no server comes up |
| `Resolving.Resolver.RequestFinished` | coio_src/coio_minihdns.c:639-679 | The request leaves the wire and the oldest of those that wait take the free places |
| `Resolving.AccountedFinished` | coio_src/coio_minihdns.c:642-679 | Finishing a request whose lookup is accounted for otherwise, and promoting others, loses and doubles no lookup |
| `Resolving.AccountedTold` | coio_src/coio_minihdns.c:734-767 | Telling a caller moves its lookup from pending to told |
| `Resolving.AccountedParked` | coio_src/coio_minihdns.c:1561-1583 | Suspension conserves the lookups |
| `Resolving.AccountedPromoted` | coio_src/coio_minihdns.c:704-732 | Promotion conserves the lookups |
| `Resolving.Resolver.ProbeFailed` | coio_src/coio_minihdns.c:546-570 | A server still down is probed again after the back-off delay for its failures so far; one that is up is not |
| `Resolving.Resolver.ProbeCallback` | coio_src/coio_minihdns.c:1469-1481 | An answer, or the word that the name does not exist, brings the server up; anything else leaves it as it is and sets the next probe to the back-off delay |
| `Resolving.Resolver.ReplyCallback` | coio_src/coio_minihdns.c:734-767 | A caller's outcome is recorded once and no server changes; a probe's outcome changes only its server, and the servers that are up are those before and, for an answer or a name that does not exist, the probed one |
| `Resolving.Resolver.RequestReissue` | coio_src/coio_minihdns.c:676-700 | 1 and unchanged counters exactly if the choice fell on the same server; otherwise due again with its count of sends at zero, and at a server that is up if there is one |
| `Resolving.Resolver.BuildPacket` | coio_src/coio_minihdns.c:1733-1738 | In a buffer of the size computed for it, a packet is built if and only if the name and each of its labels are within the lengths that DNS allows, and it is that of the specification |
| `DnsRequest.OtherIdentifier` | coio_src/coio_minihdns.c:633-637 | Packets for one question are equal but for their first two bytes, so a new identifier may be written over the old one |
| `Resolving.Resolver.RequestTransIdSet` | coio_src/coio_minihdns.c:633-637 | The request has the new id, and its packet carries it |
| `Resolving.Resolver.RequestNew` | coio_src/coio_minihdns.c:1718-1759 | Null if and only if the name cannot be encoded, and then no server was picked; else it has an id and the next server of the ring exactly if there is room on the wire |
| `Resolving.Resolver.RequestSubmit` | coio_src/coio_minihdns.c:1761-1773 | At the end of the wire if it has a server, else at the end of the waiting list |
| `Resolving.Resolver.ChooseFirst` | coio_src/coio_minihdns.c:2004-2036 | The first try of a lookup, as the search order says |
| `Resolving.Resolver.Resolve` | coio_src/coio_minihdns.c:1776-1850 | 0 exactly if a packet can be built for the first try; then the lookup is accepted, its request queued, and its story begins with that name and all its candidates in the order promised; else nothing changes, not even the head of the ring |
| `Resolving.Resolver.SearchTryNext` | coio_src/coio_minihdns.c:2038-2081 | 0 exactly if the search has a next name a packet can be built for (`DomainBehind` says which); then that request is queued, for the same caller and the rest of the search, and its story is that of the old one and the new name |
| `Resolving.Resolver.TryElsewhere` | coio_src/coio_minihdns.c:812-823 | The server goes down; the request is reissued if and only if another is up and it was sent already, or its server was down, or the unsent requests of that server from it on are no multiple of the servers left up; or none is up and the ring has another server; a server that is up is chosen if there is one |
| `Resolving.Resolver.JudgeServer` | coio_src/coio_minihdns.c:811-837 | What each error says about its server: exactly which servers are up then, and exactly when the request is reissued |
| `Resolving.ErrorOf` | coio_src/coio_minihdns.c:792-809 | In plain numbers: 65 for a truncated reply, else the response code if it is 1 to 5, else 66 |
| `Resolving.ReportedIs` | coio_src/coio_minihdns.c:811-837 | The codes by which the source goes come to the same as the response code itself: 4 and 5 speak against the server while a reissue is left, 2 leaves it alone, any other brings it up |
| `Resolving.Resolver.HandOn` | coio_src/coio_minihdns.c:839-850 | The next request of a search takes over the lookup before the old one goes; the names left are the rest of those left before |
| `Resolving.Resolver.ReplyHandle` | coio_src/coio_minihdns.c:789-862 | One of three things, by flags and reply in plain numbers: reissued, exactly on the condition of TryElsewhere; handed on to the next name of the search; or told exactly that outcome and gone with its place refilled; a reissue or a hand-over lowers the effort left (names, then reissues, then sends); response codes 4 and 5 take the server down while a reissue is left, 2 leaves it as it is, any other and an answer bring it up; no other server comes up, but for that of a probe, and exactly those are up if it was reissued, or told while nothing waited |
| `Resolving.Resolver.PacketArrives` | coio_src/coio_minihdns.c:920-1060 | A packet that is an answer is handled by the first request with its id, as ReplyHandle says, with the servers that are up then; any other changes no list, no outcome and no server that is up; its server has no timeouts to its name then |
| `Resolving.Resolver.CountTimeout` | coio_src/coio_minihdns.c:1375-1379 | The timeout is counted; one more than the limit in a row, and only that, takes the server out of the up set and starts the count over |
| `Resolving.Resolver.TimeoutCallback` | coio_src/coio_minihdns.c:1365-1390 | A request sent often enough is told of the timeout (code 67) and is gone; any other is sent once more, which lowers the effort left, or is due while its server is choked; the timeout is counted, and one more than the limit in a row, and only that, takes its server down; no server comes up, and exactly those left are up if it was told while nothing waited |
| `Resolving.Resolver.Writable` | coio_src/coio_minihdns.c:1194-1199 | Room on a socket keeps every request alive: each due request is sent once or is due still, and then some socket is full; the socket is no longer watched exactly if nothing was due |
| `Resolving.Resolver.NameserverSendProbe` | coio_src/coio_minihdns.c:1483-1497 | The probe goes straight to the wire whatever the limit, and stands for no lookup |
| `Resolving.Resolver.ProdCallback` | coio_src/coio_minihdns.c:535-544 | A probe of the server comes to the wire, last, and the probe timer is off |
| `Resolving.Resolver.ParkRing` | coio_src/coio_minihdns.c:1561-1581 | The walk meets every request once although it rewrites the links of the ring it walks |
| `Resolving.Resolver.Suspend` | coio_src/coio_minihdns.c:1537-1586 | The waiting list is the reverse of the wire followed by what waited; nothing is on the wire, no server is left, every lookup is kept, and what every request may be sent grows by one budget; without a server nothing happens |
| `Resolving.Resolver.Resume` | coio_src/coio_minihdns.c:1590-1595 | What waits goes to the wire as Pump says: in order, as many as fit, each sent unless some socket is full |
| `Resolving.Resolver.NameserverAdd` | coio_src/coio_minihdns.c:1597-1656 | 3 exactly for a known address, and then nothing changes; else one more server, which is up |
| `Resolving.Resolver.SearchAdd` | coio_src/coio_minihdns.c:1951-1955 | The domain comes first in the list in use, in place: lookups under way hold the same list and are shifted; no other list changes |
| `Resolving.Resolver.SearchClear` | coio_src/coio_minihdns.c:1902-1913 | A fresh empty list; lookups under way keep the old one |
| `Resolving.Resolver.NdotsSet` | coio_src/coio_minihdns.c:1957-1963 | Sets the threshold of the list in use, in place, or of a fresh one if there was none; no other list changes |
| `Resolving.DeliveredCounts` | coio_src/coio_minihdns.c:734-767 | A lookup counts once for every time its caller was told |
| `Resolving.Resolver.ExactlyOnce` | coio_src/coio_minihdns.c:639-862 | Main result: a lookup accepted under a pointer of its own was told, and then once and no request is left for it, or was not, and then exactly one request is on its way for it |
| `Resolving.Resolver.PacketAsks` | coio_src/coio_minihdns.c:633-732 | Main result: in every state of every run, the packet of a request on the wire has its id, one question, type 1, 12 or 28 as the request asks, and class 1, at their places in network order, and its question reads back as its name |
| `Resolving.Resolver.SearchFollowsOrder` | coio_src/coio_minihdns.c:2004-2081 | Main result: in every state of every run, while nobody touched the list its lookup searches, the names of the lookup's requests so far are the first of its candidates in the order promised, exactly as many as its place in the search says and all of them if nothing is left; at most one more than there are domains |
| `Resolving.Resolver.BoundedEffort` | coio_src/coio_minihdns.c:681-700 | Main result: a request, on the wire or waiting, was sent at most max_retransmits * (1 + max_reissues) times for each suspension and once more, so without a suspension at most that often |
| `Resolving.Resolver.BoundedLookup` | coio_src/coio_minihdns.c:681-850 | Main result: all requests of one lookup together were sent at most (1 + suspensions) * (1 + max_reissues) * max_retransmits times for each of its names, and while its list is untouched that many times for each of its candidates |
| `Resolving.Resolver.Step` | coio_src/coio_minihdns.c:1189-1203 | Whatever happens next keeps all invariants, and does what it is for: a packet what ReplyHandle says to the first request with its id, a timeout what TimeoutCallback says to the request of its place, a probe timer, room and a read error what they do to the server of their place, a lookup, a server, a suspension, a resumption and the domains what they ask; what cannot happen changes no list, outcome or server that is up; it accepts its lookup exactly if a packet can be built for the first name; only a suspension grants new sends, and only an added domain or a new threshold touches the list in use; a timeout adds one to the count of its server alone, and a packet sets that of its server alone to zero |
| `Resolving.Resolver.Run` | coio_src/coio_minihdns.c:437-448 | Main result: over every run the lists, counters, servers, limits, plans and budgets stay sound, what was accepted before is still accounted for, and so is everything accepted meanwhile, which is among the lookups the inputs ask for; without a suspension, and with a server from the start, none waits while there is room; the story of the run names for each input who timed out, from whom a packet came and who was up then, and a server is up only while no more timeouts than the limit are in its row |
| `Resolving.TakenDown` | coio_src/coio_minihdns.c:1375-1379 | Main result on timeouts: after more timeouts than the limit at one server, with no packet from it in between, it has been out of the up set |
| `Resolving.Resolver.OneOtherServer` | coio_src/coio_minihdns.c:607-697 | With exactly one other server up, a request that was not sent yet is never reissued |
| `Resolving.NotReissued` | coio_src/coio_minihdns.c:607-697 | A run in which a request is refused while it waits for a full socket, and its caller is told at once, although a server is up |
| `Resolving.SentAgain` | coio_src/coio_minihdns.c:1547-1595 | A run with n suspensions, each followed by a server and a resumption, under limits that allow one sending: unless one of the n + 1 servers, each alone in its time, has a full socket, the request was sent n + 1 times |
| `Resolving.EqualIds` | coio_src/coio_minihdns.c:1075-1093 | A run that ends with two requests on the wire under one id, of which only the first is found |
| `Resolving.TriedTwice` | coio_src/coio_minihdns.c:1915-2081 | A run in which a lookup tries one name twice, because a domain was added in between |
| `FastSearch.FirstMatchIsLeast` | coio_src/coio_c_fastsearch.h:68-96 | The specification of search is the least matching place, or -1 |
| `FastSearch.GreedyIsAttained` | coio_src/coio_c_fastsearch.h:75-82 | The specification of count is the size of a choice of occurrences that do not overlap |
| `FastSearch.GreedyIsMaximal` | coio_src/coio_c_fastsearch.h:75-82 | No choice of occurrences that do not overlap is larger |
| `FastSearch.BitsAreApart` | coio_src/coio_c_fastsearch.h:57-66 | Adding a character to the mask adds exactly the characters with the same low five bits |
| `FastSearch.BuildTable` | coio_src/coio_c_fastsearch.h:55-66 | The mask is exactly that of the low bits of the characters of the pattern; no character within the skip equals the last one, and a longer skip would pass one that does |
| `FastSearch.JumpIsSafe` | coio_src/coio_c_fastsearch.h:83-92 | If the byte behind the window is not in the mask, no match touches it, so the jump misses none |
| `FastSearch.SkipIsSafe` | coio_src/coio_c_fastsearch.h:83-87 | The skip after a partial match misses none |
| `FastSearch.Probe` | coio_src/coio_c_fastsearch.h:68-93 | One round finds exactly whether the pattern is at a place, moves on without passing a match, and as far as mask and skip allow |
| `FastSearch.SearchChar` | coio_src/coio_c_fastsearch.h:37-53 | The special case of one character agrees with naive search in both modes |
| `FastSearch.FastSearch` | coio_src/coio_c_fastsearch.h:25-98 | Main result: -1 for an empty or too long pattern, otherwise the least match or the greedy count; the byte behind the text, which is read, cannot matter |
| `FastSearch.Find` | coio_src/coio_c_fastsearch.h:100-117 | The least match plus the offset, or -1; an empty pattern is found at the offset |
| `FastSearch.Rfind` | coio_src/coio_c_fastsearch.h:119-137 | The greatest match plus the offset, or -1; an empty pattern is found at the end |
| `FastSearch.LastMatchIsGreatest` | coio_src/coio_c_fastsearch.h:119-137 | The specification of searching backwards is the greatest matching place, or -1 |
| `Scheduling.Channel.Append` | syncless/greenstackless.py:574-580 | A waiter comes last in the queue |
| `Scheduling.Channel.Pop` | syncless/greenstackless.py:542-551 | The head leaves; the new head keeps it as its stale `prev`, and it keeps its own if it was alone |
| `Scheduling.Channel.PopSender` | syncless/greenstackless.py:541-551 | A receive meets the oldest sender, whose value has the number of the receive |
| `Scheduling.Channel.PopReceiver` | syncless/greenstackless.py:604-614 | A send meets the oldest receiver, whose number is that of the send |
| `Scheduling.Channel.Unqueue` | syncless/greenstackless.py:488-516 | Takes a waiter out at any place; the end pointer stays right if and only if it was not the last of several; a new head has no `prev` |
| `Scheduling.Channel.Withdraw` | syncless/greenstackless.py:488-526 | The same with the balance, which moves by one towards zero; the others keep their order and their partners |
| `Scheduling.Scheduler.constructor` | syncless/greenstackless.py:384-396 | Main alone on the ring |
| `Scheduling.Scheduler.RemoveFromChannel` | syncless/greenstackless.py:488-526 | The tasklet is on neither ring nor queue; all invariants hold, except for the end pointer in the one case |
| `Scheduling.Scheduler.RemoveCurrent` | syncless/greenstackless.py:140-160 | The ring goes on with the next runnable; if there is none main is put back, leaving its channel if need be |
| `Scheduling.Scheduler.InsertAfterCurrent` | syncless/greenstackless.py:177-188 | Inserts or moves right behind current, unless the tasklet is off the ring with current as its stale `prev`: then nothing happens |
| `Scheduling.Scheduler.Spawn` | syncless/greenstackless.py:285-300 | A new tasklet is runnable behind all others |
| `Scheduling.Scheduler.Remove` | syncless/greenstackless.py:334-351 | Refused for current and for blocked tasklets; otherwise off the ring |
| `Scheduling.Scheduler.Insert` | syncless/greenstackless.py:353-366 | Refused for dead and blocked tasklets; otherwise last, unless runnable already |
| `Scheduling.Scheduler.Run` | syncless/greenstackless.py:368-381 | Refused likewise; otherwise the tasklet is current and the others keep their cyclic order |
| `Scheduling.Scheduler.Schedule` | syncless/greenstackless.py:399-421 | Current goes behind all others |
| `Scheduling.Scheduler.ScheduleRemove` | syncless/greenstackless.py:424-441 | Current leaves the ring, which is never empty |
| `Scheduling.Scheduler.Throw` | syncless/greenstackless.py:444-470 | Ignored by the dead; a waiting target leaves its channel; the target is current and the others keep their cyclic order |
| `Scheduling.Scheduler.Exit` | syncless/greenstackless.py:191-236 | After a normal or killed end the next runnable is current, after a failure main is, wherever it was before |
| `Scheduling.Scheduler.HandTo` | syncless/greenstackless.py:473-485 | The popped tasklet runs right away in front of the ring; with a stale `prev` it is current without being on the ring |
| `Scheduling.Scheduler.Receive` | syncless/greenstackless.py:529-577 | Got exactly if a sender waits, and then the value of the send with the number of this receive; refused exactly if nobody could run; otherwise current waits last |
| `Scheduling.Scheduler.Send` | syncless/greenstackless.py:592-640 | The mirror image; the receiver gets the value and goes in front or behind as the channel prefers |
| `Scheduling.Scheduler.Resume` | syncless/greenstackless.py:578-589 | A woken receive returns the value of the send with the number of that receive, and the channel's answers say so |
| `Scheduling.Scheduler.IsLastOfSeveral` | syncless/greenstackless.py:496-501 | The test for the withdrawal that loses the end pointer |
| `Scheduling.Scheduler.IsStale` | syncless/greenstackless.py:177-181 | The test for the handover that loses the tasklet |
| `Scheduling.Scheduler.Step` | syncless/greenstackless.py:140-648 | One step from one scene to the next, exactly: the ring, every channel with its balance, waiters, sends and answers, and who is alive |
| `Scheduling.Scheduler.Play` | syncless/greenstackless.py:140-648 | Main result: over every run the ring, the queues and the balances stay sound, and the n-th receive on a channel, if it returned, returned the value of the n-th send; apart from the withdrawal of the last of several waiters and the handover to a stale one; the story of the run holds every scene, and each input leads from one to the next as the calls say |
| `Scheduling.LostReceiver` | syncless/greenstackless.py:177-188 | A run of two receivers and two sends after which current is on no ring |
| `Scheduling.LostEnd` | syncless/greenstackless.py:488-516 | A run of two receivers and a kill after which one waits and the end pointer of its queue is null |
| `Queues.Queue.Insert` | syncless/util.py:77-85 | The item is in at its end; if a receiver is blocked the one that waits longest becomes runnable, with the item (appendleft) or nothing (append) in its hands |
| `Queues.Queue.Round` | syncless/util.py:87-95 | An item exactly if there is one; otherwise current waits, unless nobody else could run |
| `Queues.Queue.Again` | syncless/util.py:87-95 | A woken receiver looks again; if another took the item it waits again |
| `Queues.Queue.Finish` | syncless/greenstackless.py:191-236 | The current tasklet ends, normally or by an exception, also as the last runnable, exactly unless main would be damaged by it; a wake-up is given up exactly if it fails while main is woken |
| `Queues.Queue.Step` | syncless/util.py:54-98 | Each step does exactly what it is for to items, takings, runnables and waiters; it gives up a wake-up exactly if it is a failure while main is woken; with nobody woken and nothing put in, all who wait but main go on waiting |
| `Queues.Queue.SomeoneComes` | syncless/util.py:77-95 | While a receiver is blocked and more items are there than wake-ups were given up, a runnable receiver was woken for it |
| `Queues.Queue.Play` | syncless/util.py:54-98 | Main result: over every run, ends and failures of tasklets included, while a receiver is blocked there are at least as many woken receivers as items, but for those given up, and all of them are runnable; none is given up without a failure; what was put in are items of the run, and none is lost or doubled; with append and popleft only it is first in, first out; once nobody is woken, those who wait wait on until something is put in, beside the same items unless somebody asks for one; the story of the run holds items, takings, runnables and waiters at every moment, and each operation leads from one to the next |
| `Queues.LostWakeUp` | syncless/greenstackless.py:215-225 | A run that ends with an item, a receiver that waits, and nobody woken, after an exception was raised in the woken receiver, and that stays so whatever happens but an item put in or asked for |
| `Surgery.HelperRound` | syncless/greenlet_using_stackless.py:94-101 | One round of the helper moves the tasklet two behind it in front of it |
| `Surgery.Helper2Round` | syncless/greenlet_using_stackless.py:103-109 | The same for the tasklet three behind |
| `Surgery.InsertAfterCurrentTasklet` | syncless/greenlet_using_stackless.py:119-137 | Main result: current stays, the target is right behind it wherever it was before, the others keep their order, the helper is off the ring |
| `Surgery.InsertTwoAfterCurrentTasklet` | syncless/greenlet_using_stackless.py:139-171 | Main result: both targets, in order |
| `TimeVals.Plus` | coio_src/coio_minievent.c:33-35 | Normalised addition is addition of microseconds |
| `TimeVals.Since` | coio_src/coio_minievent.c:36-38 | Normalised subtraction is subtraction of microseconds |
| `TimeVals.DeadlinesDoNotDrift` | coio_src/coio_minievent.c:360-366 | After k firings the deadline of a persistent timer is start + k * timeout, up to the second that stands for never |
| `MiniEvents.FiresForAReason` | coio_src/coio_minievent.c:323-375 | An event fires exactly for those of reading and writing that it waits for and that were found, or for its signal; it times out only if nothing was found that it waits for, at or after its deadline; and an event that does not fire has nothing found that it waits for and its deadline ahead |
| `MiniEvents.FoundIs` | coio_src/coio_minievent.c:323-329 | A descriptor counts as readable exactly if select said so or reported an exceptional condition, likewise as writable, and nothing does if select was interrupted |
| `MiniEvents.NoneTooEarly` | coio_src/coio_minievent.c:369-372 | No timeout in a pass comes before the deadline of its event |
| `MiniEvents.DeletedDoesNotFire` | coio_src/coio_minievent.c:316-377 | Main result: in a safe trace an event that was deleted does not fire unless it was added again in between |
| `MiniEvents.EventLoop.EventDel` | coio_src/coio_minievent.c:161-179 | The event is unlinked and the cursor, if on it, moves on; harmless for an event that is not linked |
| `MiniEvents.EventLoop.EventAdd` | coio_src/coio_minievent.c:114-159 | The event comes last, its deadline is the time plus the timeout, or never |
| `MiniEvents.EventLoop.Callback` | coio_src/coio_minievent.c:114-179 | A callback does exactly what it is asked for, action by action; an event that is linked is not added |
| `MiniEvents.EventLoop.Examine` | coio_src/coio_minievent.c:316-376 | The decision about one event, its rearming or deletion before its callback, what the callback adds to the trace, and the cursor past the event whatever the callback does |
| `MiniEvents.EventLoop.Dispatch` | coio_src/coio_minievent.c:316-377 | Main result: whatever callbacks delete and add, the list stays one ring, nothing fires that is not linked or not due, each event linked at the start and not touched by a callback is examined exactly once and fires, once, if and only if its deadline at the start or what was found calls for it; then it stays linked exactly if it is persistent or did not fire, with its deadline moved by its timeout exactly if it is persistent and fired; no more events are examined than were linked at the start and added meanwhile, so at most as many as were linked if callbacks only delete; the trace is that of its rounds, whose callbacks do what the script says, in order; exactly the signals that fired are taken off |
| `MiniEvents.EventLoop.Survey` | coio_src/coio_minievent.c:216-249 | The earliest deadline of all events, whether any is not internal, and which signals are wanted |
| `MiniEvents.WaitFor` | coio_src/coio_minievent.c:257-284 | The time given to select is exactly max(0, earliest - now), 0 for a pending signal, a large constant without a deadline |
| `MiniEvents.EventLoop.LoopOnce` | coio_src/coio_minievent.c:204-380 | One turn: its result, the wait over all events (0 if not blocking), exactly when the pass takes place and what fires and is called in it, and which signals are left |
| `MiniEvents.EventLoop.TakeTurn` | coio_src/coio_minievent.c:204-380 | One turn on the deadlines and signals: its result, whether it has a pass, and what they are after it |
| `MiniEvents.EventLoop.Loop` | coio_src/coio_minievent.c:185-380 | Main result: turns until only internal events are linked, a select fails, or one turn is over if one was asked for; the passes are those of successive turns, each starts with what the one before left, and each is as Dispatch says; a persistent event that no callback touches stays linked, and its deadline is that of the start and one timeout for each time that it fired; the deadlines and signals after every turn follow from those before it: which turns have a pass, and what each makes of them |
| `MiniEvents.SteadyTimer` | coio_src/coio_minievent.c:316-377 | Main result: in every pass of the loop a persistent event that no callback touched before is linked, with the deadline of the first pass moved by its timeout for each time that it fired |
| `MiniEvents.MissedSignal` | coio_src/coio_minievent.c:251-314 | A turn in which a signal that an event waits for is there and the event does not fire |
| `EvBuffer.Buffer.Align` | coio_src/coio_c_evbuffer.h:81-87 | Moves the contents to the front without changing them |
| `EvBuffer.Buffer.Grown` | coio_src/coio_c_evbuffer.h:110-113 | The new size is 256 doubled, suffices, and is less than twice what is needed or 256 |
| `EvBuffer.Buffer.Expand` | coio_src/coio_c_evbuffer.h:89-125 | Makes room and keeps the contents; memory grows only if aligning would not do |
| `EvBuffer.Buffer.AddBytes` | coio_src/coio_c_evbuffer.h:127-145 | Appends to the contents |
| `EvBuffer.Buffer.Drain` | coio_src/coio_c_evbuffer.h:147-169 | Drops from the front of the contents |
| `EvBuffer.WhatIsLeft` | coio_src/coio_c_evbuffer.h:127-169 | After any operations the contents are all bytes ever added without the first ones: first in, first out |
| `EvBuffer.DoubledIsPower` | coio_src/coio_c_evbuffer.h:110-113 | Every size is 256 * 2^k |
| `EvBuffer.Buffer.Run` | coio_src/coio_c_evbuffer.h:81-169 | Main result: any run refines appending and dropping, and memory stays within max(256, 2B + 4D) for contents within B and requests within D |

## Left out

- Sockets, select, gettimeofday, signal installation, memory allocation that fails, logging and configuration files: times, readiness, results of sends and packets are inputs.
- Resolving.Resolver.Run: does not model a suspension while a probe is under way, a change of the limit in mid-run, or evdns_shutdown with requests waiting, because the source does not keep its own lists and counters sound in those cases; `SuspendStep` skips the first.
- Resolving.Resolver.Step: skips a search for the empty name, for which the source reads the byte in front of the name, and a resumption of waiting requests without a server, which the source does not survive.
- Resolving.Resolver.PacketArrives: does not model the loop over the records of a reply; which records it holds, or that it is malformed, is an input, and so is the id it answers to.
- Resolving.Resolver.ProdCallback: strikes the probe timer off after the probe was submitted, not before, because nothing looks at it in between.
- Resolving.Resolver.ChooseNext: does not write the next place of a search into the request that is given up, which nothing reads any more; its successor gets it.
- Resolving.Resolver.Retire: does not model the reference counts of search lists; a list in use is simply kept.
- NameWriting.DnsnameToLabels: keeps the entries of a name whose writing failed in the table, as the source does; the round trip is stated for messages in which every name was written.
- NameParsing.NameParse: returns -1 where the source reads on and fails one round later, for a label that runs over the end of the packet; the result is the same.
- Integer widths: lengths, counters and offsets are unbounded, which leaves out buffers of more than half the address space; transaction ids are below 0xffff, and the search mask is 64 bits wide with the sign extension of the source.
- Scheduling.Scheduler.Play: skips the withdrawal of the last of several waiters and the handover to a stale waiter; `RemoveFromChannel`, `Throw`, `Exit`, `Send` and `Receive` say what those two do, but the run is not followed beyond them.
- Scheduling: exceptions in flight, `tempval`, tracebacks, weak references and greenlet parents are not modelled; a method runs up to the switch, and `Resume` is what follows it in a receive.
- Queues.Queue.Play: skips an end that would withdraw main from a channel as the last of several waiters, and does not model kills, removed tasklets or a negative preference; a receiver that goes on after its wake-up may take from either end, whichever it asked for first, and after an exception main may do anything next.
- Surgery: greenlet.switch and greenlet.throw, which use the reordering, depend on native code.
- MiniEvents.EventLoop.EventAdd: requires an event that is not linked, as the source assumes; callbacks that add a linked event are skipped.
- MiniEvents.EventLoop.LoopOnce: does not model a nested event_loop, a clock that fails, or signals that arrive during a pass; signals that arrive during select do arrive.
- TimeVals.DeadlinesDoNotDrift: stops at the second 0x7fffffff, which the source uses for never.
- EvBuffer.Buffer.Expand: does not model the callback that is told about changes, nor a realloc that fails.
- The helpers in coio_c_helper.h, wsgi.py, reactor.py, patch.py, the consoles and the checks in evdns.pxi would add easy members only.
