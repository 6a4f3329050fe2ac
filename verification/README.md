# ndpi-observe: a verified model

ndpi-observe classifies network flows in two tiers. A TC program in the kernel
keeps a record per flow, counts the packets of flows that already have a verdict
and copies the packets of undecided flows into a ring buffer. A daemon drains the
ring, asks nDPI (then its guesser, then a machine-learned model) for a verdict,
refines the label by host name, writes the verdict back into a kernel map, and
keeps several ledgers over the same flows. The two tiers are linked only by a
lossy ring and a delayed map, so what they say about a flow agrees only under
conditions. This project models both tiers and their composition and proves what
holds of them after every sequence of packets, drains and sweeps.

nDPI's answers, the model's score and the success of every allocation and ring
reservation are arbitrary inputs of each step. Host-name tables are arbitrary pure
functions. One packet is one atomic step, on any of any number of CPUs.

## Files

| file | what it holds |
|---|---|
| `Basics.dfy`, `Tally.dfy` | flow keys and machine-sized numbers; sums over maps and sequences |
| `Capture.dfy`, `FrameCodec.dfy` | frame to event, on the kernel path and on the AF_PACKET path; frames laid out byte by byte, read back by both |
| `Kernel.dfy` | the kernel maps as a value, their invariant, and the program as a class |
| `DnsParser.dfy`, `DnsRoundTrip.dfy`, `DnsCache.dfy` | the DNS response parser, an encoder to invert it, the direct-mapped cache |
| `Labels.dfy`, `MlStats.dfy` | display labels and the label pool; streaming packet statistics |
| `EngineModel.dfy`, `EngineLedger.dfy`, `EngineRuns.dfy` | the daemon's engine on values, what its counters mean, its invariant in every run |
| `EngineLaws.dfy` | what one event and one sweep do, in terms of answers, names heard, packet counts and seconds |
| `FlowTable.dfy`, `Engine.dfy` | the chained hash table on the heap and the engine over it, proved against the model |
| `Pipeline.dfy`, `Pacing.dfy`, `Observer.dfy` | both tiers as one transition system and its theorems; the runs that poll before they sweep; the objects wired together |
| `EarlySweep.dfy` | what a consumer that swept first would suffer |
| `TopApps.dfy` | the in-place sort and the rows of the application listing |

The engine is modelled twice on purpose. `EngineModel` first judges a flow and then
records only the judgement that stands; the source, and the class `Engine`, credit a
flow, undo the credit and credit it again. That both leave the same counters, and
that no decrement ever meets a zero, is what `Engine.Process` proves; what the
counters mean is then proved of the model.

## Main results

- Conservation: after any run every accepted packet is in exactly one of eight
  places, from the fast-path counters to expired entries (`Pipeline.PacketsAreConserved`).
- Bounded copying: a key is tracked from its first packet or never; a tracked key
  puts at most seven packets into the ring and the daemon can only have decided it by
  nDPI's own verdict, across expiry and re-creation (`Pipeline.CopyingIsBounded`).
- Agreement: the loop empties the ring before it sweeps its table
  (daemon/main.c:232-256). In every run of that discipline whatever the kernel
  classified a flow as is a real application, the verdict on file and the label of the
  daemon's entry if it still has one, with or without expiry
  (`Pacing.PolledVerdictsAgree`), and the loop over the objects makes only such runs
  (`Observers.Observer.Loop`). The condition is that no flow with a verdict on file
  still has an event in the ring when a sweep begins (`Pacing.Rested`,
  `Pacing.VerdictsAgree`). In any order of steps at all, the verdicts written for a key
  are exactly those of its entries, in order (`Pipeline.VerdictHistory`). The discipline
  matters: `EarlySweep.ConcreteEarlySweep` gives six steps, with the frame written out,
  by which a consumer that swept before draining would have kernel and verdict map
  disagree.
- Ledgers: kernel counters, per-method credits, application and category totals equal
  sums over the flows ever created (`Pipeline.KernelLedger`,
  `EngineRuns.AttributionIsExact`, `EngineRuns.TotalsAreTwoEvents`,
  `EngineRuns.FlowConservation`).
- Decisions: an undecided kernel record takes the verdict on file at its next frame and
  gives up exactly at an eighth frame that finds none (`Pipeline.NextFrameTakesVerdict`);
  a packet of an undecided entry is judged, counted, labelled, charged and stamped as
  written out in `EngineLaws.UndecidedTakes`: nDPI first, at the eighth packet the model
  before the guesser before giving up, and the host's application before nDPI's own.
- Ageing: in every run an entry's stamp is the time of its key's last event, and a sweep
  takes exactly the entries silent for more than 300 s (TCP) or 30 s
  (`EngineLaws.SweepTakesTheSilent`).
- Frames: both capture paths read back key and length from every Ethernet frame laid out
  with IPv4, any options, and TCP or UDP, and accept nothing else
  (`FrameCodec.SocketReads`, `FrameCodec.KernelReads`, `FrameCodec.OnlyWires`).
- DNS: any truncation yields a prefix of the bindings; the parser inverts an encoder
  for sections 4.1.1 to 4.1.4 of RFC 1035 on every message with an address to report if and only
  if the question's dotted name has 1 to 79 characters and no NUL (`DnsRoundTrip.RoundTripIff`); in every run the cache
  answers with the last binding heard into its slot, until min(ttl, 300) seconds after it
  was heard (`EngineRuns.CacheHoldsLastHeard`).

## Where the code departs from its comments or from expectation

- A decided flow is charged to its application at its verdict
  (daemon/ndpi_engine.c:579-590) and again when it expires (daemon/ndpi_engine.c:231-242), so application flow counts are not numbers of flows.
  The totals are proved to be exactly these two events.
- The comment above `clean_label` (daemon/ndpi_engine.c:122-140) lists labels such as
  "spotify.com"; the code returns one capitalised word, and the model follows the code.
- With more than one question the parser starts skipping questions before the type
  and class of the first (daemon/ndpi_dns_cache.h:96-106). For two questions, the first
  of a type below 256, the answers are looked for in the right place if and only if the
  second asks for the root
  (`DnsRoundTrip.SecondQuestionIffRoot`); `DnsRoundTrip.TwoQuestionsLoseTheAnswer` is a
  response whose address is lost. Any number of questions for the root do no harm
  (`DnsRoundTrip.HarmlessQuestionsRoundTrip`).
- A name longer than 79 characters desynchronises the name loop
  (daemon/ndpi_dns_cache.h:85-92); `DnsRoundTrip.RoundTripIff` is the exact condition
  and `DnsRoundTrip.LongNameLosesTheAnswer` an input.
- Subdomains that fit the buffer keep a host's label if and only if the host has a dot
  of its own, a trailing one aside (`Labels.SubdomainsKeepLabelIff`). "com." passes every
  check before the label is computed and loses it (`Labels.TrailingDotChangesLabel`).

## Model

| member | source | states |
|---|---|---|
| Basics.KeyBytesInjective | daemon/flow_table.c:19-23 | comparing the sixteen bytes of two keys is comparing the keys, since the pad bytes are always zero |
| Capture.CaptureTiers | bpf/ndpi_observe.bpf.c:93-102 | the fallback chain yields the largest tier that fits, or the too-short mark |
| Capture.ParseFrame | bpf/ndpi_observe.bpf.c:110-161 | the header checks accept exactly the frames of `KernelAccepts` and produce the key and length that `FrameCodec` shows to be those laid out |
| Capture.BuildEvent | daemon/main_noebpf.c:191-241 | the receive loop turns a buffer into exactly the event of `SocketEvent`, which `FrameCodec` shows to be that laid out, or skips it |
| Capture.KernelAcceptsIff | bpf/ndpi_observe.bpf.c:113-153 | the kernel accepts a frame exactly when the AF_PACKET path does and the whole transport header is in the linear part |
| Capture.KernelEventRefines | bpf/ndpi_observe.bpf.c:93-161 | same key and length on both paths; the kernel payload is the largest fitting tier and a prefix of the other, and so are its DNS bindings |
| FrameCodec.SocketReads | daemon/main_noebpf.c:191-241 | from every frame laid out with IPv4, any options and TCP or UDP the AF_PACKET path takes exactly the addresses, ports, protocol and total length laid out, and up to 512 bytes |
| FrameCodec.KernelReads | bpf/ndpi_observe.bpf.c:93-161 | so does the kernel path, if the linear part reaches behind 20 bytes of TCP or 8 of UDP, with the largest of 512, 256, 128 and 60 bytes there are |
| FrameCodec.OnlyWires | bpf/ndpi_observe.bpf.c:113-153 | neither path accepts anything but such frames |
| Kernels.Kernel.constructor | bpf/ndpi_observe.bpf.c:15-47 | empty maps and zero counters on every CPU |
| Kernels.Kernel.UpdateAppCounter | bpf/ndpi_observe.bpf.c:51-63 | adds one packet (and one new flow) to one application on one CPU, nothing for ids of 512 and above |
| Kernels.Kernel.ProcessPkt | bpf/ndpi_observe.bpf.c:107-205 | one packet moves the maps as `OnPacket` says and is queued exactly when it is accepted, leaves its flow undecided and finds room; an undecided key with a verdict on file is classified as that verdict |
| KernelModel.PacketOutcome | bpf/ndpi_observe.bpf.c:163-203 | an undecided record takes the verdict on file; without one it gives up at its eighth packet and not before; a decided one only grows; an untracked key is tracked if there is room among 65536 |
| KernelModel.PacketCounted | bpf/ndpi_observe.bpf.c:178-204 | one CPU's counter of the record's application gains the packet and its bytes when the record is decided afterwards, and a flow when this packet decided it; no other counter moves |
| Kernels.Kernel.WriteVerdict | daemon/ndpi_engine.c:573-577 | the verdict replaces the key's old one; a new key is refused by a full map |
| KernelModel.VerdictStored | daemon/ndpi_engine.c:573-577 | a verdict is stored, but for a new key in a map of 65536 |
| Kernels.SendToRingbuf | bpf/ndpi_observe.bpf.c:65-105 | an event with the tiered capture, or nothing if the reservation fails |
| KernelModel.AdvanceKeepsRecord | bpf/ndpi_observe.bpf.c:178-203 | record invariant: undecided means all packets counted and fewer than eight, given up means exactly eight counted; decided records keep state and application |
| KernelModel.AdvanceMoves | bpf/ndpi_observe.bpf.c:178-203 | what a packet adds to the flow and packet weights of its record, per application |
| KernelModel.PacketKeepsLedger | bpf/ndpi_observe.bpf.c:163-204 | the per-CPU counters keep summing to the weights of the tracked records |
| KernelModel.PacketKeepsInv | bpf/ndpi_observe.bpf.c:163-204 | every packet keeps the kernel invariant |
| KernelModel.VerdictKeepsInv | daemon/ndpi_engine.c:573-577 | so does every verdict written |
| KernelModel.TerminalIsAbsorbing | bpf/ndpi_observe.bpf.c:182-185 | no packet changes the state or application of a decided flow, and none of it is copied |
| KernelModel.StartHolds | bpf/ndpi_observe.bpf.c:15-47 | the invariant holds of empty maps |
| DnsParser.ReadNameCut | daemon/ndpi_dns_cache.h:81-93 | reading the query name from a cut packet either agrees with the whole packet or runs off the cut |
| DnsParser.SkipNameCut | daemon/ndpi_dns_cache.h:98-103 | likewise for skipping a name |
| DnsParser.SkipQuestionsCut | daemon/ndpi_dns_cache.h:96-105 | likewise for skipping questions |
| DnsParser.AnswersCut | daemon/ndpi_dns_cache.h:109-136 | the records parsed from a cut packet are the first of the whole packet's |
| DnsParser.MessageCut | daemon/ndpi_dns_cache.h:71-136 | the same for a whole message |
| DnsParser.TruncationYieldsPrefix | daemon/ndpi_dns_cache.h:62-137 | for arbitrary bytes and any cut, the bindings of the shorter capture are a prefix of those of the longer |
| DnsParser.BindingsAreNamed | daemon/ndpi_dns_cache.h:81-94 | every binding carries a nonempty name of at most 79 characters |
| DnsParser.NothingElse | daemon/ndpi_dns_cache.h:65-79 | short packets, headers below 20 bytes, queries and messages without question or answer yield nothing |
| DnsRoundTrip.ReadsLabels | daemon/ndpi_dns_cache.h:85-92 | encoded labels are read back as the dotted name, the cursor just behind them |
| DnsRoundTrip.SkipsName | daemon/ndpi_dns_cache.h:111-120 | an encoded name, by labels or ending in a pointer, is skipped exactly |
| DnsRoundTrip.ReadsAnswers | daemon/ndpi_dns_cache.h:109-136 | encoded answers are read back as the expected bindings, in order |
| DnsRoundTrip.ReadsMessage | daemon/ndpi_dns_cache.h:71-136 | an encoded message is read back |
| DnsRoundTrip.RoundTrip | daemon/ndpi_dns_cache.h:62-137 | behind any IPv4 and UDP header the parser yields exactly the type-1 answers of four bytes, in order, with the question's name and each TTL |
| DnsRoundTrip.RoundTripIff | daemon/ndpi_dns_cache.h:81-136 | with an address to report it does so exactly when the dotted name has 1 to 79 characters and no NUL |
| DnsRoundTrip.LongNameLosesTheAnswer | daemon/ndpi_dns_cache.h:85-92 | a valid message with a name of 127 characters is not read back |
| DnsRoundTrip.HarmlessQuestionsRoundTrip | daemon/ndpi_dns_cache.h:96-136 | with any number of further questions, all for the root and of types below 256 but for the last, the answers are read back |
| DnsRoundTrip.SecondQuestionIffRoot | daemon/ndpi_dns_cache.h:96-106 | with two questions and a first type below 256 the answers are taken to start nine bytes behind the first name, which is right exactly when the second name is the root |
| DnsRoundTrip.TwoQuestionsLoseTheAnswer | daemon/ndpi_dns_cache.h:96-136 | a well-formed response to two questions whose address is not inserted |
| DnsSlots.InsertAgrees | daemon/ndpi_dns_cache.h:33-42 | inserting keeps slots and log in step: every slot holds the last insert that hashed to it |
| DnsSlots.LookupIsLatestLive | daemon/ndpi_dns_cache.h:45-52 | a lookup hits exactly when the unbounded log has an insert for the address that nothing overwrote and whose time plus min(ttl, 300), in 32 bits, is not reached, and returns that insert |
| DnsSlots.InsertThenLookup | daemon/ndpi_dns_cache.h:33-52 | what is inserted is found under its name exactly until its time plus min(ttl, 300), or that less 2^32 where it wraps around |
| DnsSlots.HashValues | daemon/ndpi_dns_cache.h:25-31 | the slots of two addresses, in numbers |
| DnsCaches.DnsCache.constructor | daemon/ndpi_dns_cache.h:21-23 | a blank cache agrees with the empty log |
| DnsCaches.DnsCache.Insert | daemon/ndpi_dns_cache.h:33-42 | one slot is overwritten, with the expiry min(ttl, 300) seconds on, the log grows by one, the two still agree |
| DnsCaches.DnsCache.LookupEntry | daemon/ndpi_dns_cache.h:45-52 | finds the slot of the specification |
| DnsCaches.DnsCache.Memoise | daemon/ndpi_engine.c:398-407 | stores an application in one entry and leaves agreement with the log |
| DnsCaches.DnsCache.Update | daemon/ndpi_dns_cache.h:62-137 | the one-pass parser leaves slots and log as if `Parse` had been inserted |
| DnsCaches.DnsCache.InsertAnswers | daemon/ndpi_dns_cache.h:108-136 | the answer loop inserts exactly the parsed answers |
| DnsCaches.ReadQueryName | daemon/ndpi_dns_cache.h:81-93 | the buffer loop computes the capped name and the cursor of `ReadName` |
| DnsCaches.CopyLabel | daemon/ndpi_dns_cache.h:90-91 | a label's bytes are appended while captured and while they fit |
| DnsCaches.SkipMoreQuestions | daemon/ndpi_dns_cache.h:96-105 | the question loop ends where `SkipQuestions` says |
| DnsCaches.SkipOwner | daemon/ndpi_dns_cache.h:110-120 | the owner name is skipped |
| Labels.ComputeCleanLabel | daemon/ndpi_engine.c:158-185 | the scans with last dot, previous dot and next dot compute the capitalised second-to-last component, at most 63 characters |
| Labels.IsRegistered | daemon/ndpi_engine.c:166-180 | the region between the two scans is that component |
| Labels.LabelIsSecondToLast | daemon/ndpi_engine.c:158-185 | of a host that ends in two components, with or without a trailing dot, the label is the first of them, cut to 63 characters, its first letter made a capital |
| Labels.OnlyTheFirst83 | daemon/ndpi_engine.c:158-162 | of a longer host the label is that of its first 83 characters |
| Labels.RejectedIff | daemon/ndpi_engine.c:194-199 | no application for hosts without a dot, ending in ".local" or ".localdomain", or containing ".arpa" or ".in-addr." |
| Labels.SubdomainKeepsLabel | daemon/ndpi_engine.c:158-185 | subdomains in front of a dotted host keep its label while the result fits 83 characters |
| Labels.SubdomainsKeepLabelIff | daemon/ndpi_engine.c:158-185 | for every host: all subdomains that fit keep the label exactly when it has a dot of its own, or none fits |
| Labels.TrailingDotChangesLabel | daemon/ndpi_engine.c:192-218 | "com." is not rejected and its label changes under a subdomain |
| Labels.GrownIsValid | daemon/ndpi_engine.c:217-225 | labels stay distinct and at most 64 |
| Labels.IdIsForever | daemon/ndpi_engine.c:192-226 | an id given to a host is its id in every later pool |
| Labels.AskedIsNamed | daemon/ndpi_engine.c:192-226 | a host once asked for has nDPI's id, else one of 400 to 463 unless 64 other labels fill the pool; its label is added exactly when it is needed and there is room |
| Labels.DynamicIdNamesLabel | daemon/ndpi_engine.c:114-119 | a dynamic id lies in 400 to 463 and its stored name is the host's clean label |
| MlStats.Accumulate | daemon/ndpi_engine.c:302-327 | the field updates of one packet |
| MlStats.RunIsBatch | daemon/ndpi_engine.c:302-327 | the accumulators equal first, last, minimum, maximum, sum and sum of squares of the whole batch, for lengths and gaps |
| MlStats.SumSquared | daemon/ndpi_engine.c:499-505 | the square of a sum is at most the count times the sum of squares |
| MlStats.VarianceNonnegative | daemon/ndpi_engine.c:503-509 | so no variance computed from the accumulators is negative |
| MlStats.StatisticsAreSound | daemon/ndpi_engine.c:498-522 | for any packets in order of time, means lie between their extremes and both variances are nonnegative |
| EngineRuns.FlowStatisticsAreSound | daemon/ndpi_engine.c:302-522 | in every run whose clock does not go back, each flow's accumulators are those of the packets scanned for it, and the same holds of them: the clamps absorb only rounding |
| EngineLedger.DirectOk | daemon/ndpi_engine.c:371-426 | a direct verdict names an application and ends credited to nDPI, the server name or the DNS cache |
| EngineLedger.LastResortOk | daemon/ndpi_engine.c:428-571 | the last packet of the budget always decides: guessed, learned or given up, with an application exactly in the first two, never the generic class 307 from the model (which of them: `EngineLaws.LastResortIs`) |
| EngineLedger.JudgeOk | daemon/ndpi_engine.c:266-571 | a judged flow keeps the flow invariant and is one packet and pkt_len bytes larger |
| EngineLedger.EnteredKeepsLedger | daemon/ndpi_engine.c:255-259 | creating or stamping an entry keeps every ledger |
| EngineLedger.BookKeepsLedger | daemon/ndpi_engine.c:371-590 | counting a decision keeps every ledger |
| EngineLedger.ChargeSums | daemon/ndpi_engine.c:579-590 | a charge adds the same to the applications together as to the categories together |
| EngineLedger.ExpireKeepsLedger | daemon/ndpi_engine.c:228-243 | a callback of ageing keeps every ledger |
| Ownership.EntryChanges | daemon/ndpi_engine.c:287-297 | an entry that keeps, takes or gives back its nDPI state leaves live allocations exactly the states held, pairwise distinct |
| Ownership.EntryLeaves | daemon/flow_table.c:96-103 | so does an entry that is freed |
| EngineRuns.RecomputedIsStable | daemon/ndpi_engine.c:398-407 | an application found for a host is found again in every larger pool |
| EngineRuns.MemoIsTransparent | daemon/ndpi_engine.c:387-413 | resolving a host through the memo gives what the host names without it, in the pool after the question, and the answer is remembered |
| EngineRuns.DirectLabel | daemon/ndpi_engine.c:371-421 | a direct verdict is the host's application if the host names one and nDPI's label has a counter, else nDPI's own; the credit says which |
| EngineLaws.HostIsHeard | daemon/ndpi_engine.c:387-396 | a flow's host is its server name, else the unexpired name last heard for its destination address, else none |
| EngineLaws.AskedIs | daemon/ndpi_engine.c:387-413 | memo or not, the host's application and the pool after the question are those of asking anew |
| EngineLaws.GuessIs | daemon/ndpi_engine.c:431-492 | a guess labels like a direct verdict: application before master protocol, the host's application before both; no guess leaves flow and pool alone |
| EngineLaws.LastResortIs | daemon/ndpi_engine.c:428-567 | with the model on, its score decides if there is one, 307 standing for the host's specific MCP entry; else the guess; else, or with the model off, the flow gives up with application 0 |
| EngineLaws.JudgeIs | daemon/ndpi_engine.c:266-571 | one packet of an undecided flow: silent at the eighth, out of memory, direct, last resort at the eighth, or still undecided, with label, counters and samples of each |
| EngineLaws.UndecidedTakes | daemon/ndpi_engine.c:245-591 | an event of a new or undecided key is judged so; counters, charges, verdict, pool and entry are those of its outcome and nothing else of table or history moves |
| EngineLaws.DecidedTakes | daemon/ndpi_engine.c:261-264 | an event of a decided key stamps its entry and counts as cached, no more |
| EngineLaws.RefusedTakes | daemon/ndpi_engine.c:255-257 | an event without memory for its entry is refused, no more |
| EngineLaws.ExpiredIsCharged | daemon/ndpi_engine.c:228-243 | a flow that leaves is charged to its application and to the overriding category, else Web from 400 on, else nDPI's; counters of verdicts stay |
| EngineLaws.ProcessStamps | daemon/ndpi_engine.c:255-259 | after an event its key's entry, decided or not, bears its time, and every other entry is as it was |
| EngineLaws.StampIsLastEvent | daemon/ndpi_engine.c:259 | in every run an entry's stamp is the time of the last event of its key |
| EngineLaws.SweepTakesTheSilent | daemon/flow_table.c:83-107 | in every run a sweep takes exactly the entries whose key had its last event more than 300 s (TCP) or 30 s ago |
| EngineRuns.AfterKeepsContext | daemon/ndpi_engine.c:387-413 | resolving a host keeps every memoised application equal to recomputing it |
| EngineRuns.InsertsKeepMemo | daemon/ndpi_dns_cache.h:33-42 | inserts keep it too, by clearing the memo |
| EngineRuns.JudgeKeepsContext | daemon/ndpi_engine.c:266-571 | judging a flow keeps it and only extends the pool |
| EngineRuns.JudgeMovesHandle | daemon/ndpi_engine.c:287-571 | judging a flow keeps ownership of nDPI state exact |
| EngineRuns.StartHolds | daemon/ndpi_engine.c:28-30 | the invariant holds of a fresh engine |
| EngineRuns.ProcessKeepsInv | daemon/ndpi_engine.c:245-591 | every event keeps flow invariant, ledgers, ownership, memos, pool and the agreement of cache and log |
| EngineRuns.SweepKeepsInv | daemon/ndpi_engine.c:626-630 | every sweep keeps them |
| EngineRuns.RunKeepsInv | daemon/ndpi_engine.c:245-630 | so does every sequence of events and sweeps |
| EngineRuns.AttributionIsExact | daemon/ndpi_engine.c:371-561 | in every run each per-method counter equals the number of flows ever created whose final credit and application it names |
| EngineRuns.TotalsAreTwoEvents | daemon/ndpi_engine.c:579-590 | in every run an application total, and a category total, is its verdict charges plus its expiry charges, and applications together equal categories together |
| EngineRuns.FlowConservation | scripts/compare_ml.py:215-217 | created = classified + given up + undecided live and expired; classified = direct + guessed + learned, so the script's subtraction is never negative |
| EngineRuns.NothingLeaks | daemon/ndpi_engine.c:632-634 | destroying the table leaves no live nDPI state, after any run |
| EngineRuns.DecidedIsFinal | daemon/ndpi_engine.c:261-264 | later events change nothing of a decided flow but its time stamp |
| EngineRuns.VerdictIsTheFlows | daemon/ndpi_engine.c:275-295 | a verdict is written exactly when an undecided flow is decided, except for want of memory, and is the flow's application |
| EngineRuns.PoolGrows | daemon/ndpi_engine.c:217-225 | in every run the pool is only extended |
| EngineRuns.IdsLastForever | daemon/ndpi_engine.c:192-226 | an id once given to a host is its id after every further run |
| EngineRuns.CacheHoldsLastHeard | daemon/ndpi_dns_cache.h:33-52 | in every run a lookup hits exactly when the last binding heard into the slot is for this address and min(ttl, 300) seconds from then are not over, counted in 32 bits, and gives its name |
| EngineRuns.MemosAreCurrent | daemon/ndpi_engine.c:398-407 | in every run labels are distinct and every nonzero memo equals recomputing its host name in the current pool |
| FlowTables.NdpiHeap.Malloc | daemon/ndpi_engine.c:288-295 | an allocation is new or fails |
| FlowTables.NdpiHeap.Free | daemon/flow_table.c:73-74 | only live state is freed, so nothing is freed twice |
| FlowTables.FlowTable.constructor | daemon/flow_table.c:25-28 | an empty table stands for the empty map |
| FlowTables.FlowTable.Lookup | daemon/flow_table.c:30-39 | returns the entry of the key in the map, or null |
| FlowTables.FlowTable.GetOrCreate | daemon/flow_table.c:41-63 | returns the existing entry, or adds a new one to the map, or fails leaving the map alone |
| FlowTables.FlowTable.Push | daemon/flow_table.c:56-60 | a new head of its chain; all chains stay linked, filed and counted |
| FlowTables.FlowTable.Reshaped | daemon/flow_table.c:96-103 | after a link is bent past one entry every chain is again linked, filed and free of duplicates |
| FlowTables.FlowTable.Unlink | daemon/flow_table.c:96-103 | relinking removes exactly one key and frees exactly its nDPI state |
| FlowTables.FlowTable.Remove | daemon/flow_table.c:65-81 | the map without the key, over the entries there were |
| FlowTables.FlowTable.AgeBucket | daemon/flow_table.c:86-105 | one chain loses its idle entries and no other |
| FlowTables.FlowTable.Age | daemon/flow_table.c:83-107 | exactly the entries idle beyond 300 s (TCP) or 30 s leave, each called back once with its data; the rest stay, and no entry is new |
| FlowTables.FlowTable.Destroy | daemon/flow_table.c:109-123 | the empty map and no live nDPI state |
| Engines.Engine.constructor | daemon/ndpi_engine.c:28-30 | stands for the model's start and satisfies its invariant |
| Engines.Engine.GetDynApp | daemon/ndpi_engine.c:192-226 | the linear search and append give the id and the pool of the specification |
| Engines.Engine.ResolveHost | daemon/ndpi_engine.c:387-413 | finds the host by server name or cache, its application, and memoises it |
| Engines.Engine.MoveCredit | daemon/ndpi_engine.c:413-421 | one credit is taken back and one given; the net effect is one credit for the new label |
| Engines.Engine.ApplyDirect | daemon/ndpi_engine.c:371-426 | the credited, un-credited and re-credited flow leaves one credit, the verdict of the model |
| Engines.Engine.ApplyGuess | daemon/ndpi_engine.c:431-492 | likewise for the guesser |
| Engines.Engine.Refined | daemon/ndpi_engine.c:526-534 | the generic class counts only with a host that makes it specific |
| Engines.Engine.Undo | daemon/ndpi_engine.c:537-547 | taking back a guess's credit restores the columns as they were before it |
| Engines.Engine.ApplyModel | daemon/ndpi_engine.c:536-559 | a guess is replaced or an unknown flow decided, with one credit either way |
| Engines.Engine.ApplyLastResort | daemon/ndpi_engine.c:428-567 | the forced decision is the model's, which `EngineLaws.LastResortIs` spells out, and the four global counters move by its outcome alone |
| Engines.Engine.Decide | daemon/ndpi_engine.c:358-571 | a decision frees the flow's nDPI state exactly once |
| Engines.Engine.Scan | daemon/ndpi_engine.c:287-327 | state on first payload, counters and statistics |
| Engines.Engine.JudgeFlow | daemon/ndpi_engine.c:266-571 | one packet of an undecided flow is judged as in the model |
| Engines.Engine.Charge | daemon/ndpi_engine.c:228-243 | bytes, packets and one flow for the application and its category |
| Engines.Engine.ProcessEntry | daemon/ndpi_engine.c:259-591 | the entry of the key, decided or not, takes the packet as in the model |
| Engines.Engine.Hear | daemon/ndpi_engine.c:251-253 | a DNS response is parsed into cache and log first; without payload, whatever bytes lie in the ring slot are |
| Engines.Engine.Enter | daemon/ndpi_engine.c:255-259 | finds or creates the entry; it bears the time of the event |
| Engines.Engine.Process | daemon/ndpi_engine.c:245-591 | state and verdict after an event are those of the model, no decrement underflows, and the invariant is kept |
| Engines.Engine.Age | daemon/ndpi_engine.c:626-630 | the sweep is the model's over exactly the idle keys, keeps the invariant and leaves only entries there were |
| Engines.Engine.Destroy | daemon/ndpi_engine.c:632-634 | the table is emptied and no nDPI state stays live |
| Engines.SweepIs | daemon/flow_table.c:83-107 | what the table reports of a sweep is a sweep of the model |
| Pipeline.PacketIsBilled | bpf/ndpi_observe.bpf.c:182-200 | a packet raises the kernel's packet counters by one exactly when it is not copied and its application has a slot |
| Pipeline.ProcessTakes | daemon/ndpi_engine.c:245-591 | an event is counted in exactly one place of the daemon and changes no other key's entry; a verdict is that of an entry that had none |
| Pipeline.SweepOnlyExpires | daemon/ndpi_engine.c:626-630 | a sweep moves entries to the past without changing any key's verdicts or the packets counted |
| Pipeline.ArriveKeepsCopying | bpf/ndpi_observe.bpf.c:163-204 | packets of a key handed to the ring equal what its record says, tracked or not |
| Pipeline.TakingKeepsAgreed | daemon/ndpi_engine.c:573-577 | a verdict written keeps history, verdict map, entries and kernel records in agreement |
| Pipeline.RunKeepsInv | daemon/main.c:225-257 | every interleaving of packets, drains and sweeps keeps the invariant of both tiers |
| Pipeline.PacketsAreConserved | bpf/ndpi_observe.bpf.c:163-204 | accepted = fast path counted and uncounted + ring failures + queued + failed entries + cached + packets of live and of expired entries |
| Pipeline.NextFrameTakesVerdict | bpf/ndpi_observe.bpf.c:182-203 | after every run, the next accepted frame of an undecided key classifies it as the verdict on file, if there is one; it gives up exactly if there is none and it is the key's eighth frame |
| Pipeline.KernelLedger | bpf/ndpi_observe.bpf.c:52-63 | summed over CPUs, an application's flow counter is the tracked keys that ended with it, its packet and byte counters what they had beyond the packets sent |
| Pipeline.RecordsMatchFrames | bpf/ndpi_observe.bpf.c:163-204 | in every run a record's packets and bytes are those of the frames that came for its key, and the part the counters leave out is exactly the frames copied to the ring or lost there |
| Pipeline.CopyingIsBounded | bpf/ndpi_observe.bpf.c:163-203 | tracked from the first packet or never; decided by the eighth; at most seven to the ring; every entry of the key below the budget and decided only by nDPI itself, if not out of memory |
| Pipeline.VerdictHistory | bpf/ndpi_observe.bpf.c:182-193 | in any order of steps: a classified kernel record names a nonzero application once written for its key; the verdicts written are those of the key's entries, one each; with no expired entry all three places agree |
| Pacing.NothingMoreIsCopied | bpf/ndpi_observe.bpf.c:187-193 | no packet of a tracked key with a verdict on file goes into the ring |
| Pacing.ArriveKeepsSettled | bpf/ndpi_observe.bpf.c:163-204 | a packet keeps the invariant of polled runs, and rest |
| Pacing.DrainKeepsSettled | daemon/main.c:36-46 | so does every drain |
| Pacing.SweepKeepsSettled | daemon/main.c:251-256 | so does a sweep at rest |
| Pacing.PolledIsPaced | daemon/main.c:225-257 | sweeps that follow an emptied ring, with packets in between at most, happen at rest |
| Pacing.VerdictsAgree | daemon/ndpi_engine.c:573-577 | if sweeps happen at rest: one verdict for each tracked key on file, and a classified kernel record equals verdict map and daemon entry, with or without expiry |
| Pacing.DisciplineGrows | daemon/main.c:225-257 | packets keep a run polled and ready for a sweep, drains keep it polled, a sweep needs it ready |
| Pacing.PolledVerdictsAgree | daemon/main.c:225-257 | so it is in every run whose sweeps follow an emptied ring |
| Pipeline.TerminalForever | bpf/ndpi_observe.bpf.c:182-193 | no later step of either tier changes a decided kernel record, and the histories only grow |
| Observers.Observer.constructor | daemon/main.c:174-203 | kernel, ring and engine start in the pipeline's start, at the empty run |
| Observers.Observer.OnPacket | bpf/ndpi_observe.bpf.c:107-205 | the program and the ring take the pipeline's packet step, lengthen the run by it and stay at rest and ready if they were |
| Observers.Observer.OnEvent | daemon/main.c:36-46 | one callback takes the pipeline's drain step, lengthens the run by it and consumes the oldest event |
| Observers.Observer.Poll | daemon/main.c:232-233 | callbacks until the ring is empty, while frames keep coming; the run grows by exactly these steps and is ready for a sweep |
| Observers.Observer.OnTick | daemon/main.c:251-256 | at rest, the tick takes the pipeline's sweep step; the run stays polled if it was ready |
| Observers.Observer.TakeTurn | daemon/main.c:225-257 | one turn: frames, the poll, frames, and a sweep of exactly the idle entries if the last is ten seconds old; a polled run stays polled |
| Observers.Observer.Loop | daemon/main.c:225-257 | any number of turns make a polled run, and leave kernel, verdict map and daemon in agreement on every key |
| Observers.Observer.AllAgree | bpf/ndpi_observe.bpf.c:182-193 | the maps and tables of the objects agree on a classified key at every moment |
| TopApps.SortByBytes | daemon/unix_socket.c:136-147 | the insertion sort leaves every id once, by bytes descending, ties by ascending id |
| TopApps.InsertAt | daemon/unix_socket.c:138-147 | one round extends the sorted part by one |
| TopApps.RankIsPlace | daemon/unix_socket.c:136-147 | in such an order an id's place is the number of ids ahead of it, so the order is unique |
| TopApps.ShowApplications | daemon/unix_socket.c:152-164 | the rows are exactly the applications with bytes and fewer than N ahead of them, each at its rank, for any N and any number of applications |

## Left out

- nDPI, the random forest and its score: unseen code; their answers are arbitrary inputs.
- Patching of the packet copy handed to nDPI (daemon/ndpi_engine.c:329-356): it changes only nDPI's input, which is arbitrary here.
- Races inside one kernel packet: a packet is one atomic step; simultaneous first packets and lost increments of the record are not modelled.
- TC attachment, sockets, poll loop, signals, options, Prometheus text, feature dump and `/proc` parsing: input, output and presentation; only the order in which steps may occur is kept.
- Width of counters: packet, byte and flow counters are unbounded; the 64-bit wrap-around of the source is not modelled. The cache's 32-bit expiry and the 32-bit hashes are.
- Clock: the several readings of the clock within one event are one value, in whole seconds.
- Engines.Engine.Hear: for an event without payload the source parses the ring slot and what follows it over a length of 0xDEAD0000 and more; the model parses arbitrary bytes of any length.
- Engines.Engine.ProcessEntry: the entry's fields are worked on as a value and written back once per event; nothing else can look at the entry in between.
- DnsSlots.Word: the address word is that of a little-endian host.
- Fields `category` and `classified` of an entry, which mirror others and are never read by the modelled code.
- Category tables: arbitrary functions into the 64 categories; the suffix matching of daemon/ndpi_engine.c:58-83 and of the service tables is not modelled.
- FlowTables.FlowTable.Age: callbacks are returned as a list in call order and run after the sweep, which they do not influence; entries are not reused, so the freeing of entries themselves is left to garbage collection.
- Observers.Observer.Poll: `ring_buffer__poll` of libbpf is taken to call back until the ring is empty; records reserved but not yet submitted do not exist here, since a packet is one step.
- Expired entries, refused events, scanned samples, inserts into the cache, bytes sent up and verdicts ever written are history kept for the statements, not state of the source.
- Listing of flows and the merging of per-CPU counters before the sort: plain sums and a plain walk.
- MlStats.StatisticsAreSound: lengths and times are whole numbers, so sums are exact and means are exact reals; rounding to single precision is not modelled.
- Training, relabelling and traffic scripts in Python: offline tooling.
