# FilterPype stock filters in Dafny

FilterPype builds data-processing pipelines out of filters. A filter
receives data packets (a payload `data` plus named attributes) and message
bottles. It sends them on, changed or not, to the `main` route or to a
`branch`. This project models the stateful and routing filters of
`filterpype/data_filter.py`, one Dafny module per filter or filter family:

- Tank: TankQueue and TankFeed.
- Batch.
- Sink, Join, CollectData, DistillHeader, Peek, SeqPacket.
- Counters (CountBytes, CountPackets) and DataLength.
- CallbackOnAttribute.
- Routing: BranchClone, BranchRef, BranchParam, BranchFirstPart, BranchIf, SendMessage, Reset.
- Transforms: SwapTwoBytes, ReverseString, Wrap, GetBytes, PassNonZero, CountLoops.

The engine's base class is not part of this model. What the filters rely on
from it is modelled in module `Packets`:

- A packet is a value.
- Each call `send_on(unit, route)` appends an `Emission(route, unit)` to the filter's `sent` trace.
- An exception raised by a filter becomes a `FilterError` result.

Module `PriorityQueue` models the engine's priority queue. It is the sequence of its entries in pop order, and a `None` spacer sorts before every packet. Module `PySeq` writes out Python's slicing (negative indices, clamping, extended steps), `join`, `startswith` and `rstrip`.

Two kinds of filter are modelled differently:

- Filters whose `filter_data` only computes are functions from a packet to the emissions of one call (or an error). Lemmas state what those emissions mean.
- Filters that keep state between calls are classes. Their fields are the filter's fields, and their methods update them in place.
  - CollectData, CountBytes, DataLength, DistillHeader, Peek, SeqPacket and Sink keep a ghost history of what they have received. Their `Valid()` invariant ties the fields to a pure reference function of that history.
  - Batch and TankQueue have a `Valid()` invariant over their own fields: Batch's character count matches its buffer; TankQueue's queue stays in pop order, its arrival numbers stay below the counter, and `packets_held` counts its packets.
  - Join, CountPackets, TankFeed, Reset and CallbackOnAttribute have no invariant. Each method's `ensures` states the whole new state; for CallbackOnAttribute it does so through the pure step function `Step`.
  - Lemmas prove what the source promises about the reference functions.

The source is Python 2 code. Its comparisons follow Python 2's rules:

- Values of every kind can be compared: None is below numbers, and numbers are below lists and strings.
- Booleans count as 0 and 1, in comparisons, as tank priorities and as dict keys (`True` and `1` are the same key).

## Model

| member | source | states |
|---|---|---|
| Tank.TankQueue.constructor | filterpype/data_filter.py:2153-2176 | a new tank holds no packets, sends nothing, and is padded with spacers up to a non-negative `tank_size`; a negative size leaves the queue empty |
| Tank.TankQueue.Push | filterpype/data_filter.py:2190-2208 | a packet enters at its place by (priority, arrival) and is counted in `packets_held`; a `None` spacer enters ahead of every packet and leaves the packets as they were; the queue stays in pop order |
| Tank.TankQueue.Pop | filterpype/data_filter.py:2178-2188 | the head leaves the queue; the result is its packet, or nothing for a spacer or an empty queue; `packets_held` stays equal to the packets left |
| Tank.TankQueue.DrainExcess | filterpype/data_filter.py:2105-2109 | exactly the overflow is popped from the front, and the packets among it, but no spacer, are sent on main in pop order |
| Tank.TankQueue.SetTankSize | filterpype/data_filter.py:2103-2117 | shrinking sends the excess packets on main; growing only adds spacers, pushed one by one with fresh arrival numbers, until the queue holds exactly `tank_size` entries, so every held entry keeps its priority and arrival number; a negative size neither sends nor pads |
| Tank.TankQueue.PadFront | filterpype/data_filter.py:2112-2114 | spacers are pushed one by one with fresh arrival numbers until the queue holds exactly `tank_size` entries; the packets held and the trace are unchanged |
| Tank.TankQueue.PushSpacer | filterpype/data_filter.py:2114 | one `push(None)` of the padding adds the next spacer, with a fresh arrival number, and leaves the packets held and their entries unchanged |
| Tank.TankQueue.FilterData | filterpype/data_filter.py:2131-2138 | the packet is pushed and the overflow is sent in pop order; with a non-negative size the queue then holds at most `tank_size` entries; no packet is lost or duplicated |
| Tank.TankQueue.FlushBuffer | filterpype/data_filter.py:2149-2151 | setting the size to 0 sends every packet held, in pop order, and leaves the tank empty |
| Tank.TankQueue.ZeroInputs | filterpype/data_filter.py:2210-2211 | the queue is emptied and `packets_held` is 0 (corrected: see Findings) |
| Tank.AcceptOrdered | filterpype/data_filter.py:2131-2138 | for one accepted packet, every packet sent pops before every entry kept; the packets sent are in priority order; sent plus kept are the old packets plus the new one |
| Tank.TankZeroAsWrittenMiscounts | filterpype/data_filter.py:2210-2211 | `zero_inputs` as written leaves `packets_held` at 1 while the queue holds no packet |
| Tank.FeedZeroAsWrittenFailsTwice | filterpype/data_filter.py:1986-2003 | as written, a feed wired to a tank finds it on the first `zero_inputs` and raises a routing error on the second |
| Tank.FeedZero | filterpype/data_filter.py:1986-2003 | `zero_inputs` uses the next filter, or else the remembered one; it succeeds exactly when that filter is a tank queue, which becomes the destination, and it disables the next filter |
| Tank.FeedZeroRepeatable | filterpype/data_filter.py:1986-2003 | after a successful `zero_inputs`, calling it again finds the same tank and keeps the same wiring |
| Tank.FeedZeroNeedsTank | filterpype/data_filter.py:1999-2003 | a feed wired to anything but a tank queue is a routing error |
| Tank.TankFeed.ZeroInputs | filterpype/data_filter.py:1986-2003 | the wiring and destination change as FeedZero says, and a failure is a FilterRoutingError |
| Tank.TankFeed.FilterData | filterpype/data_filter.py:1983-1984 | the packet goes straight into the destination tank's queue at its priority, with no drain and nothing sent; without a destination it is an attribute error |
| PriorityQueue.PacketOrder | filterpype/data_filter.py:2190-2208 | two packets pop in the order of their priority attributes: a packet without a numeric priority before one with it, smaller priorities first (a boolean counting as 0 or 1), arrival order between equal priorities; every spacer pops before any packet |
| PriorityQueue.BeforeOrder | filterpype/data_filter.py:2190-2208 | pop order is a strict total order on entries with distinct arrival numbers |
| PriorityQueue.InsertSorted | filterpype/data_filter.py:2190-2208 | pushing into a queue in pop order keeps it in pop order |
| PriorityQueue.InsertMultiset | filterpype/data_filter.py:2190-2208 | pushing adds exactly the new entry and keeps every other one |
| PriorityQueue.InsertHeldCount | filterpype/data_filter.py:2201-2206 | pushing a packet adds exactly that packet to the packets held, and one to their count |
| PriorityQueue.InsertSpacerKeepsPackets | filterpype/data_filter.py:2207-2208 | pushing a spacer leaves the packets held, their entries and their order unchanged |
| PriorityQueue.HeldEntriesSorted | filterpype/data_filter.py:2064-2071 | `sorted_packets` lists exactly the packets held, spacers skipped, in priority order |
| PriorityQueue.Overflow | filterpype/data_filter.py:2076-2095 | the number of entries to pop is the negative spare capacity: none for a negative size, otherwise just enough to bring the queue down to the size |
| Batch.Blocks | filterpype/data_filter.py:172-186 | every block cut is exactly `size` characters long |
| Batch.Rem | filterpype/data_filter.py:187-191 | the remainder is shorter than one block |
| Batch.BlocksRem | filterpype/data_filter.py:169-191 | the blocks followed by the remainder are exactly the buffered input |
| Batch.BlocksAppend | filterpype/data_filter.py:154-191 | cutting `s + t` at once gives the same blocks and remainder as cutting `s`, then cutting its remainder followed by `t` |
| Batch.FeedAllIsBatching | filterpype/data_filter.py:154-191 | feeding a stream packet by packet sends exactly the blocks of the whole stream and keeps exactly its remainder |
| Batch.BatchConserves | filterpype/data_filter.py:146-199 | over a whole stream, the blocks sent followed by the remainder are the stream; every block has length `size`; the remainder is shorter |
| Batch.Batch.constructor | filterpype/data_filter.py:146-152 | the buffer starts as one empty string and nothing is sent |
| Batch.Batch.FilterData | filterpype/data_filter.py:154-192 | below one block the data is only buffered; otherwise each whole block is sent to `fork_dest` as a clone of the packet and only the remainder stays buffered; a size below 1 is a FilterAttributeError once the data is buffered, and the error is exactly the one `validate_params` (ValidateSize, 205-213) gives for that size |
| Batch.Batch.CutBlocks | filterpype/data_filter.py:172-192 | the split loop sends the blocks of the buffered input in order and keeps its remainder as the only input |
| Batch.Batch.FlushBuffer | filterpype/data_filter.py:194-199 | the buffered data goes on as one new packet, only when it is not empty; the buffer and its counts are kept, so the filter stays usable |
| Sink.KeptIsLatest | filterpype/data_filter.py:1893-1896 | the results are the latest ones received, in order: exactly `max_results` of them once more than that have arrived, and all of them when `max_results` is 0 |
| Sink.KeptStep | filterpype/data_filter.py:1893-1896 | keeping one more result drops the oldest exactly when the limit is exceeded |
| Sink.Sink.SaveData | filterpype/data_filter.py:1893-1896 | append, then drop the oldest when over a non-zero limit; the results stay the latest received |
| Sink.Sink.SendOn | filterpype/data_filter.py:1909-1912 | a message bottle sent on main is kept first when `capture_msgs` is set; every unit is sent |
| Sink.Sink.FilterData | filterpype/data_filter.py:1898-1900 | the packet is kept and passed on to main |
| Sink.Sink.ZeroInputs | filterpype/data_filter.py:1914-1915 | no results are kept |
| Join.JoinedParts | filterpype/data_filter.py:1170-1184 | the joined data holds every part once, in order, with the separator only between neighbours; joining nothing gives "" |
| Join.Join.FilterData | filterpype/data_filter.py:1170-1178 | a string is buffered; any other payload sends one new packet with the buffer joined by `join_str`, and clears the buffer |
| Join.Join.FlushBuffer | filterpype/data_filter.py:1180-1184 | the joined buffer is sent only when the buffer is not empty |
| Join.Join.ZeroInputs | filterpype/data_filter.py:1186-1187 | the buffer is emptied and nothing is sent |
| CollectData.BatchLength | filterpype/data_filter.py:766-771 | every list sent holds `collection_size` items, and at least one |
| CollectData.CollectStep | filterpype/data_filter.py:766-771 | appending one item either completes a list of exactly the batch length, which is sent, or grows the collection; nothing received is lost |
| CollectData.CollectData.FilterData | filterpype/data_filter.py:766-771 | the data is collected; a full collection goes to the branch as one list before the packet goes to main; the lists sent followed by the current collection are exactly the data received |
| CollectData.CollectData.ZeroInputs | filterpype/data_filter.py:773-774 | the collection starts afresh |
| DistillHeader.HeaderOutputs | filterpype/data_filter.py:948-967 | a once-mode split sends one header, the first `header_size` characters, and header plus remainder are the whole input |
| DistillHeader.Distilled | filterpype/data_filter.py:948-967 | the header goes to the branch first; the remainder goes to main only when it is not empty, carrying the header under `keep_header_key` when one is given |
| DistillHeader.DistillHeader.FilterData | filterpype/data_filter.py:934-967 | after the header, packets pass straight to main; in once mode input is buffered until a header is available; in "once" mode exactly one header is sent, and the header followed by everything sent to main is the stream received |
| DistillHeader.DistillHeader.ZeroInputs | filterpype/data_filter.py:969-973 | the filter waits for a header again, with nothing buffered |
| Peek.PeekAllKeepsPackets | filterpype/data_filter.py:1264-1275 | once closed, every packet has been sent once, in order, with its data unchanged; each carries the start of the next packet's data, and the last an empty peek |
| Peek.PeekedAt | filterpype/data_filter.py:1269-1275 | every packet but the last is released, each carrying a peek at the data of the packet after it |
| Peek.PeekedStep | filterpype/data_filter.py:1269-1275 | each new packet releases exactly its predecessor, peeking at the new data |
| Peek.Peek.FilterData | filterpype/data_filter.py:1269-1275 | the held packet is sent carrying a peek at this packet's data, and this packet is held in its place |
| Peek.Peek.CloseFilter | filterpype/data_filter.py:1264-1267 | the last packet received goes on with an empty peek, completing the stream; with no packet it is an attribute error; the held packets are kept |
| Peek.Peek.ZeroInputs | filterpype/data_filter.py:1277-1279 | no packet is held |
| SeqPacket.NumberAllAt | filterpype/data_filter.py:1842-1851 | the number given to a packet is the start plus the count of earlier packets that needed one |
| SeqPacket.NumbersIncrease | filterpype/data_filter.py:1842-1851 | numbers given are strictly increasing in arrival order, so no two packets share one |
| SeqPacket.CountNeedsPrefix | filterpype/data_filter.py:1844-1846 | the counter never falls, and it rises past every packet that needed a number |
| SeqPacket.SeqPacket.FilterData | filterpype/data_filter.py:1828-1851 | the packet is numbered only if it needs a number, the counter rises exactly then, and the packet is sent on |
| SeqPacket.SeqPacket.ResetCounter | filterpype/data_filter.py:1856-1857 | the counter becomes the value given |
| SeqPacket.SeqPacket.ZeroInputs | filterpype/data_filter.py:1859-1860 | the counter goes back to 0 |
| Counters.SumAppend | filterpype/data_filter.py:785-794 | the byte count over a stream split in two is the sum of the counts of the parts |
| Counters.CountBytes.FilterData | filterpype/data_filter.py:785-794 | the byte count rises by the data length and the packet count by one, so they stay the totals over the packets received; data without a length is a TypeError |
| Counters.CountBytes.ZeroInputs | filterpype/data_filter.py:796-798 | both counts go back to 0 |
| Counters.CountPackets.FilterData | filterpype/data_filter.py:833-837 | one more packet is counted and passed on |
| Counters.CountPackets.ZeroInputs | filterpype/data_filter.py:839-840 | the count goes back to 0 |
| Transforms.CountLoops | filterpype/data_filter.py:816-822 | the loop counter becomes 1 on a packet without one and rises by one otherwise; the data and every other attribute are kept, and no attribute is added besides the counter |
| Transforms.LoopsCount | filterpype/data_filter.py:816-822 | a packet passing a CountLoops filter k times carries loop number k and unchanged data |
| DataLength.PaddedLengthStep | filterpype/data_filter.py:859-872 | counting piece by piece gives the length of the whole stream without its trailing padding |
| DataLength.DataLength.constructor | filterpype/data_filter.py:874-878 | both lengths start at 0 and `not_data` becomes the character with that code |
| DataLength.DataLength.FilterData | filterpype/data_filter.py:859-872 | `bytes_seen` is the length of the stream and `data_last_seen` is its length without trailing `not_data`; data that is not a string is an attribute error |
| DataLength.DataLength.CloseFilter | filterpype/data_filter.py:880-889 | a `total_data_length` bottle for `msg_destin` carries both lengths of the stream received, and the counts are kept |
| CallbackOnAttribute.PopulatedMeaning | filterpype/data_filter.py:490-497 | the environment gains exactly the listed attributes the packet has, with the packet's values, and keeps everything else |
| CallbackOnAttribute.FoundStays | filterpype/data_filter.py:499-582 | once found, the attribute stays found |
| CallbackOnAttribute.NotFoundAtMostOnce | filterpype/data_filter.py:499-582 | during a stream, `not_found` is called back at most once, only when a packet limit is set, and only before the limit is passed |
| CallbackOnAttribute.NotFoundOnceOverall | filterpype/data_filter.py:499-625 | over a whole stream and the close, `not_found` is called back at most once |
| CallbackOnAttribute.NotFoundStep | filterpype/data_filter.py:499-582 | a single packet calls back `not_found` only when it is the one that reaches the packet limit |
| CallbackOnAttribute.WatchForChange | filterpype/data_filter.py:499-582 | with `watch_for_change`, while the packet limit is not passed (or there is none), `found` is called back exactly when the value differs from the previous one in Python 2 terms; a repeated value is neither reported nor passed on; no `not_found` check follows |
| CallbackOnAttribute.ConfirmAfterCount | filterpype/data_filter.py:499-582 | without `watch_for_change`, while the packet limit is not passed (or there is none), a value is found exactly when it has been seen `count_to_confirm` times, and only then is `found` called back; at the limit packet an attribute still not found is then called back `not_found` |
| CallbackOnAttribute.TooManyValues | filterpype/data_filter.py:499-582 | while the packet limit is not passed (or there is none), too many distinct values call back `inconsistency_value_exceeded` first and restart the count from this value alone |
| Routing.HashKeyIsPyEq | filterpype/data_filter.py:520-524 | two values share a dict key in `value_dict` exactly when Python 2 finds them equal, as the change test `value != prev_value` does |
| CallbackOnAttribute.NamesDiffer | filterpype/data_filter.py:499-625 | the `found`, `inconsistency_value_exceeded` and `not_found` callback names never coincide |
| CallbackOnAttribute.CallbackOnAttribute.constructor | filterpype/data_filter.py:584-598 | the watched attribute joins the environment list, a missing environment becomes an empty one, and nothing is found or counted |
| CallbackOnAttribute.CallbackOnAttribute.PopulateEnviron | filterpype/data_filter.py:490-497 | the loop copies each listed attribute the packet has into the environment, as PopulatedMeaning describes |
| CallbackOnAttribute.CallbackOnAttribute.FilterData | filterpype/data_filter.py:499-582 | the watch state and callbacks move as the step function whose properties are proved above, and the unit is passed on unless it carries a message |
| CallbackOnAttribute.CallbackOnAttribute.CloseFilter | filterpype/data_filter.py:620-625 | with no packet limit and the attribute not found, `not_found` is called back at close |
| Routing.BranchClone | filterpype/data_filter.py:229-232 | one clone to the branch, then the packet to main |
| Routing.BranchRef | filterpype/data_filter.py:315-318 | the same packet to the branch, then to main |
| Routing.StepSliceValue | filterpype/data_filter.py:299-300 | an extended slice of a string or list attribute; a step of 0 is a ValueError, and any other kind of value is a TypeError |
| Routing.BranchParam | filterpype/data_filter.py:298-303 | a packet holding the sliced parameter, tagged with its name, goes to the branch, then the packet to main; a missing parameter is an attribute error |
| Routing.BranchParamPicks | filterpype/data_filter.py:295-300 | with a positive step the filter succeeds on a string or list parameter for any bounds, including the default stop of 9999; with the bounds clamped as Python does, the result has an item exactly for each position `start + k*step` below the stop, and the k-th item is the parameter's item there |
| Routing.BranchParamPicksDown | filterpype/data_filter.py:299-300 | with a negative step the filter succeeds on a string or list parameter for any bounds; with the bounds placed as Python does for a downward slice, the result has an item exactly for each position `start + k*step` above the stop, and the k-th item is the parameter's item there |
| Routing.SendMessage | filterpype/data_filter.py:1754-1758 | a message bottle carrying the values to the branch, then the packet to main |
| Routing.BranchFirstPart | filterpype/data_filter.py:242-247 | a missing `branch_up_to` is an attribute error; a single emission is the untouched packet on main |
| Routing.BranchFirstPartSplits | filterpype/data_filter.py:242-247 | for a non-empty string or list payload: branch first, then main; both parts keep the attributes; the branch part holds the first `branch_up_to` items and the two parts together are the original data |
| Routing.BranchFirstPartPassesThrough | filterpype/data_filter.py:243 | without a `branch_up_to` above 0, or with empty data, the packet goes to main untouched |
| Routing.PyTrichotomy | filterpype/data_filter.py:271-278 | any two values are equal or exactly one is below the other, so the four comparisons are consistent |
| Routing.StrLessTransitive | filterpype/data_filter.py:273-276 | string comparison is transitive |
| Routing.Compare | filterpype/data_filter.py:271-281 | only an unknown comparison name fails; each known name is Python 2's comparison of the attribute with `compare_value` |
| Routing.BranchIfDispatch | filterpype/data_filter.py:263-285 | the packet is sent once, unchanged, on the branch exactly when the comparison holds; a missing key or an unknown comparison sends nothing |
| Routing.BranchIfComplement | filterpype/data_filter.py:271-285 | `equals` and `not_equals` send every packet to opposite routes |
| Routing.BranchIfOrder | filterpype/data_filter.py:273-285 | `less_than` and `greater_than` never both branch; on unequal values exactly one does, and on equal values neither |
| Routing.Reset.FilterData | filterpype/data_filter.py:1774-1810 | a `reset` bottle for the target filter with the new value goes out ahead of the packet; the value is the packet's `param_name` attribute when the filter has none, otherwise the filter's value, first replaced for good by the packet attribute it names |
| Transforms.SwapTwoBytesAt | filterpype/data_filter.py:1683-1703 | every full pair of characters is swapped, the length is kept, and an odd last character stays in place |
| Transforms.SwapTwoBytesTwice | filterpype/data_filter.py:1683-1703 | swapping twice gives back the original data |
| Transforms.SwapTwoBytes | filterpype/data_filter.py:1683-1703 | string data is sent swapped on main, with the packet's attributes; any other data is a TypeError |
| Transforms.ReverseStringReverses | filterpype/data_filter.py:1712-1719 | the data sent is the reversed payload, and reversing again restores the packet |
| Transforms.WrapUnwrap | filterpype/data_filter.py:2287-2295 | the wrapped data starts with the prefix and ends with the suffix, and what lies between them is the original data |
| Transforms.GetBytes | filterpype/data_filter.py:1135-1146 | an attribute already present is a FilterAttributeError; otherwise the slice is recorded under the parameter name, and data and other attributes are unchanged |
| Transforms.GetBytesInRange | filterpype/data_filter.py:1135-1146 | inside the payload, exactly `bytes_to_get` bytes from `start_byte` are recorded |
| Transforms.PassNonZero | filterpype/data_filter.py:1203-1209 | the packet is passed on main exactly when it passes the zero test and is dropped otherwise; data that is not a string fails |
| Transforms.PassNonZeroMeaning | filterpype/data_filter.py:1203-1209 | a packet is dropped exactly when its first `n` bytes are all 0x00 or all 0xFF; shorter data always passes; a count of 0 or less drops everything |

## Left out

- Engine: the base class `dfb.DataFilter`, its coroutine plumbing, `send_on` itself, `MessageBottle`, `DataPacket` and `PriorityQueue` are not part of this model. They are modelled as described above.
- Python behaviour not modelled:
  - Packets are values, so sharing a packet object (BranchRef, Peek's `prev_packet`) and changing it in place are not captured. Every packet is assumed truthy.
- Filters outside the core: file and OS I/O, `bz2` and `hashlib`, `exec`, floats, filters that reach into the pipeline or other filters, helpers in `fut`, DedupeData, PrintParam and debug printing. Also TankBranch, whose hooks live in the engine, and every filter of `data_filter.py` not listed above.
- Tank.TankQueue.SortedPackets: the `sorted_packets` property is the function itself. Its properties are stated by PriorityQueue.HeldEntriesSorted.
- `all_data` of Sink and TankQueue is not modelled. It is a list comprehension over the modelled state.
- `_search_tank` is not modelled: it does nothing.
- Packets.GetAttr: a packet's own members (`data`, `message`, its methods) are not among its attributes in the model, while Python's `getattr` and `hasattr` find them. A configured attribute name such as `data` therefore behaves differently:
  - BranchIf, BranchParam, CallbackOnAttribute and Reset read the payload in the source, where the model finds the name missing.
  - GetBytes raises FilterAttributeError in the source, where the model writes a separate attribute.
  - A TankQueue priority field of `data` reads the payload through `__dict__` in the source.
- Tank.TankQueue.Push: the relative order of packets with and without a priority is an assumption about the engine's queue, which is not part of this model. Packets pushed with a `None` priority pop before numbered ones, as Python 2 orders None below every integer. The push docstring (2191-2197) speaks of a sequential number given in place of 0, so the engine may instead number such packets and interleave them with the numbered ones.
- Priority: a priority attribute that is neither an integer nor a boolean is treated as no priority. The engine's ordering of such values is not visible.
- Tank.TankQueue.FilterData, DrainExcess and SetTankSize: `send_on` is a trace, so a downstream TankFeed cannot push back into the same tank while it drains. The source re-reads the queue after every send (2105, 2134), and the looping use described at 2024-2034 relies on such pushes. Packets pushed into the tank during a drain are not captured, and the drain's bound and conservation hold only without them.
- Tank.TankQueue.constructor: the `tank_size` default look-up and the FilterAttributeError when no size is given are left out. The size is a parameter.
- Batch.Batch.FilterData:
  - A payload that is not a string is a TypeError before anything is buffered. The source buffers it and fails at the join.
  - The size is fixed for the length of a call. The source re-reads it on every pass, since a downstream filter may change it.
- Batch.ValidateSize: the checks on a size that is not an integer are left out. The model's size is an integer.
- Batch.Batch.FlushBuffer and Join.Join.FlushBuffer do not clear their buffers, because the source does not either.
- Sink.Sink.SendOn: the source tests `fork_dest is 'main'`, which compares string identity. It is modelled as equality.
- DistillHeader.DistillHeader.FilterData:
  - Data that is not a string is a TypeError before buffering.
  - `keep_header_key` is modelled as an optional key given at construction.
- Peek.Peek.FilterData: `packet_in` is recorded before a peek fails on data that cannot be sliced, as in the source. Setting `peek` on an object is modelled as setting an attribute.
- DataLength.DataLength.constructor requires a character code from 0 to 255, because `chr` raises ValueError outside that range.
- CallbackOnAttribute.Step: a list-valued watched attribute is counted in `value_dict` like any other value. Python raises TypeError there, because a list cannot be a dict key; that error is not modelled.
- CallbackOnAttribute:
  - The callback and `pipeline.shut_down` are recorded as events in `events`, the shutdown guarded by whether there is a pipeline.
  - The order between `events` and the `sent` trace is not kept.
  - The TypeError for an environment that is not a dictionary cannot arise, because the environment is typed.
  - `open_message_bottle` is FilterData applied to the bottle.
- Routing.SendMessage: the bottle is built as `MessageBottle(message, value=values)`, so the message text takes the bottle's destination place, as written.
- Routing.Reset.FilterData: the bottle and the packet both go to main, as the code sends them, and not branch then main.
- Routing.Compare:
  - An unknown comparison is a FilterLogicError outcome. In the source that line refers to an undefined name and would raise NameError.
  - TankFeed's and BranchIf's exceptions are unqualified names in the source; they are modelled as the intended errors.
  - A list compared with a list is compared item by item with Python 2's rules.
- Transforms.Wrap: data that is not a string is a TypeError, standing for the one `''.join` raises; a unicode payload, which `join` accepts, is not modelled because the model has one string type.

## Findings

| source | as written | input that shows it | evidently intended | confidence | as-written member | corrected member |
|---|---|---|---|---|---|---|
| filterpype/data_filter.py:2210-2211 | `zero_inputs` clears the priority queue but leaves `packets_held` unchanged | a tank holding one packet, then `zero_inputs`: `packets_held` is 1 and the queue holds no packet | `packets_held` counts the packets in the queue, so it goes back to 0 | not executed | Tank.TankZeroAsWrittenMiscounts | Tank.TankQueue.ZeroInputs |
| filterpype/data_filter.py:1986-2003 | the first `zero_inputs` sets `next_filter` to None, so a second call finds no next filter and raises FilterRoutingError | a TankFeed wired to a tank queue, `zero_inputs` called twice | the remembered `_next_filter` is used, so that a repeated `zero_inputs` finds the same tank, which is why the source remembers it | not executed | Tank.FeedZeroAsWrittenFailsTwice | Tank.FeedZeroRepeatable |
