# moqtransport, verified

A Dafny model of the parts of this MOQT library (draft-ietf-moq-transport-18 and -22) whose
correctness spans records, messages or both ends of a session, with proofs. `dafny verify
dfyconfig.toml` checks all of it.

**Wire formats.** `Vi64` is the variable-length integer, written concretely: the library that implements it
is not part of this model, and the repository's tests pin its form. `KeyValuePairs`, `FieldLists`,
`FilterCodec` and `Parameters` are the delta-encoded lists; `ParameterRoundTrips` proves what survives the
wire. `FetchObjects` is the stateful FETCH reader; `FetchForms` describes every compact form a record can
take and proves the reader accepts exactly those; `FetchStreams` and `FetchWriters` lift that to whole
streams, and `FetchHistory` says what a stream means from the records alone, without the reader's state.
`SubgroupHeaders`, `SubgroupStreams` and `SubgroupHistory` do the same for subgroup streams. `BlockLayouts`
writes the lists down byte for byte. `Wiregen` is the field-list compiler's append and parse for an
arbitrary declaration, `ControlMessages` the declarations and the dispatch, `ControlStreams` the framing;
`ControlLayouts` writes every message down as a struct with the bytes, the bounds and the number the drafts
give it. What a truncated stream yields is proved once in `Streams` and instantiated three times.

**Ranges.** `LocationFilters` resolves filters against a Largest Object in 64-bit arithmetic and translates
to draft-18's exclusive ends; `Fetches` follows a FETCH from the application to the publisher and joins it
to a subscription.

**Sessions.** `RequestIds` is the bounded duplicate detector. `ParameterScopes`, `TrackIndex`,
`DeliverySafety` (with `DeliveryProgress`) and `UpdatePipeline` are state machines over both ends, with FIFO
streams between them and theorems about every run; `Establishment` is where the runs of the last start, and
`UpdateWitnesses` has two of them. What `ParameterScopes` shows falling apart is two scopes on their own; no
handler of the library makes those runs (`ParameterScopes.HandlersAgree`). `ParameterPlaces` lists, Type by
Type and draft by draft, where a parameter may stand, and proves that both ends go by that list. The classes
in `Delivery`, `Updates`, `Fills` and `EarlyUpdates` are the source's objects, each with the fields that
matter there (so `RemoteTrack` and `Subscription` appear twice, once for how a subscription ends and once
for how it is updated); their methods are proved equal to the functions the state machines are built from.

A parser reads from a byte sequence at a cursor. A class that reads a stream holds all the bytes the peer
sends before its FIN. Locked sections are single steps, channels are sequences, and a wait channel is the
number of the one current when it was captured.

## Where the code and its documentation disagree

The model follows the code.

- `filter.go:33-35` says an end before the start fails to send. A draft-18 subscription keeps that. A
  draft-22 filter, and a FETCH in either draft, fail exactly when the end is in an earlier Group;
  backwards inside one Group the range is sent and admits nothing (`Fetches.RangeFailsToSend`,
  `Fetches.BackwardsRangeFailsToSend`, `Fetches.BackwardsInsideGroupIsSent`).
- `internal/wire2/location_filter.go:355-368` calls the result the Location after Largest Object; at the
  last Location of all it is Largest Object itself, the one case in which a join delivers a Location
  twice (`LocationFilters.JoinHasNoOverlap`).
- The check for bytes left over (`wiregen/generator.go:341-345`) is not emitted for a message without
  fields, so such a message accepts any body (`Wiregen.OnlyFieldlessAcceptsAnything`). No control message
  in the set is one.
- The append side checks neither bounds nor repeats nor Property scope; the round trips say exactly what
  a reader then refuses.
- `remote_track.go:372-375` does not roll back what an update recorded because a failed write leaves the
  stream unusable. An update refused before the write -- it does not encode, or its parameters may not be
  there (`request_stream.go:160-176`) -- leaves the stream as it was. The record is wrong from then on if
  and only if the update named another pause or filter (`UpdatePipeline.RefusedSendSpoils`), and
  the next fill can be given up on although its stream was opened
  (`UpdateWitnesses.RefusedUpdateHidesFill`).
- `fill.go:188-192` has the subscriber work out from the answer whether a fill stream is coming. It goes by
  what it has asked for since, too: `UpdatePipeline.ExpectationIsRightExactly` says exactly when that is
  right, and in `UpdateWitnesses.PauseHidesFill` it is not.
- `internal/wire2/object.go:67-96` reports a stream that ends inside a block as truncated, but first
  allocates the length it was told: a length beyond what can be allocated ends the program instead.
- An early update that asks for a fill drops the SUBSCRIBE's own (`EarlyUpdates.OwnFillSurvives`).

## Model

| member | source | states |
|---|---|---|
| Vi64.PutReads | internal/wire2/key_value_pair_test.go:74-81 | every width an integer fits in reads back as that integer, consuming exactly that width |
| Vi64.ReadsArePut | internal/wire2/key_value_pair_test.go:74-81 | an integer that reads was written in the width it was read from: the reader accepts nothing else |
| Vi64.LenIsShortest | internal/wire2/key_value_pair.go:37-50 | the width a writer picks is the shortest that fits, so re-writing never grows |
| Vi64.PinnedForms | internal/wire2/location_test.go:28-32 | 64 and 127 take one byte, SETUP's type two, and a two-byte 2 is accepted |
| StableSorting.SortIsStable | internal/wire2/kvp_list.go:102-110 | the sort before every delta encoding is ordered, a permutation, and keeps the order of repeated Types |
| StableSorting.StableSortIsUnique | internal/wire2/parameters.go:260-263 | those three facts determine the result: any two stable sorts of a list agree |
| KeyValuePairs.AppendUnsorted | internal/wire2/kvp_list.go:45-52 | the append loop extends the buffer with the delta encoding of the list |
| KeyValuePairs.AppendLen | internal/wire2/kvp_list.go:54-65 | the length computed in advance is the number of bytes the list then takes |
| KeyValuePairs.AppendLength | internal/wire2/kvp_list.go:32-36 | a block is its length in bytes and then the sorted pairs |
| KeyValuePairs.ParseAll | internal/wire2/kvp_list.go:84-100 | the parse loop reads pairs to the end of the bytes or fails as the recursive reading does |
| KeyValuePairs.PairReads | internal/wire2/key_value_pair.go:54-104 | one pair written relative to a Type reads back exactly when its value is within 65535 bytes |
| KeyValuePairs.PairsRoundTrip | internal/wire2/kvp_list.go:38-100 | parse after append is the stable sort by Type when every value is legal, and ValueTooLong when one is not |
| KeyValuePairs.PairsCanonicalisation | internal/wire2/key_value_pair.go:37-104 | whatever pairs parse can be written again in no more bytes and parse to the same list |
| BlockLayouts.PairsLaidOut | internal/wire2/kvp_list.go:38-52 | a block of pairs byte for byte: sorted, each Type as the distance from the one before, a number for an even Type and a byte string for an odd one |
| ObjectFields.ValidateObjectProperties | internal/wire2/properties.go:97-127 | Object Properties are accepted exactly when every one may appear on an Object in the draft; the error names one that may not |
| ObjectFields.ValidateTrackProperties | internal/wire2/properties.go:129-145 | Track Properties are accepted exactly when none is registered for Objects only; the error names one that is |
| ObjectFields.ScopesAreRegistered | internal/wire2/properties.go:34-111 | where a Property may appear is what the registry says of its Type, unregistered Types anywhere but for Mandatory Track Properties on an Object |
| ObjectFields.StatusesByNumber | internal/wire2/object.go:10-50 | the Object statuses are 0, 3 and 4 |
| ObjectFields.BlockParses | internal/wire2/object.go:60-87 | a Properties block written from a list is accepted exactly when the list is legal and in scope, and reads as its canonical form |
| ByteStreams.ReadPropertyBlock | internal/wire2/object.go:67-87 | the block read off a stream, with an end inside it reported as truncation |
| ByteStreams.ReadPayloadBytes | internal/wire2/object.go:89-96 | a payload read off a stream in full or as a truncation |
| FetchObjects.FetchReader.Next | internal/wire2/fetch_object.go:169-281 | one record resolved against the two prior objects, with the state moved on; an error leaves the state as it was |
| FetchObjects.FetchReader.ReadObject | internal/wire2/fetch_object.go:181-277 | the fields of a real Object in wire order, each inherited or explicit as the flags say |
| FetchObjects.FetchReader.ReadEndOfRange | internal/wire2/fetch_object.go:283-322 | an indicator advances the Location and leaves Subgroup ID and Priority alone |
| FetchObjects.FetchReader.RememberObject | internal/wire2/fetch_object.go:339-346 | what the reader keeps of a real Object |
| FetchObjects.FetchReader.ReadGroupID | internal/wire2/fetch_object.go:324-337 | a Group ID delta in either Group Order, refused on overflow |
| FetchObjects.FetchReader.ReadSubgroupID | internal/wire2/fetch_object.go:205-231 | the four Subgroup ID modes, and none for a Datagram |
| FetchObjects.FetchReader.ReadObjectID | internal/wire2/fetch_object.go:233-248 | an Object ID absent, absolute in a new Group, or a delta |
| FetchObjects.FetchReader.ReadPriority | internal/wire2/fetch_object.go:250-261 | a Priority on the wire or inherited from the last real Object |
| FetchForms.FormReads | internal/wire2/fetch_object.go:171-346 | a record in any compact form its place permits, integers in any width, reads back as the record intended |
| FetchForms.FormBack | internal/wire2/fetch_object.go:171-346 | every record accepted was in a permitted form, which the lemma finds |
| FetchForms.ReaderIsExact | internal/wire2/fetch_object.go:169-346 | the reader accepts a record at a place if and only if the bytes are one of the forms permitted there |
| FetchStreams.PlanReads | internal/wire2/fetch_object.go:169-281 | any sequence of records in any permitted forms reads as those records and then a clean end |
| FetchStreams.StreamIsExact | internal/wire2/fetch_object.go:169-346 | a byte sequence reads cleanly as some records if and only if it is those records in permitted forms |
| FetchHistory.StreamTellsHistory | internal/wire2/fetch_object.go:138-346 | the meaning of a FETCH stream without the reader: it reads cleanly as some records if and only if each is written relative to the last record's Location, inheriting Subgroup ID and Priority from the last real Object |
| FetchStreams.InheritsAcrossIndicator | internal/wire2/fetch_object.go:138-143 | read one after another, an Object, an indicator and an Object: what the last leaves out continues from the indicator's Location but keeps the first Object's Subgroup ID and Priority |
| FetchStreams.FetchTruncation | internal/wire2/fetch_object.go:169-281 | a clean stream cut at any byte yields the records before the cut, then a clean end on a boundary and ErrUnexpectedEOF inside a record |
| FetchStreams.ReadResponse | fetch.go:931-985 | reading a response to its end gives every record, and completes only on a FIN between records |
| FetchWriters.FetchWriter.AppendObject | internal/wire2/fetch_object.go:376-429 | an accepted record extends the buffer with one permitted form; a refused one changes neither buffer nor state |
| FetchWriters.FetchWriter.AppendEndOfRange | internal/wire2/fetch_object.go:431-448 | an indicator needs a kind its draft defines and no payload |
| FetchWriters.FetchWriter.DeltaOfGroup | internal/wire2/fetch_object.go:450-466 | the Group ID delta in the direction of the Group Order, refused the other way |
| FetchWriters.AcceptsExactly | internal/wire2/fetch_object.go:376-466 | the writer takes exactly Groups in order with Object IDs increasing in one, and defined indicators |
| FetchWriters.WriterRoundTrip | internal/wire2/fetch_object.go:376-481 | any run of writes, some refused, in either order and draft, reads back as the accepted records if and only if their Properties are readable |
| Streams.CutStream | internal/wire2/parser.go:42-114 | for any record reader: a cut stream yields the records before the cut, ended cleanly exactly on a boundary |
| Streams.BeforeIsCount | internal/wire2/parser.go:42-45 | that number of records is how many end at or before the cut |
| SubgroupHeaders.TypeBits | internal/wire2/subgroup_header.go:89-108 | the stream type of a header gives every flag and the mode back |
| SubgroupHeaders.ReadStreamType | internal/wire2/parser.go:243-264 | the leading integer classified, a bad or cut one malformed, an empty stream a clean end |
| SubgroupHeaders.ClassifiedExactly | internal/wire2/parser.go:222-241 | which leading integers announce which kind of stream, by number, and no other does |
| SubgroupHeaders.ParseHeader | internal/wire2/subgroup_header.go:133-177 | the optional fields the stream type announces, a cut header malformed |
| SubgroupHeaders.HeaderRoundTrip | internal/wire2/subgroup_header.go:115-177 | a header that can be written classifies as a subgroup stream and parses back |
| SubgroupHeaders.HeaderCut | internal/wire2/subgroup_header.go:133-177 | a header cut anywhere inside is malformed, and cut after it is read as before |
| SubgroupHistory.HeaderIsExact | internal/wire2/subgroup_header.go:115-177 | a header reads if and only if the stream type is its own, with no reserved mode, and its fields are there in any width, those the type leaves out being zero |
| SubgroupStreams.SubgroupReader.Next | internal/wire2/subgroup_object.go:44-97 | one Object, filling in the shared header's Subgroup ID on the first; an error leaves the state alone |
| SubgroupStreams.SubgroupReader.ReadBody | internal/wire2/subgroup_object.go:71-89 | a payload, or for an empty one a status, which must be defined and Normal if there are Properties |
| SubgroupStreams.SubgroupWriter.AppendObject | internal/wire2/subgroup_object.go:113-159 | an accepted Object extends the buffer; a refused one changes nothing |
| SubgroupHistory.WriterTakesExactly | internal/wire2/subgroup_object.go:113-159 | which Objects a writer takes: increasing IDs, Properties where the header announces them, a status other than Normal only on an Object with neither payload nor Properties |
| SubgroupStreams.StreamRoundTrip | internal/wire2/subgroup_object.go:20-159 | header and any run of writes: classifies, parses and reads back, learned Subgroup ID included, if and only if the Properties are readable |
| SubgroupStreams.IdsIncrease | internal/wire2/subgroup_object.go:53-63 | on arbitrary bytes the Object IDs read are strictly increasing |
| SubgroupHistory.StreamTellsHistory | internal/wire2/subgroup_object.go:44-97 | the meaning of a subgroup stream without the reader: its Objects read cleanly if and only if each is written relative to the last Object ID, with a block exactly if the header says so, and a status only where there is no payload |
| SubgroupHistory.HeaderTells | internal/wire2/subgroup_object.go:91-96 | and the shared header changes only to learn the first Object's ID, where its mode says so |
| SubgroupStreams.SubgroupTruncation | internal/wire2/subgroup_object.go:44-97 | the Objects of a clean stream cut at any byte: those before the cut and the right end |
| SubgroupStreams.StreamTruncation | internal/wire2/parser.go:243-264 | the whole stream cut at any byte: nothing is EOF, a type or header cut short is malformed, past it the Objects before the cut |
| LocationFilters.CompareIsOrder | internal/wire2/location_filter.go:316-330 | Compare is the lexicographic order of Locations |
| LocationFilters.NextObjectIsNext | internal/wire2/location_filter.go:355-368 | the Next Object is the least Location past Largest Object, except past the last of all |
| LocationFilters.RelativeStartIsClamped | internal/wire2/location_filter.go:370-388 | a relative start is Largest.Group + 1 - n over the integers, clamped to 64 bits |
| LocationFilters.FetchIsPublishedPart | internal/wire2/location_filter.go:413-430 | a fetch or fill covers exactly the Locations a subscription admits at or below Largest Object |
| LocationFilters.FetchRefusedWhenEmpty | internal/wire2/location_filter.go:413-430 | a fetch range is refused if and only if that set is empty |
| LocationFilters.SubscriptionAdmitsExactly | internal/wire2/location_filter.go:390-411 | for every type of filter, Largest Object and Location, in the integers: exactly what a subscription admits |
| LocationFilters.FetchAdmitsExactly | internal/wire2/location_filter.go:413-430 | and exactly what a fetch or a fill does |
| LocationFilters.JoinLeavesNoGap | internal/wire2/location_filter.go:390-430 | an open-ended fill and a Next Object subscription admit together every Location at or after the fill's start, or past Largest Object |
| LocationFilters.RelativeFillMeetsLive | fill.go:33-36 | from a relative start of n Groups, one or more, they admit every Location from Group Largest + 1 - n on |
| LocationFilters.JoinHasNoOverlap | internal/wire2/location_filter.go:355-430 | and admit none twice if and only if Largest Object is not the last Location of all |
| LocationFilters.FromV18Admits | internal/wire2/location_filter.go:432-451 | a received draft-18 range becomes a valid filter admitting the same Locations |
| LocationFilters.FromV18RejectsEmpty | internal/wire2/location_filter.go:432-451 | and is rejected exactly when it covers none |
| LocationFilters.ToV18Admits | internal/wire2/location_filter.go:453-472 | a sent draft-18 range covers what its filter admits, for every Largest Object |
| LocationFilters.V18TranslationPreservesRange | internal/wire2/location_filter.go:432-472 | through draft-18 and back the fetch range is the same for every Largest Object |
| LocationFilters.V18RejectsEmptyFilter | internal/wire2/location_filter.go:432-472 | a filter sent that way is rejected on receipt exactly when it admits nothing |
| LocationFilters.V18Expressible | internal/wire2/location_filter.go:453-472 | draft-18 FETCH can carry exactly the valid filters that are not relative |
| LocationFilters.EndLocationBijection | internal/wire2/location_filter.go:474-490 | the exclusive and the inclusive End Location convert to each other without loss, both ways |
| FilterCodec.AppendValue | internal/wire2/location_filter.go:155-185 | the filter in a draft's encoding, or why the draft cannot carry it |
| FilterCodec.AppendBody18 | internal/wire2/location_filter.go:187-216 | the body of draft-18's SUBSCRIPTION_FILTER |
| FilterCodec.ParseValue | internal/wire2/location_filter.go:218-272 | the receiver filled in field by field, as the reading function says |
| FilterCodec.ParseBody18 | internal/wire2/location_filter.go:274-310 | the draft-18 body read into its draft-22 equivalent |
| FilterCodec.FilterLaidOut | internal/wire2/location_filter.go:155-216 | the bytes of every valid filter in each draft, by the numbers of its types, and which filters draft-18 has no bytes for |
| FilterCodec.ExpressibleIsWritable | internal/wire2/location_filter.go:143-216 | exactly the valid filters are written in draft-22, and in draft-18 those without a partial last Group or a start further back |
| FilterCodec.FilterReads | internal/wire2/location_filter.go:155-310 | a filter written in either draft reads back as its received form |
| FilterCodec.ReceivedMeansSame | internal/wire2/location_filter.go:187-216 | the received form resolves to the same subscription and fetch range for every Largest Object |
| FilterCodec.FilterIsCanonical | internal/wire2/location_filter.go:155-310 | whatever is accepted can be written again in no more bytes and is already in received form |
| Fetches.AbsoluteRangeAdmits | filter.go:33-45 | a range that does not run backwards by Group admits exactly start through end |
| Fetches.ValidateCatchesWrap | filter.go:36-45 | the wrapping subtraction is caught by validation exactly when the end Group is before the start Group |
| Fetches.RangeFailsToSend | filter.go:33-45 | for every pair of ends, exactly which ranges each of the four ways of sending one refuses |
| Fetches.BackwardsRangeFailsToSend | filter.go:33-45 | a range that ends before it starts: a draft-18 subscription always refuses it; a draft-22 filter and a FETCH in either draft exactly when the end is in an earlier Group |
| Fetches.BackwardsInsideGroupIsSent | fetch.go:704-721 | a range backwards inside one Group is sent in a draft-22 filter and in a FETCH of either draft, and admits nothing |
| Fetches.FetchKeepsRange | fetch.go:704-721 | a FETCH sent in either draft resolves at the publisher to its filter's range, or is refused because that is empty |
| Fetches.FetchRequest.ResolveJoiningFetch | fetch.go:866-917 | a Joining FETCH becomes a range up to the Joining Location, or a refusal that leaves the request alone |
| Fetches.FetchRequest.Range | fetch.go:129-149 | resolving keeps the range for Accept to report |
| Fetches.FetchRequest.Accept | fetch.go:171-217 | FETCH_OK carries the given, resolved or filter's own end, once, and not before it is known |
| Fetches.ResolvedEndIsLast | fetch.go:129-149 | what Range keeps is the last Location the response covers |
| Fetches.EndLocationArrives | fetch.go:643-646 | the End Location the subscriber learns is the one the publisher chose, in either draft |
| Fetches.JoiningServed | fetch.go:868-917 | a Joining FETCH is served exactly when the subscription forwards, has a Joining Location, and the start is at most its Group |
| Fetches.JoiningRefusals | fetch.go:868-917 | and otherwise which refusal it gets |
| Fetches.JoiningLeavesNoGap | fetch.go:866-917 | served, it covers exactly the Group so many before the Joining Location's, or the Group named, through the Joining Location, and with the subscription everything from there on |
| Fetches.JoiningHasNoOverlap | fetch.go:913-917 | no Location is covered twice if and only if the Joining Location is not the last of all |
| FieldLists.AppendFieldList | internal/wire2/redirect.go:27-31 | a counted list of byte strings, appended |
| FieldLists.ParseFieldList | internal/wire2/redirect.go:43-62 | the count bounded by the maximum and by the bytes left, then that many strings |
| FieldLists.FieldsRead | internal/wire2/redirect.go:43-92 | a list written reads back exactly when it is within the bound |
| BlockLayouts.NamespaceLaidOut | internal/wire2/redirect.go:27-31 | a namespace byte for byte: the number of its fields, each behind its length |
| Parameters.AppendWith | internal/wire2/parameters.go:260-281 | a sorted copy, its count and the deltas, or the first failure |
| Parameters.AppendValue | internal/wire2/parameters.go:283-317 | a value in the encoding the registry gives, nested block included |
| Parameters.ParseWith | internal/wire2/parameters.go:334-378 | the parse loop with its seen set, as the recursive reading says |
| Parameters.ParseOne | internal/wire2/parameters.go:348-374 | overflow, unknown Type and duplicate refused in that order, then the value |
| Parameters.ParseParameterValue | internal/wire2/parameters.go:380-447 | a value read into the field its encoding selects, a nested block to its last byte |
| Parameters.Get | internal/wire2/parameters.go:449-457 | the first parameter of a Type, or none if there is none |
| Parameters.RegistriesAgree | internal/wire2/parameters.go:78-152 | the two drafts' registries agree on every Type in common, draft-22 adds seven, and FILL_PARAMETERS has some of them unchanged |
| Parameters.RegistriesByNumber | internal/wire2/parameters.go:78-152 | the encoding of every Type, by its number, and which registries have it |
| ParameterRoundTrips.WritesExactly | internal/wire2/parameters.go:260-317 | a block can be written exactly when each parameter is registered and its encoding can carry its value |
| BlockLayouts.BlockLaidOut | internal/wire2/parameters.go:260-317 | a parameter block byte for byte, Type by Type as numbered, nested ones included, or the error of the first parameter that cannot be written |
| BlockLayouts.CountsAreBounded | internal/wire2/parameters.go:334-343 | a count beyond the bytes that are left is refused at once |
| BlockLayouts.LengthsAreFilled | internal/wire2/parameters.go:427-446 | what FILL_PARAMETERS holds, and a draft-18 filter, must fill its announced length to the last byte |
| ParameterRoundTrips.BlockReads | internal/wire2/parameters.go:260-447 | a block that can be written reads back as its stable sort by Type if it is registry-legal, and is refused if not |
| ParameterRoundTrips.ParametersCanonicalisation | internal/wire2/parameters.go:252-447 | arbitrary bytes that parse can be written again in no more bytes and parse to the same list, in both drafts and inside FILL_PARAMETERS |
| Wiregen.EmittedAppend | wiregen/generator.go:283-317 | the emitted append writes the draft's fields in order, or the first failure |
| Wiregen.EmittedField | wiregen/generator.go:63-242 | what each tag's append snippet writes |
| Wiregen.AppendRedirect | internal/wire2/redirect.go:24-34 | the Redirect structure, appended |
| Wiregen.EmittedParse | wiregen/generator.go:319-348 | the emitted parse reads the draft's fields in order and checks for bytes left over when there are any fields |
| Wiregen.EmittedParseField | wiregen/generator.go:63-242 | what each tag's parse snippet reads |
| Wiregen.BoolIsExact | wiregen/generator.go:194-213 | a flag is one byte, 0 or 1 and no other |
| Wiregen.RedirectReads | internal/wire2/redirect.go:24-71 | a Redirect reads back exactly when its URI and namespace are within their bounds |
| Wiregen.BodyRoundTrip | wiregen/generator.go:283-348 | for every declaration whose run-to-end tag is last: parse undoes append, up to sorting and other drafts' defaults, exactly when the values are within bounds |
| Wiregen.BodyCanonicalisation | wiregen/generator.go:319-348 | for every such declaration: an accepted body is consumed to its end, can be written again no longer, and other drafts' fields stay default |
| Wiregen.OnlyFieldlessAcceptsAnything | wiregen/generator.go:341-345 | a declaration accepts every body if and only if it has no field on the wire |
| ControlMessages.DispatchIsExact | internal/wire2/parser.go:125-191 | a type names a message exactly on the streams and in the draft that carry it |
| ControlMessages.DeclarationsEndLast | internal/wire2/messages.go:38-244 | every declaration of the set, SUBSCRIBE, FETCH_OK and REQUEST_ERROR included, meets the compiler's conditions in both drafts |
| ControlLayouts.BodyLaidOut | internal/wire2/messages.go:38-265 | every message, as the struct it is, on the wire: its fields one after another, in each draft |
| ControlLayouts.FrameLaidOut | internal/wire2/appender.go:27-43 | and framed: its number, two bytes of length and the body |
| ControlLayouts.BoundedIsRead | internal/wire2/messages.go:38-265 | and read back exactly within its bounds, field by field |
| ControlLayouts.BodyReadAs | internal/wire2/messages.go:38-265 | as the same struct, its lists sorted by Type, a draft-22 GOAWAY without its Request ID |
| ControlLayouts.FetchLaidOut | internal/wire2/fetch.go:102-207 | FETCH on the wire in each draft and of each Fetch Type |
| ControlLayouts.FetchBounded | internal/wire2/fetch.go:102-207 | and its bounds |
| ControlMessages.FetchRoundTrip | internal/wire2/fetch.go:102-207 | a FETCH written in either draft reads back as what its Fetch Type carries, exactly when its fields are within bounds |
| ControlMessages.MessageRoundTrip | internal/wire2/control_message.go:243-274 | any message's body reads back, exactly when it is within bounds |
| ControlMessages.MessageCanonicalisation | internal/wire2/control_message.go:243-274 | any body accepted as any message can be written again in no more bytes and is accepted as the same message |
| ControlMessages.FetchCanonicalisation | internal/wire2/fetch.go:102-207 | and so for FETCH, whose body depends on its Fetch Type |
| ControlMessages.AppendBody | internal/wire2/control_message.go:243-257 | a body in the draft's encoding, or a refusal of a message the draft does not have |
| ControlMessages.ParseMessageBody | internal/wire2/control_message.go:259-274 | a body read into the message the type named |
| ControlStreams.AppendControlMessage | internal/wire2/appender.go:27-43 | type, 16-bit length written over its placeholder, and body; too long a body is refused |
| ControlStreams.ControlMessageParser.Parse | internal/wire2/parser.go:42-60 | one message, a clean end between messages only, anything else malformed |
| ControlStreams.ControlMessageParser.ParseBody | internal/wire2/parser.go:62-94 | length and body of a message whose type was read |
| ControlStreams.StreamRoundTrip | internal/wire2/parser.go:42-94 | any sequence of messages of a scope and draft parses back to itself and then EOF, if and only if all are within bounds |
| ControlStreams.FrameCanonicalisation | internal/wire2/parser.go:42-94 | any frame accepted can be written again in no more bytes and is accepted as the same message |
| ControlStreams.ControlTruncation | internal/wire2/parser.go:42-104 | a control stream cut at any byte yields the messages before the cut and EOF or a malformed end |
| RequestIds.RequestIDGenerator.NextID | request_id.go:28-35 | the next ID, stepping by 2 |
| RequestIds.PeerRequestIDs.UseID | request_id.go:72-96 | an ID recorded with the contiguous run absorbed, or refused with nothing changed |
| RequestIds.UseIsExact | request_id.go:37-96 | the mark and holes remember exactly the accepted set: an ID is accepted if and only if its parity is right and it is new, until every ID is used |
| RequestIds.RunIsExact | request_id.go:72-96 | over any run that leaves an ID unused, each verdict is right and the accepted IDs are exactly what is remembered |
| RequestIds.PermutationAccepted | request_id.go:43-48 | the IDs an opposite endpoint generates are accepted in any order, and a complete prefix leaves no hole |
| RequestIds.WrapForgets | request_id.go:88-95 | after the last even ID the mark wraps and a used ID is accepted again |
| ParameterScopes.CheckParameters | internal/wire2/parameter_scope.go:204-222 | a block is allowed exactly when every Type is in the context's set; the error names the first that is not |
| ParameterScopes.ScopesCoverRegistry | internal/wire2/parameter_scope.go:97-192 | a Type is registered in a draft exactly when some context of its scope table admits it |
| ParameterScopes.ParameterScope.Opened | parameter_check.go:32-41 | what opened the stream is recorded once |
| ParameterScopes.ParameterScope.Check | parameter_check.go:43-65 | the verdict on a message where it sits, with the exchange moved on even if it is refused |
| ParameterPlaces.TablesAreLists | internal/wire2/parameter_scope.go:97-192 | the scope tables are, Type by Type, the list of messages, updates and answers that may carry it |
| ParameterPlaces.VerdictIsByDefinition | parameter_check.go:43-143 | the verdict on any message, after any messages, at either end: what those lists say, given what opened the stream and whether that was answered |
| ParameterScopes.EndsAgree | parameter_check.go:10-152 | over every interleaving of the two FIFO directions, sends refused or not, each end judges what it reads as the sender did, and nothing sent is refused, as long as the answering end sends nothing after being refused the answer to a request answered with REQUEST_OK |
| ParameterScopes.PlainAnswersAgree | namespace.go:75-117 | so where such answers carry no parameters, in every run |
| ParameterScopes.HandlersAgree | track_status.go:84-141 | and with the library's handlers answering, on every stream, whatever the asking end tries: the ends agree and nothing sent is refused on arrival |
| ParameterScopes.AgreementIsExact | parameter_check.go:101-125 | of two scopes fed any sends at all, which is more than the handlers make: they agree in every run of a stream if and only if its request is not one of the five answered with REQUEST_OK |
| ParameterScopes.RefusedOnArrivalExactly | parameter_check.go:101-125 | likewise of the scopes alone: in every run nothing sent is refused on arrival if and only if it is not one of those, TRACK_STATUS apart |
| ParameterScopes.AnsweredTwiceEnds | parameter_check.go:43-65 | the run of the scopes alone that shows it, a second answer tried after a refused first, which no handler makes |
| ParameterScopes.RefusalMovesExactly | parameter_check.go:43-65 | a refused send moves the sender's scope exactly when it would have opened the stream or answered the request |
| TrackIndex.RemoteTrackIndex.ExpectTrack | remote_track.go:886-891 | a subscription about to be asked for becomes pending |
| TrackIndex.RemoteTrackIndex.AbandonTrack | remote_track.go:893-902 | a pending subscription is dropped and waiters woken |
| TrackIndex.RemoteTrackIndex.AddTrack | remote_track.go:921-935 | an alias is given to a track unless it names another; waiters are woken either way |
| TrackIndex.RemoteTrackIndex.RemoveTrack | remote_track.go:937-950 | the first occurrence is removed, and the alias with its last |
| TrackIndex.RemoteTrackIndex.Look | remote_track.go:966-983 | what a waiter sees under the lock |
| TrackIndex.ReadyIsAnnounced | remote_track.go:863-991 | no step makes an alias ready without closing the channel that was current |
| TrackIndex.NoWakeUpIsLost | remote_track.go:863-991 | over all runs every alias holds one track's subscriptions, and a waiter whose alias is ready can wake and then returns |
| TrackIndex.WaitLastsExactly | remote_track.go:887-1000 | a wait from its start: over at the first look if the alias is ready, and else until an answer or the end of a pending subscription, or its timeout |
| TrackIndex.FoundIsFinal | remote_track.go:952-983 | a wait that was not cut short returns some subscriptions to one track, to which none is pending |
| TrackIndex.IndexIsHistory | remote_track.go:863-983 | over every run: pending are exactly those expected and not answered or abandoned since, an alias has in order those added and not removed, and it is ready exactly when it has one and none of its name is pending |
| TrackIndex.AnsweredIsReady | remote_track.go:921-983 | so a subscription answered under a new alias is found at once |
| TrackIndex.WithoutIsLessFirst | remote_track.go:937-950 | removal takes the first of its track and nothing else |
| Delivery.RemoteTrack.Accepted | remote_track.go:700-733 | SUBSCRIBE_OK once, with Track Properties in scope: the SUBSCRIBE's own fill settled and the alias registered, or refused as a second answer or an alias naming another track |
| Delivery.RemoteTrack.HandleDone | remote_track.go:593-603 | PUBLISH_DONE's count is kept and nothing else happens |
| Delivery.RemoteTrack.RunEnded | remote_track.go:450-468 | the alias is no longer waited for; a clean end waits for the counted streams, unless they have ended or were not counted, and any other ends delivery |
| Delivery.CleanEndWaitsExactly | remote_track.go:462-478 | a clean end waits if and only if a count was announced, is not the number the draft reserves, and is above the streams ended |
| Delivery.RemoteTrack.AwaitDataStreams | remote_track.go:488-512 | one turn of the wait: the comparison, or a stream's end, the grace period or the end of delivery |
| Delivery.WakesToLookOnce | remote_track.go:488-512 | a waiter that is woken uses the signal up, looks once, and sleeps again unless enough streams have ended |
| Delivery.RemoteTrack.SessionEnded | remote_track.go:81-88 | the session's end ends delivery and nothing else |
| Delivery.RemoteTrack.DataStreamEnded | remote_track.go:538-548 | a stream's end is counted and signalled |
| Delivery.RemoteTrack.FinishDelivery | remote_track.go:514-536 | delivery ends, neither the alias nor a fill's Request ID routes here, and every fill without a stream has failed unless it was over |
| Delivery.UnroutedExactly | remote_track.go:937-949 | at the end of delivery its alias loses the subscription, once, and every other alias is as it was |
| Delivery.RemoteTrack.Deliver | remote_track.go:295-307 | an Object is buffered if there is room, or given up on if delivery is over or the reader is stopped |
| Delivery.RemoteTrack.ReadBuffered | remote_track.go:270-276 | what is buffered comes first, without waiting |
| Delivery.RemoteTrack.ReadObject | remote_track.go:278-293 | the wait ends with an Object, with the end of delivery once nothing is buffered, or with the caller's giving up |
| Delivery.Subscription.OpenSubgroup | subscribe.go:570-610 | every stream opened and headed is counted, and no other |
| Delivery.Subscription.OpenFill | fill.go:425-462 | a fill stream counts likewise, and is remembered until it is done |
| Delivery.Subscription.FillDone | fill.go:449-453 | a fill that is done is no longer reset by Close |
| Delivery.Subscription.Close | subscribe.go:636-669 | the fills still open are reset, and then PUBLISH_DONE with the count and a FIN go out, once |
| Delivery.ClosesOnce | subscribe.go:636-669 | PUBLISH_DONE goes out once, with the count, and a FIN after it |
| DeliverySafety.NothingIsLost | remote_track.go:262-307 | over every run, when the end is reported every counted stream was written and read to its end and every Object returned in order, unless the count was 2^62-1 in draft-18 or 2^64-1 in draft-22 |
| DeliveryProgress.EndIsReached | remote_track.go:262-548 | and the end does come: once a publisher has closed and its streams have their FINs, the subscriber's steps for it are bounded in number, whatever else happens in between, and only run out when the end has been reported |
| DeliveryProgress.WhatIsWrittenArrives | subscribe.go:570-669 | end to end, told from the events alone: once the end is reported the publisher has closed, every stream of its own has its FIN, and what was read of each subgroup stream is what was written to it |
| DeliveryProgress.RoutesWhileDelivering | remote_track.go:514-536 | over every run, an alias routes to the subscription that was told it for as long as its delivery lasts, and to nothing after |
| DeliverySafety.OnlyOwnObjects | session.go:578-616 | at any moment what reached a subscription is a prefix of each of its own streams and nothing of any other |
| DeliverySafety.OkStep | session.go:405-419 | aliases being unique, SUBSCRIBE_OK always registers an alias that names no other track |
| DeliverySafety.WaiterIsSignalled | remote_track.go:488-548 | a wait asleep although the streams have ended is signalled, and ends when it looks |
| EarlyUpdates.MergedParameters | subscribe.go:360-377 | the merge loop keeps what is not replaced and adds the update, less a fill |
| EarlyUpdates.SubscribeRequest.EarlyUpdate | subscribe.go:335-354 | an update before the answer folds into the parameters, its fill kept aside, or is refused for a range filter |
| EarlyUpdates.SubscribeRequest.Accept | subscribe.go:183-272 | the settings, Group Order, Track Properties and fills a subscription starts with; a request already answered is refused, and bad parameters leave it unanswered |
| EarlyUpdates.SubscribeRequest.Reject | subscribe.go:274-291 | turning a request down answers it, once |
| EarlyUpdates.EstablishedExactly | internal/wire2/parameter_values.go:67-117 | when a SUBSCRIBE is accepted and as what, field by field, from the first parameter of each Type |
| EarlyUpdates.MergedExactly | subscribe.go:736-778 | when an update is taken and what it makes of the settings |
| EarlyUpdates.PreferenceIsFirst | internal/wire2/parameter_values.go:169-181 | the publisher's order is that of the first Track Property that states one |
| EarlyUpdates.FirstMerged | subscribe.go:360-377 | what a merged block says of a Type: the update's word, else the base's |
| EarlyUpdates.AcceptanceTimeDoesNotMatter | subscribe.go:183-243 | wherever Accept falls among valid updates, priority, forward flag and active filter come out the same |
| EarlyUpdates.OwnFillSurvives | subscribe.go:364-376 | the SUBSCRIBE's own fill is started exactly when no early update asked for one |
| EarlyUpdates.EarlyFillIsKept | subscribe.go:330-351 | an early update's fill is kept under the Request ID that asked for it |
| Establishment.StartsMirrored | session.go:325-344 | what a draft-22 SUBSCRIBE records at the subscriber mirrors what the publisher accepts: where the runs of UpdatePipeline start |
| Establishment.OwnFillExpectationIsRight | remote_track.go:713-724 | with no update before the answer, the subscriber concludes from SUBSCRIBE_OK that no stream is coming for the SUBSCRIBE's own fill exactly when the publisher opens none |
| Fills.FillStream.Finish | fill.go:169-177 | the first outcome wins |
| Fills.FillStream.Attach | fill.go:218-227 | a stream is taken once, and not after the fill is over |
| Fills.FillStream.Expect | fill.go:188-206 | the fill completes at once exactly if no stream is here and the answer shows none is coming |
| Fills.OpensExactly | fill.go:380-401 | a publisher opens a stream exactly when it forwards and something published is admitted by the fill's own filter, else the subscription's |
| Fills.ConcludesNoneExactly | fill.go:193-206 | and a subscriber expects none exactly when it is paused or nothing published is |
| Fills.FillStream.ResponseComplete | fill.go:241-250 | the stream's end is the outcome if there is none yet, and counts toward PUBLISH_DONE either way |
| Updates.RemoteTrack.UpdateWith | remote_track.go:353-403 | an update takes a slot, records what it asks for and registers its fill before it is written; a failed write frees the slot and keeps the record; over the limit nothing changes |
| Updates.RemoteTrack.AnsweredUpdate | remote_track.go:634-643 | the oldest slot is freed |
| Updates.RemoteTrack.HandleAnswer | remote_track.go:567-626 | an answer frees a slot, notes Largest Object and settles the fill of that slot |
| Updates.Subscription.MergeInto | subscribe.go:736-778 | an update overlays the state or is refused and changes nothing |
| Updates.Subscription.ApplyUpdate | subscribe.go:671-718 | an update is applied and answered, or refused and the subscription ended |
| Updates.AppliedExactly | subscribe.go:671-718 | refused, an update ends the subscription, changes nothing else and opens nothing; applied, it is answered, in draft-22 with Largest Object, and opens a fill stream exactly if it asks for one that opens under the settings it leaves |
| Updates.Subscription.StartFill | fill.go:376-416 | a stream is opened exactly when forwarding and the resolved range is not empty, with the order and priority given or inherited |
| Updates.OrderInExactly | fill.go:402-407 | the order a fill asks for if it is one, and the subscription's otherwise |
| Updates.Subscription.UpdateLargestObject | subscribe.go:501-515 | Largest Object only grows |
| UpdatePipeline.PipelineInOrder | remote_track.go:353-403 | over every run, updates refused before the write included, the slots are the answers then the updates in flight, within the limit, and each answer frees its own slot |
| UpdatePipeline.GoesOutExactly | remote_track.go:360-363 | and an update can go out exactly when there is no limit or fewer are unanswered |
| UpdatePipeline.StateIsMirrored | remote_track.go:366-383 | in draft-22 the updates sent account for the publisher's pause and filter folded with the updates in flight; what is recorded mirrors it if and only if it is what those left |
| UpdatePipeline.RefusedSendSpoils | remote_track.go:372-401 | a refused update spoils a mirrored record if and only if it names another pause or filter |
| UpdatePipeline.HarmlessRunMirrors | remote_track.go:372-401 | over a run without such a refusal the record is what was sent, at the end and at every answer |
| UpdatePipeline.GivesUpExactly | fill.go:188-206 | with any number of updates unanswered: the subscriber gives up exactly if no stream is here and none would open under the publisher's settings when it answered, overlaid by the updates still unanswered |
| UpdatePipeline.ExpectationIsRightExactly | fill.go:188-206 | giving up is right if and only if the stream was here, or the updates unanswered behind changed neither forwarding nor whether the range is empty, or changed forwarding of an empty range |
| UpdatePipeline.OwnRangeIsRightExactly | fill.go:188-206 | for a fill with a range of its own: if and only if the stream was here or none of them changed forwarding |
| UpdatePipeline.FillExpectationIsRight | fill.go:188-206 | so it is right whenever none of them names forwarding, or the filter unless the fill has its own |
| UpdateWitnesses.PauseHidesFill | fill.go:193-206 | a run: a fill asked for and opened, then a pause before its answer is heard, and the subscriber gives up on it |
| UpdateWitnesses.RefusedUpdateHidesFill | remote_track.go:372-401 | a run: an update refused before the write, then a fill with nothing behind it, opened and given up on |

## Left out

- QUIC and WebTransport adapters, contexts, goroutine start-up, mutexes and timers: foreign calls; each locked section is one step.
- qlog, String methods, error-code registries, setup option accessors, the datagram codec, priority mapping, pending streams, the control stream pair: no property spanning them.
- A negotiated version other than 18 and 22, which every codec refuses as unsupported.
- wiregen's parsing of Go source, import resolution and formatting; a `max` tag of 0, which no declaration has and which the model reads as no bound.
- Slice aliasing: a parsed value sharing bytes with its buffer, the copy that await returns, and the backing array that remove shifts in place.
- Lists, strings and payloads of 2^64 bytes or more, whose length a 64-bit prefix cannot say; the round trips require shorter ones.
- Track Aliases past 2^64 subscriptions on one session, where the allocator would wrap.
- FETCH: the stream and context side of FetchStream. A reset FETCH can surface its completion error through the context cause, so nothing is claimed of that.
- `PUBLISH_STATE_NOTIFY`: an update crossing it can leave the two ends apart, and the code promises nothing there.
- Races inside Accept: early updates are handled wholly before it.
- Delivery runs with a grace timeout, an alias timeout, Close by the subscriber, session loss, streams reset, or a fill closed or given up on; end-of-subgroup markers, which are delivered before the stream is counted; datagrams; subscriptions answered with REQUEST_ERROR.
- DeliverySafety.NothingIsLost: says nothing of a subscription whose PUBLISH_DONE carries the count reserved for a publisher that cannot count, because the code ends delivery at once then. Opening a stream, writing its header and counting it are one step, where the source counts in a locked section of its own: a Close in between, which its documentation rules out, would miss the stream.
- UpdatePipeline.StateIsMirrored: draft-22 only, because draft-18 cannot say "no filter" and the publisher then holds a filter from the very first Object.
- ByteStreams.ReadPropertyBlock: promises a truncation where the source panics, for an announced length past the allocator's limit.
- ByteStreams.ReadPayloadBytes: likewise.
- ParameterScopes.EndsAgree: the answering end sends nothing before it has read the opening message, because it has no stream to send on before that; an opening message is judged before there is a stream, so one that is refused changes nothing. Messages that fail before the scope sees them are not tries.
- A write that fails underway: the request stream, and with it the subscription, is over then.
- Padding and FETCH_HEADER, stream headers with one field or none.
