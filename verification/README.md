# Verified model of the chat server

This project models the core of an in-memory chat server and proves properties of the model: the server
state machine (`NetInfo` with `UserInfo` and `GroupInfo`), the packet and payload codecs, the textual
custom variables, and SHA-256. Everything is a Dafny proof; nothing here executes the server.

## How the model is built

The classes `NetInfo`, `GroupInfo`, `UserInfo`, `CustomData`, `ClientMsgListAck` and `ReadThread` have the
fields of the originals, and their methods change them step by step. Each method's contract ties its new
state to a specification function on values (`Servers`, `Groups`, `Users`, `CustomText`, `MsgListAck`), and
the properties are lemmas about those functions, about one step and about whole runs. `NetInfos.NetInfo.ParseMsg`
joins the two: a packet's bytes take the objects to the state `Servers.Handle` gives for the decoded request.
`ReadThreads.ReadThread.OnReadable` calls it for every packet in the receive buffer.

Layers, lowest first:

| files | content |
|---|---|
| `Bytes`, `Sorted`, `MapSums` | little-endian integers, buffers, ordered traversal, sums over maps |
| `Fips180`, `FipsRoots`, `Sha256Macros`, `Sha256` | the standard's definition and constants, the signed-shift macros, the code |
| `Packets`, `MsgListAck` | framing, messages, the message-list reply |
| `Groups`, `GroupRuns`, `GroupViews`, `GroupInfo`, `GroupCodec` | one group: operations, runs, its view, class, codec |
| `CustomText`, `CustomParse`, `CustomData` | custom variables: printing, parsing, class |
| `Users`, `Server`, `ServerRuns` | users, the state machine, runs |
| `Sessions`, `Phones`, `Membership`, `Ownership`, `GroupLists`, `Rosters`, `Authority`, `Titles`, `Rooms`, `PlainRuns` | the server's invariants |
| `Access`, `Profiles`, `Presence`, `Enrolment`, `ServerViews`, `Answers` | who may act, what a record holds, who is on line, what requests do to groups, how they are answered |
| `Fanouts`, `Broadcasts`, `Quotas`, `Ghosts`, `MessageLists`, `Witnesses`, `Ranges` | delivery, quota, replies end to end |
| `Receive`, `Requests`, `Wire`, `PacketRuns` | the turns of the read loop, decoding, runs of packets |
| `Mirrors`, `NetInfo`, `ReadThread` | the classes with the handlers and the read loop |

Conventions:

- A `std::list` iterator inside a group is a node number, so two maps can point to one node whose fields
  change; an iterator into `users` or `groups` is a reference to the object in the list node. Copying a
  `GroupInfo` gives a copy whose maps point into its own list (the original's copied maps still point into
  the list of the object that is about to be destroyed).
- `long` has 32 bits in `str_sha256`, as its masks and stores assume. Counters wrap at their C++ width.
  Sums and products in length guards are taken not to wrap.
- `send` appends to a log of socket and bytes. The clock is a parameter and `std::hash` is any function.
  The traversal orders of the two custom-variable maps are parameters, so what is proved holds for all.
- A traversal callback's registration test reads only `users_map`, which no callback changes, so the
  members reached are computed before the callback's effects.
- The compaction `memcpy` of the read loop is a move of the same bytes; its regions may overlap in the code.
- `Servers.Defined` says for which requests the code's behaviour is defined: no end iterator or null
  pointer is dereferenced (an account modification of an unknown guid, a message from a non-member) and no
  member counter wraps.

Facts about the code that the exact conditions bring out:

- Adding a current manager to its group duplicates it (`Groups.RepStep`, `Witnesses.DuplicatedLeader`), and a new group whose managers
  are not just its leader gets jobs that disagree with its indexes (`Rosters.EnrollRep`).
- A message of length 56 modulo 64 is padded wrongly by `str_sha256` (`Sha256.PaddedIsPad`).
- Numbers in custom variables do not survive a round trip (`CustomParse.RunRoundTrip`).
- The send limits let exactly 11 and 51 messages through (`Quotas.QuotaRun`), and do nothing for a member who
  is not connected or whom the traversal does not reach (`Quotas.AcceptedIsCounted`, `Quotas.UncountedRun`), such
  as one behind the deleted leader of the public room (`Ghosts.LimitWithoutEffect`).
- A message list that does not fit in the buffer is sent with zero entries for the messages that were skipped,
  and the receiver decodes a wrong list (`MsgListAck.EncodeRoundTripExactly`, `MessageLists.ListReplyRoundTrip`,
  `Witnesses.LostMessage`).
- `global_group_guid` never moves, so every group sent with guid 0 gets guid 2 and takes the place of the one
  before it in `groups_map`; its node stays in `groups` and goes on counting for its leader
  (`GroupLists.ListStep`).
- A modified account loses its joined groups, its owner count comes from the wire, and its new phone is not
  checked; the conditions of `Membership.MemberStep`, `Ownership.OwnerStep` and `Phones.PhoneStep` say when
  that does no harm. Deleting an account needs the leader of each joined group to be a manager still.
- The information broadcast after an account deletion or after adding a group member goes only to the
  requester's own socket, once per connected member (`Broadcasts.DeletionAnswersRequester`,
  `Broadcasts.AdditionAnswersRequester`).
- When the leader of the public room deletes his account he stays listed in it, since demoting him leaves no
  manager for the removal (`Rooms.RoomStep`); from then on a traversal of the ordinary members stops at his
  guid (`Fanouts.VisitsReachable`).
- A manager whose account is deleted stays listed in the groups he joined, as an ordinary member
  (`ServerViews.ServerViewStep`), and a modification of the next guid is neither done nor answered
  (`Profiles.ModificationOfNextIgnored`).
- Logging out or deleting guid 0 erases the session of whichever socket the last failed login used
  (`Sessions.SessionStep`).
- The protocol description gives `SERVER_MSG_TYPE_MAX` as 10000 and the general reply as 20001; the code
  uses 9999 and 20091 (`include/struct_def.h:74-91`), and so does the model.

## Model

| member | source | states |
|---|---|---|
| `Sha256.StrSha256` | source/common.cpp:319-418 | For every message below 2^31 - 128 bytes the buffer, schedule and round loops print the hash of the code's own padded buffer; unless the length is 56 modulo 64 the printed hex digits spell the FIPS 180-4 digest of the message |
| `Sha256.PaddedIsPad` | source/common.cpp:391-399 | The code's padding is the padding of section 5.1.1 of FIPS 180-4 if and only if the length is not 56 modulo 64 (there the length field overwrites the 0x80 byte and a block is missing) |
| `FipsRoots.RoundConstantsAreCubeRoots` | source/common.cpp:325-390 | Every round constant is the first 32 bits of the fractional part of the cube root of its prime, as section 4.2.2 defines it |
| `FipsRoots.InitialValueIsSquareRoots` | source/common.cpp:323-324 | The initial value is made of the square roots of the first eight primes, as section 5.3.3 defines it |
| `Sha256.SwapInvolutive` | source/common.cpp:394-397 | The store position `i + 3 - 2 * (i % 4)` is an involution, so the fill loops permute the buffer |
| `Sha256.StoreLength` | source/common.cpp:398-399 | The two 32-bit stores put the 64-bit big-endian bit length at the end of the swapped buffer and change nothing else |
| `Sha256.LoadSchedule` | source/common.cpp:402-405 | Little-endian loads of the swapped buffer and the extension loop give the 64 words of section 6.2.2 |
| `Sha256.Compress` | source/common.cpp:406-413 | The round loop over eight variables refines the round function of section 6.2.2 and the addition to the hash value |
| `Sha256.PrintSpellsDigest` | source/common.cpp:416 | The eight `%08X` conversions spell the 32 digest bytes, most significant first |
| `Sha256Macros.MaskedShiftIsLogical` | source/common.cpp:310-311 | A masked arithmetic right shift of a signed 32-bit word is the logical shift, for every shift from 1 to 31 |
| `Sha256Macros.MixAgrees` | source/common.cpp:312-313 | The two selection macros are Ch and Maj of section 4.1.2 |
| `Sha256Macros.E0Agrees` | source/common.cpp:314 | `SHA256_E0`, written with masked signed shifts, is the upper-case Sigma 0 of section 4.1.2 |
| `Sha256Macros.E1Agrees` | source/common.cpp:315 | `SHA256_E1` is the upper-case Sigma 1 |
| `Sha256Macros.O0Agrees` | source/common.cpp:316 | `SHA256_O0` is the lower-case sigma 0 |
| `Sha256Macros.O1Agrees` | source/common.cpp:317 | `SHA256_O1` is the lower-case sigma 1 |
| `Packets.FrameRoundTrip` | include/struct_def.h:207-236 | Reading back a framed packet, whatever follows it, yields the same sender, type and payload and consumes exactly the frame |
| `Packets.MsgRoundTrip` | include/struct_def.h:301-348 | Decoding an encoded message, whatever follows it, yields the message and its size, when the length field is the text's length |
| `Packets.MsgToData` | include/struct_def.h:333-348 | The message is written at its place if it fits, and nothing is written otherwise |
| `Wire.FrameLayout` | include/struct_def.h:220-236 | A packet is the sender, the type, the payload's length and the payload, in these widths |
| `Wire.MsgLayout` | include/struct_def.h:333-348 | Where each field of an encoded message lies |
| `Wire.MemberLayout` | include/struct_def.h:168-183 | Where each field of an encoded member lies |
| `Wire.GroupLayout` | source/group_info.cpp:58-89 | Guid, count and leader, then the members' images in list order |
| `Wire.GuidRequests` | include/struct_def.h:359-451 | A payload that is a guid, sent as a deletion, a logout or a request for a group's or a user's information, is read as that request for that guid |
| `Wire.PhoneRequests` | include/struct_def.h:558-660 | A login payload is read as its 16 bytes of phone and 64 of password, a registration check as its phone |
| `Wire.GroupRequests` | include/struct_def.h:452-557 | The payloads that modify or delete a group are read with the group, the operator, the target, the kind and the permission they were written with |
| `Wire.MsgRequests` | include/struct_def.h:301-348 | A message that was encoded is read back and sent under the header's sender; a request for a group's messages is read as such |
| `Wire.CreationRequest` | source/group_info.cpp:13-56 | The image of a group, sent to found one, is read with the group's guid, leader, roster and roles |
| `Wire.CreationDecodes` | source/group_info.cpp:13-33 | A group's payload is taken exactly if as many members follow as it announces, and that is what it consumes |
| `Wire.FixedConsumed` | source/read_thread.cpp:11-108 | A payload of fixed length is consumed up to that length, whatever follows, and refused if it is shorter |
| `Wire.ShortIsRefused` | source/read_thread.cpp:11-108 | A payload that is too short, or of an unknown type below 10000, is answered as unparsable; types from 10000 on are ignored |
| `MsgListAck.ClientMsgListAck.ToData` | include/struct_def.h:892-914 | The bodies are written first and the table filled in afterwards; the result is the encoding, every byte outside it is unchanged, so no list makes it write past `len` |
| `MsgListAck.ClientMsgListAck.MakePkg` | include/struct_def.h:237-247 | The framed list, or nothing when even the table does not fit |
| `MsgListAck.ClientMsgListAck.FromData` | include/struct_def.h:862-885 | The decoding loop computes the decoder function, truncation included |
| `MsgListAck.EncodeRoundTrip` | include/struct_def.h:861-914 | When all messages fit, decoding the encoded list gives exactly the messages in order, and table entry `i` is 19 plus the length of text `i` |
| `MsgListAck.EncodeRoundTripExactly` | include/struct_def.h:861-914 | Exact condition: when the table fits and no message is blank, decoding the encoded list gives the messages back if and only if all bodies fit as well; a skipped message is always read back as a different one |
| `MsgListAck.FramedRoundTrip` | include/struct_def.h:207-247 | When the table fits, decoding the payload found behind the header of the framed list, whatever follows the packet, gives exactly the messages if and only if header, table and all bodies fit in the buffer |
| `MessageLists.ListReplyRoundTrip` | source/read_thread.cpp:630-646 | After any run whose messages came through the decoder, the table of a group's log always fits, and the reply to a request for the group's messages, whatever follows it, decodes to exactly the stored log if and only if the whole log fits in the buffer |
| `Witnesses.LostMessage` | source/read_thread.cpp:630-646 | Six requests from the initial state after which the reply is decoded to a list other than the log: register, log in, and send two messages that fit one by one but not together |
| `MessageLists.QueueStep` | source/read_thread.cpp:604-621 | A message that came in a buffer fits in one when it is sent on: every step keeps this of all queued messages |
| `Groups.LinkedKept` | source/group_info.cpp:116-357 | No operation, whatever its arguments, leaves an index entry that dangles or points to another guid's node |
| `Groups.RepStep` | source/group_info.cpp:116-269 | Exact condition: an operation keeps the representation invariant (distinct guids, exact count, disjoint covering indexes, job says which index) if and only if it is not an accepted addition of a current manager |
| `Witnesses.DuplicatedLeader` | source/read_thread.cpp:447-472 | Two requests from the initial state reach the failing case: the first user registers and adds himself to the public room |
| `Groups.IndexedDistinct` | include/group_info.h:37-43 | Under the invariant no guid occurs twice in the list and the list's guids are exactly the indexes' keys |
| `GroupRuns.RunKeepsRep` | source/group_info.cpp:116-269 | The invariant holds along every run that adds no current manager |
| `GroupRuns.RunKeepsFloor` | source/group_info.cpp:230-269 | No run makes a permission value smaller than 1 or the smallest starting value, whichever is less |
| `GroupRuns.OutsidersCannotTouchManagers` | source/group_info.cpp:152-269 | A run whose operators are neither 0 nor the leader leaves the manager index and every manager's permission unchanged |
| `GroupRuns.SelfDemotionLocksMembers` | source/group_info.cpp:152-228 | A leader who demotes himself can delete no ordinary member at any point of any run in which he is not made a manager again; he can do that himself |
| `GroupRuns.RunKeepsLogCount` | source/group_info.cpp:302-357 | `msg_limit` is always the log's size and at most 100 |
| `GroupRuns.DeletionTakesLatest` | source/group_info.cpp:328-357 | A manager's deletion takes out the latest message with the number and nothing else, a manager's clearing all of them; others change nothing |
| `GroupRuns.LogIsWindow` | source/group_info.cpp:302-326 | From an empty log, any operations that delete no message leave the last min(n, 100) of the n accepted messages, whatever member and role operations come in between |
| `GroupRuns.ArchiveNumbers` | source/group_info.cpp:308-317 | With automatic numbering accepted message `i` gets number `i + 1` modulo 65536, for unbounded runs |
| `GroupRuns.WindowNumbersDistinct` | source/group_info.cpp:302-326 | After such operations, with automatic numbering, the stored numbers are consecutive modulo 65536 and pairwise distinct |
| `GroupRuns.IncreasingStep` | source/group_info.cpp:302-357 | With deletes and clears, an operation keeps the stored numbers increasing if and only if it does not wrap the 16-bit counter |
| `GroupRuns.RunKeepsIncreasing` | source/group_info.cpp:302-357 | Hence they increase along every run until the counter wraps |
| `GroupViews.ViewStep` | source/group_info.cpp:116-269 | Refinement: each operation on list, indexes and nodes that adds no current manager is one operation on a simple view, a map from guids to role and card with the order of entry |
| `GroupViews.ViewRun` | source/group_info.cpp:116-269 | Hence every such run of operations is the run of the simple operations |
| `GroupViews.AllowedTakesEffect` | source/group_info.cpp:230-269 | The leader sets anybody's permission, another manager that of ordinary members, to no less than his own, and then that is the value and the only change |
| `Titles.TitleRun` | source/group_info.cpp:116-228 | No run of operations gives the leader's job to a card that is not the leader's |
| `GroupInfos.GroupInfo.OnAddMember` | source/group_info.cpp:116-150 | The method's new state and result are those of the specified operation, and the links stay sound |
| `GroupInfos.GroupInfo.OnDeleteMember` | source/group_info.cpp:152-180 | The method deletes a manager only for the leader and an ordinary member for any manager; state, count, links and result are those of the specified operation |
| `GroupInfos.GroupInfo.OnAddManager` | source/group_info.cpp:182-204 | The leader moves an ordinary member's node to the managers' index and changes its job; otherwise nothing changes and the result is false |
| `GroupInfos.GroupInfo.OnDeleteManager` | source/group_info.cpp:206-228 | The leader moves a manager's node, his own included, to the members' index and changes its job; otherwise nothing changes and the result is false |
| `GroupInfos.GroupInfo.OnChangePermissions` | source/group_info.cpp:230-269 | Only the addressed node's permission changes, and only if the operator is a manager whose own value is at most the new one and, for a manager, the leader |
| `GroupInfos.GroupInfo.OnAddMsg` | source/group_info.cpp:302-326 | A group message for this group is numbered and appended, the oldest goes beyond 100, and the caller gets the numbered message |
| `GroupInfos.GroupInfo.OnDeleteMsg` | source/group_info.cpp:328-347 | The backward search removes exactly the last message with the number |
| `GroupInfos.GroupInfo.CopyOf` | source/read_thread.cpp:408-410 | A copied group has the same state, its maps pointing into its own list |
| `GroupCodec.GroupRoundTrip` | source/group_info.cpp:13-99 | Under the invariant the encoding has exactly `length()` bytes, and decoding it into a fresh object restores the member sequence, count, leader and manager/member partition from the job bytes |
| `GroupCodec.RebuildLinked` | source/group_info.cpp:38-55 | Whatever bytes arrive, an accepted group has sound links |
| `GroupCodec.RebuildRep` | source/group_info.cpp:38-55 | An accepted group meets the whole invariant if and only if no guid occurs twice among its members |
| `GroupCodec.GroupToData` | source/group_info.cpp:58-89 | The writing loop produces the encoding in place, or nothing when it does not fit |
| `GroupCodec.GroupFromData` | source/group_info.cpp:13-56 | The reading loop computes the decoder function and rebuilds sound links |
| `CustomText.RunExact` | source/custom_data.cpp:108-176 | Every add, overwrite and delete keeps the cached length equal to entries plus separators |
| `CustomText.LengthIsExact` | source/custom_data.cpp:55-106 | After any operations on an empty object the cached length is the size of the printed text, for every traversal order of the maps |
| `CustomText.LastWriteWins` | source/custom_data.cpp:108-176 | After any operations a key holds what the last accepted addition or deletion under it left, strings and numbers independently |
| `CustomParse.TokensAppend` | source/common.cpp:173-182 | Splitting undoes joining with a comma, for all texts |
| `CustomParse.PrintParse` | source/custom_data.cpp:4-73 | Parsing the text of a NUL-free string map into a fresh object gives the same map and length |
| `CustomParse.ParseAcceptsExactly` | source/custom_data.cpp:4-48 | A text is accepted if and only if its tokens come in pairs that begin with a tagged key, and the maps are then those of the pairs in order |
| `CustomParse.RunRoundTrip` | source/custom_data.cpp:4-106 | After any operations, print then parse restores the object if and only if it holds no number and no NUL in a key or string |
| `CustomParse.NumbersAreLost` | source/custom_data.cpp:30-32 | A concrete stored number is printed and not read back |
| `CustomDatas.SplitStr` | source/common.cpp:173-182 | The `strtok` loop computes the nonempty pieces of the C string |
| `CustomDatas.CustomData.AddCustomStr` | source/custom_data.cpp:108-127 | The maps, the cached length and the result are those of the specified operation |
| `CustomDatas.CustomData.AddCustomNum` | source/custom_data.cpp:129-148 | The same for a nonzero number, which takes eight bytes in the text |
| `CustomDatas.CustomData.DeleteCustomStr` | source/custom_data.cpp:150-162 | The string entry and its share of the cached length, its separator included, disappear |
| `CustomDatas.CustomData.DeleteCustomNum` | source/custom_data.cpp:164-176 | The number entry and its share of the cached length, its separator included, disappear |
| `CustomDatas.CustomData.ToData` | source/custom_data.cpp:55-106 | With an exact cached length and room for it, the mismatch branch is never taken: exactly the text is written and its length returned |
| `CustomDatas.CustomData.FromData` | source/custom_data.cpp:4-48 | The parsing loop with its key/value toggle computes the parser function |
| `Users.UserInfo.FromData` | source/user_info.cpp:22-78 | The decoder's fields and returned index, the custom variables' length included |
| `Users.UserInfo.OnJoinGroup` | source/user_info.cpp:223-232 | Joins if not joined, and says so |
| `Users.UserInfo.OnLeaveGroup` | source/user_info.cpp:234-243 | Leaves if joined, and says so |
| `Users.UserInfo.OnCreateGroup` | source/user_info.cpp:295-301 | The counter goes up unless it is above 50 |
| `Users.UserInfo.OnDeleteGroup` | source/user_info.cpp:303-309 | The counter goes down unless it is 0 |
| `NetInfos.NetInfo.constructor` | include/read_thread.h:51-63 | No users, no sessions, and the empty public room |
| `NetInfos.NetInfo.ParseMsg` | source/read_thread.cpp:11-108 | One packet of a modelled type takes the server's objects to the state the handler's specification gives for the decoded request, keeps every list, map and iterator consistent, and returns the header plus what the decoder consumed, or 0 |
| `NetInfos.NetInfo.OnAcountAdd` | source/read_thread.cpp:110-189 | Registration: list and map of users, phone index, counter, public room, broadcast and reply |
| `NetInfos.NetInfo.OnAcountModify` | source/read_thread.cpp:191-235 | Replacement of the list node, re-indexing of the phone, reply |
| `NetInfos.NetInfo.OnAcountDelete` | source/read_thread.cpp:237-305 | Expulsion from joined groups, removal from list, map, phone index, sessions and the public room, broadcast, reply |
| `NetInfos.NetInfo.OnAcountLogin` | source/read_thread.cpp:307-337 | Times and status of the user, both connection maps, reply; guid 0 is bound on failure |
| `NetInfos.NetInfo.OnAcountLogout` | source/read_thread.cpp:339-360 | Status, both connection maps with the insertions `operator[]` makes, reply |
| `NetInfos.NetInfo.OnAcountCanReg` | source/read_thread.cpp:362-371 | The reply carries the result of the uniqueness test |
| `NetInfos.NetInfo.OnGroupAdd` | source/read_thread.cpp:373-414 | The traversal that fills in nodes and joins users, the copy into the list, the owner's counter, reply |
| `NetInfos.NetInfo.OnGroupModify` | source/read_thread.cpp:416-509 | The five kinds of modification with their guards, and the broadcast after an addition |
| `NetInfos.NetInfo.OnGroupDelete` | source/read_thread.cpp:511-546 | Every member reached leaves, the group is erased, the operator's counter goes down |
| `NetInfos.NetInfo.OnMsgSend` | source/read_thread.cpp:604-621 | The message is queued only if the socket is bound to the sender |
| `NetInfos.NetInfo.OnGroupInfoReq` | source/read_thread.cpp:566-582 | The reply is the packet with the group's information, if it fits |
| `NetInfos.NetInfo.OnUserBriefInfoReq` | source/read_thread.cpp:584-602 | The reply carries the user's guid, icon, name and status |
| `NetInfos.NetInfo.OnMsgListReq` | source/read_thread.cpp:623-647 | The reply is the framed list of the group's messages |
| `NetInfos.NetInfo.OnClose` | source/read_thread.cpp:813-824 | The user goes offline and both session entries disappear |
| `NetInfos.NetInfo.BroadcastGroup` | source/read_thread.cpp:165-184 | The group's packet is sent once to each connected member reached, or not at all if it does not fit |
| `NetInfos.NetInfo.Traverse` | source/group_info.cpp:271-300 | Managers then members in guid order, each up to the first unregistered one, with the node each is reached through |
| `NetInfos.NetInfo.DispatchNext` | source/read_thread.cpp:995-1044 | The front message is refused, logged and fanned out, or dropped, and popped |
| `Requests.RequestsAreFromWire` | source/read_thread.cpp:11-108 | Decoded users have joined nothing, decoded groups have no messages, and a message's length field is its text's length |
| `Access.LoginAdmits` | source/read_thread.cpp:307-337 | A login with an indexed phone and the user's password binds exactly that user and the socket to each other, sets both times and the status, and is answered with success and the guid |
| `Access.LoginRefuses` | source/read_thread.cpp:307-337 | Any other login changes no user, ties the socket to guid 0 and nothing else, and is answered once with guid 0 and the reason |
| `Access.BindingStep` | source/read_thread.cpp:330-331 | No request but such a login binds a socket to a real user, or a real user to a socket other than 0 |
| `Access.BoundSocketLoggedIn` | source/read_thread.cpp:307-337 | In every run from the initial state a socket bound to a real user logged in as that user, with the password, and has been bound to nobody else since |
| `Access.DeliverySocketLoggedIn` | source/read_thread.cpp:307-337 | Likewise the socket, other than 0, that a real user's messages are sent to |
| `Access.QueueAfter` | source/read_thread.cpp:604-621 | The queue grows by a message exactly when its header names the user its socket is bound to, and loses its first message exactly at a turn of the dispatch loop |
| `Access.SendAnswered` | source/read_thread.cpp:604-621 | Any other message is refused with one packet and has no effect |
| `Access.QueueIsFifo` | source/read_thread.cpp:604-621 | Over every run the queue holds the messages that entered, in order, without as many of the oldest as the loop has taken |
| `Access.QueuedMessageIsAuthentic` | source/read_thread.cpp:604-621 | Every queued message came from a socket that had logged in as the real user its header named, with the password, and was bound to that user |
| `Profiles.RegistrationInstalls` | source/read_thread.cpp:110-153 | A registration packet with an unused phone installs one user with the icon, name, phone, password hash and times found at their places in the bytes, on line, registered now, indexed by phone, and changes no other user |
| `Profiles.ModificationReplaces` | source/read_thread.cpp:191-235 | A modification packet of a registered guid other than the next replaces the whole record by what lies in the bytes, moves the index entry, changes no other user and is answered with success |
| `Profiles.ModificationOfNextIgnored` | source/read_thread.cpp:191-201 | A modification packet of the next guid changes nothing and is not answered |
| `Profiles.DecodesExactly` | source/user_info.cpp:22-78 | A user's payload is taken if and only if the custom text it announces is there and parses, and then is consumed up to the end of that text |
| `Profiles.LoginNeedsPassword` | source/read_thread.cpp:690-730 | A login packet with an indexed user's phone succeeds, with that user's guid, if and only if the hash of bytes 16 to 80 is the user's password hash |
| `Profiles.ProfileStep` | source/read_thread.cpp:110-546 | No request but one that installs a record for the user changes a guid, icon, name, phone, password or registration time |
| `Profiles.RegisteredLogsIn` | source/read_thread.cpp:690-730 | In runs of good packets, at any time after a registration, a login with its phone succeeds if and only if the text hashes like bytes 184 to 248 of the registration packet, until the account is modified or deleted |
| `Profiles.ModifiedLogsIn` | source/read_thread.cpp:690-730 | The same after a modification, with the phone and the text of that packet |
| `Profiles.OnlyDeletionRemoves` | source/read_thread.cpp:237-305 | An account disappears only by its deletion on the socket bound to it |
| `Profiles.DeletionIsAuthentic` | source/read_thread.cpp:237-305 | So only a socket that logged in as the real user, with the password, deletes the account |
| `Presence.PresenceStep` | source/read_thread.cpp:307-360 | What every request makes of a user's status and times: a proven login sets them, logging out or losing the connection takes the user off line, nothing else but a new record matters |
| `Presence.OffLineUntilLogin` | source/read_thread.cpp:813-824 | A user who logged out or whose connection closed is off line until the next proven login, whatever else happens to the record short of being replaced or deleted |
| `Presence.OnLineUntilLeaving` | source/read_thread.cpp:316-328 | A user who logged in is on line until leaving |
| `Presence.ActivityAfterDispatch` | source/user_info.cpp:245-254 | A delivered message sets the time of its group for the members reached who have joined it, and no other time |
| `Presence.ActivityAfterCreate` | source/user_info.cpp:223-232 | A new group is joined, now, by the registered members reached; who had joined the guid keeps the old time |
| `Presence.ActivityAfterModify` | source/read_thread.cpp:447-482 | An accepted addition or removal changes the target's joined groups and nobody else's |
| `Presence.ActivityAfterErase` | source/read_thread.cpp:533-541 | A deleted group is left by exactly the members reached |
| `Answers.CanRegisterAnswered` | source/read_thread.cpp:362-371 | The answer says whether the phone is indexed, and nothing changes |
| `Answers.RegistrationRefused` | source/read_thread.cpp:110-125 | A registration under an indexed phone is answered with guid 0 and has no effect |
| `Answers.DeletionRefused` | source/read_thread.cpp:237-248 | Deleting another account than the socket's own is refused and leaves only the inserted map entry |
| `Answers.DeletionAccepted` | source/read_thread.cpp:249-304 | A deleted account is gone from the users and the index, nobody else is touched, and success is the last packet |
| `Answers.DeletionUnbinds` | source/read_thread.cpp:279-280 | The sessions a deletion erases, when the user has no socket too |
| `Answers.LogoutRefused` | source/read_thread.cpp:339-350 | Logging out another user than the socket's own is refused and leaves only the inserted map entry |
| `Answers.LogoutAccepted` | source/read_thread.cpp:351-359 | The whole effect of logging out, when the user has no socket too |
| `Answers.CreationAnswered` | source/read_thread.cpp:373-414 | The code of each refusal to found a group, which has no effect, and success exactly when the group is there |
| `Answers.ModificationRefused` | source/read_thread.cpp:416-446 | The code of each refused modification, in the order of the tests, and that it has no effect |
| `Answers.ModificationAnswered` | source/read_thread.cpp:446-509 | Every other modification is answered with success last, and with nothing else unless it adds a member |
| `Answers.ErasureAnswered` | source/read_thread.cpp:511-546 | The code of each refused deletion of a group, which has no effect, and success exactly when the group is gone |
| `Answers.MissingAnswered` | source/read_thread.cpp:566-647 | How requests about a group or user that is not there are answered |
| `Answers.UnparsedAnswered` | source/read_thread.cpp:96-107 | A packet that cannot be parsed gets one error and has no effect |
| `Answers.InfoAnswered` | source/read_thread.cpp:566-582 | A group's information is one packet with its image, or none if that does not fit |
| `Answers.BriefAnswered` | source/read_thread.cpp:584-602 | The brief information is guid, icon, name and status, in this layout |
| `Answers.TurnRefuses` | source/read_thread.cpp:1000-1017 | A message to a group that is gone is dropped; one that the sender's permission or used-up limit forbids is answered to the sender's socket with the limit error; neither has another effect |
| `Answers.TurnStores` | source/group_info.cpp:302-326 | Any other message is stored last in the group's log with its number or the next one, and the oldest of more than 100 goes |
| `Ranges.RequestsAreRanged` | source/read_thread.cpp:11-108 | Whatever bytes arrive, the identifiers a request brings are in the range of their types, and no group guid is 0 |
| `Ranges.InfoPacketConveys` | source/group_info.cpp:13-99 | A receiver of an information packet consumes exactly the packet and decodes the group's guid, count, leader, member sequence and roles |
| `Ranges.InfoReplyRoundTrip` | source/read_thread.cpp:566-582 | After any run of decoded requests that keeps the groups represented, the reply to a request for a group's information decodes to the group |
| `ServerRuns.SaneStep` | source/read_thread.cpp:110-665 | Every request for which the code's behaviour is defined keeps all groups soundly linked, their logs counted, and every record under its own guid |
| `Sessions.SessionStep` | source/read_thread.cpp:243-357 | Exact condition under which a step keeps `user_conn_map` and `conn_user_map` inverse on nonzero guids, default insertions included |
| `Sessions.SessionRun` | source/read_thread.cpp:243-357 | They stay inverse along every run of such steps |
| `Sessions.SessionInjective` | source/read_thread.cpp:330-331 | Then no two sockets share a user and no two users a socket |
| `Phones.PhoneStep` | source/read_thread.cpp:110-277 | Exact condition under which a step keeps the phone index equal to a scan of the users |
| `Phones.PhoneRun` | source/read_thread.cpp:110-277 | The index stays right along every run of such steps |
| `Phones.PhoneUniqueIsScan` | source/read_thread.cpp:732-763 | Then `on_phone_unique` accepts exactly when no registered user's phone has the hash |
| `Phones.LoginIsScan` | source/read_thread.cpp:690-730 | Then at most one user's phone has the hash, `on_login` answers for that user, and never reports a missing user |
| `Membership.MemberStep` | source/read_thread.cpp:191-546 | Exact condition under which a step keeps two facts together, outside the public room: users' joined groups agree with groups' member indexes, and only registered users are listed |
| `Membership.MemberRun` | source/read_thread.cpp:191-546 | Both facts hold along every run of such steps |
| `Ownership.AllocStep` | source/read_thread.cpp:110-136 | Exact condition under which every registered guid stays at most `global_user_guid` |
| `Ownership.FreshGuid` | source/user_info.cpp:29-31 | In such runs a registration under the next guid, as a zero guid on the wire asks for, gets one larger than any registered at any earlier point, deleted users included |
| `Ownership.OwnerStep` | source/read_thread.cpp:373-546 | Exact condition under which each user's `owner_groups` stays the number of groups of the map it leads, and at most 50; a group whose guid a new one takes leaves the map, though not the list |
| `Ownership.OwnerRun` | include/user_info.h:76 | Counts of the map's groups stay exact and at most 50 along every run of such steps |
| `Ownership.CapStep` | source/read_thread.cpp:373-414 | Exact condition under which no `owner_groups` exceeds 50: only the counts that registrations and modifications bring matter, and no guid of a group does |
| `Ownership.CapRun` | include/user_info.h:76 | So no user owns more than 50 groups in any run of requests, group creations under any guid among them, whose wire counts are within 50 |
| `GroupLists.ListStep` | source/read_thread.cpp:373-546 | Exact condition under which each user's `owner_groups` stays the number of nodes in the list `groups` that it leads, displaced nodes included, the public room excluded; and every step keeps the map's groups the last nodes of their guids |
| `GroupLists.ListConservation` | source/read_thread.cpp:373-546 | From the initial state the counts are the numbers of list nodes, and at most 50, along every run whose wire counts are right, that never founds the public room anew and in which nobody who owns a group deletes it |
| `Rosters.EnrollRep` | source/read_thread.cpp:389-406 | Exact condition on the roles a new group was sent with under which the jobs it is given agree with its indexes |
| `Rosters.ModifyIsOp` | source/read_thread.cpp:446-506 | The server's group modifications are exactly the group's own operations |
| `Rosters.RosterStep` | source/read_thread.cpp:110-546 | Exact condition under which a step keeps the representation invariant of every group, public room included |
| `Rosters.RosterRun` | source/read_thread.cpp:110-546 | The invariant of every group holds along every run of such steps |
| `ServerViews.ServerViewStep` | source/read_thread.cpp:110-546 | Refinement for every request and every group: the view of a group after a request that does not found it anew is a simple function of the view before |
| `ServerViews.NoNewGroups` | source/read_thread.cpp:373-546 | Only founding adds a group and only deleting one removes it |
| `Enrolment.FoundedCards` | source/read_thread.cpp:389-406 | A founded group, card by card: a member reached gets his registered icon and name, a fresh count, permission and title, the others keep what was sent; guid, leader, order and roles are the packet's |
| `Titles.TitlesStep` | source/read_thread.cpp:110-546 | Exact condition under which a request gives the leader's job to nobody but leaders: on a first registration and on the unreached cards of a new group |
| `Titles.TitlesRun` | source/read_thread.cpp:110-546 | So no card but the leader's shows the leader's job along runs of such requests |
| `Titles.PacketShowsRoll` | source/group_info.cpp:13-99 | A receiver of the information packet sees the leader, the order, the roles and the cards the group has |
| `Titles.PromotionIsShown` | source/group_info.cpp:182-204 | After an accepted promotion the packet shows the promoted member with a manager's role and job and everybody else as before |
| `Authority.PermissionStep` | source/group_info.cpp:230-269 | Exact condition under which a request leaves no permission of any group below a floor of at most 1: a new group must not bring a smaller one for a node the traversal does not reach |
| `Authority.PermissionRun` | source/group_info.cpp:230-269 | So no run of such requests lowers any permission of any group below the floor |
| `Authority.OthersCannotTouchManagers` | source/read_thread.cpp:110-546 | In server runs a group's leader, its managers and their permissions stay what they are, unless the leader modifies or deletes the group, a manager's account is deleted, the group is founded anew, or, in the public room, the first user or the leader himself is registered |
| `PlainRuns.ConsistentStep` | source/read_thread.cpp:110-546 | All the invariants together are kept by requests that meet simple conditions on the request and the current state, real registrations, modifications, deletions and group creations among them |
| `PlainRuns.ConsistentRun` | source/read_thread.cpp:110-546 | They hold along every such run from the initial state |
| `PacketRuns.PacketIsPlain` | source/read_thread.cpp:11-108 | A packet whose bytes meet conditions that can be read off them and the current state asks for a request that meets those conditions, and on which the code's behaviour is defined |
| `PacketRuns.PacketsKeepConsistency` | source/read_thread.cpp:11-108 | Every run of such packets from the initial state, with connections closing and the dispatch loop turning in between, keeps all the invariants |
| `PacketRuns.RegistrationLands` | source/read_thread.cpp:110-189 | In such a run a registration packet with an unused phone adds exactly the user with the next guid, with that phone, and lists it in the public room |
| `PacketRuns.FirstRegistration` | source/read_thread.cpp:110-189 | From the initial state a registration packet whose payload is 260 zero bytes is such a packet and leaves exactly one registered user |
| `Rooms.RoomStep` | source/read_thread.cpp:237-303 | Exact condition under which a step keeps every listed member of the public room registered; in particular, the account of the room's leader must not be deleted |
| `Rooms.RoomRun` | source/read_thread.cpp:110-546 | They stay registered along every run of such steps |
| `PlainRuns.NewcomerIsNew` | source/read_thread.cpp:113-136 | In such states a registration under the next guid gets one that no user, group or count knows |
| `Fanouts.VisitsReachable` | source/group_info.cpp:271-300 | A traversal whose callback refuses unregistered members visits exactly the members with no unregistered guid up to theirs in the same index, each once; with all members registered, that is all of them |
| `Fanouts.VisitsInOrder` | source/group_info.cpp:271-300 | Managers come first and then ordinary members, each by guid |
| `Fanouts.ExactFanout` | source/read_thread.cpp:1018-1042 | In every soundly linked group an accepted message that fits is sent to each connected member once for each index that reaches it and to nobody else, and the only group changes are the log and the counts of the sender's reached nodes, by one each |
| `Broadcasts.RegistrationReachesRoom` | source/read_thread.cpp:164-188 | A registration sends the room's information once to each connected member within reach, to every connected member if all were registered, then the reply, and nothing else |
| `Broadcasts.DeletionAnswersRequester` | source/read_thread.cpp:281-304 | A successful account deletion sends the room's information once per connected member within reach and the reply, all to the requester's own socket and nothing to any other; no invariant is needed, except that a member in both indexes counts twice |
| `Broadcasts.AdditionAnswersRequester` | source/read_thread.cpp:447-472 | So does every accepted addition to a group, that of a current manager included, with the group's information |
| `PlainRuns.DispatchReachesMembers` | source/read_thread.cpp:1000-1042 | In every consistent state dispatch sends such a message once to each connected member within reach and sends nothing else; that is every connected member, in the public room provided its members are registered |
| `PacketRuns.PacketDispatch` | source/read_thread.cpp:995-1042 | After any run of such packets from the initial state the front message, if its sender is not at the limit, always fits and goes once to each connected member within reach and to nobody else |
| `Quotas.QuotaRun` | source/read_thread.cpp:1006-1039 | In runs of any requests, while a member stays limited, whatever roles it and the others have, its counter goes up by exactly the messages accepted from it, and of the messages it sends the first limit + 1 minus the starting count are accepted and no more (11 and 51, not 10 and 50), provided its accepted messages are counted and a new group in the group's place reaches it |
| `Quotas.AcceptedIsCounted` | source/read_thread.cpp:1006-1039 | Exact condition, in every group: an accepted message moves the sender's counter if and only if the sender is connected, the traversal reaches the entry its limit is read from, and the packet fits |
| `Quotas.UncountedRun` | source/read_thread.cpp:1006-1039 | While a limited member's messages are not counted, all of them are accepted, however many, and its counter stays where it is |
| `Ghosts.LeaderDeletionHides` | source/read_thread.cpp:237-305 | Whenever a member leader of the public room deletes his account, manager or demoted, every limited ordinary member with a larger guid keeps its limit and its count and its entry is out of the traversal's reach |
| `Ghosts.LimitWithoutEffect` | source/read_thread.cpp:237-305 | Five requests, from the initial state, that lead to a limited member of the public room that the traversal does not reach, so that its messages are not counted: it stands behind the leader who deleted his account |
| `PacketRuns.PacketQuota` | source/read_thread.cpp:1006-1039 | The same for runs of packets, where every message fits: it is enough that the member is connected and within reach of the traversal when its messages are accepted |
| `Receive.ConsumedBounds` | source/read_thread.cpp:11-108 | No parser consumes more than its payload, and what it consumes does not depend on the server's state |
| `ReadThreads.ReadThread.OnReadable` | source/read_thread.cpp:895-953 | One read on the server's own objects: the loop terminates with `nread` strictly decreasing, calls `parse_msg` for each packet, and leaves the server, the buffer and `buf_index` of the specified turns |
| `ReadThreads.ReadFeedsServer` | source/read_thread.cpp:895-953 | The bytes of one read are a run of packets on the server: each parsed frame is one input with that header and that payload, each fits in the buffer, and the loop's turns are those of the server's actual answers |
| `ReadThreads.ReadKeepsConsistency` | source/read_thread.cpp:895-953 | If the packets found in what was read meet the conditions on packets, one read keeps all the invariants of the server |
| `Receive.IndexBelowSize` | source/read_thread.cpp:895-953 | After any read, `read_index + nread` is the bytes just read until an error reset, and `buf_index` is below the buffer size |
| `Receive.AllReadsBelowSize` | source/read_thread.cpp:895-953 | For every sequence of reads `buf_index` is below the buffer size at each of them |
| `Receive.FramesFollow` | source/read_thread.cpp:911-927 | Every packet of a read is taken with the header at the start of the buffer, and begins where the one before ended for its parser |
| `Receive.OnePacketRead` | source/read_thread.cpp:895-953 | A read of one whole packet into an empty buffer parses that packet and leaves nothing |
| `Receive.IncompleteRead` | source/read_thread.cpp:929-942 | A read of an incomplete packet into an empty buffer waits for more if the sender is known and drops the bytes otherwise |
| `Receive.UnreadInFront` | source/read_thread.cpp:943-952 | The unread bytes are at the front afterwards, and exact condition under which the next read goes right behind them |
| `Receive.NextReadContinues` | source/read_thread.cpp:943-952 | After a read into an empty buffer without a reset the next one continues the stream: what was not parsed, then the new bytes |

## Left out

- Private and broadcast dispatch (`source/read_thread.cpp:1045-1102`) and the message log of `UserInfo`, and with them requests for private message lists: one branch continues without popping and another pops inside its recipient loop, so no useful claim about runs holds.
- Replies to requests for a user's whole profile; only what their decoder consumes is modelled.
- Friends: the map is never filled, so the loop over it in account deletion does nothing.
- Profile fields no handler reads (age, sex, contact fields) and `UserInfo::to_data`.
- Sockets, epoll, pipes, threads, signals, logging, configuration, HTTP, file-system and time-formatting helpers.
- Destructors, memory reclamation, and failing allocations.
- The big-endian branch of `memcpy_u` and the phone tree, which is compiled out.
- Null arguments, such as a null name passed to `on_add_member`.
- The list node of a group whose guid is already in `groups_map` stays in `groups`, unreachable; the class keeps it, the state on values does not, and `GroupLists` follows its guid and leader along a run.
- Messages and member records are values stored in their lists; sharing of one message object between the queue and a log through `shared_ptr` is not modelled.
- The contents of bytes behind the end of a short string in `custom_get_num`, which are an arbitrary parameter.
- NetInfos.NetInfo.ParseMsg: excludes requests for a user's whole profile and private message lists, which are not modelled, and requests on which the code dereferences an end iterator or lets a member counter wrap.
- NetInfos.NetInfo.OnAcountModify: excludes an unknown nonzero guid that is not the next one, on which the code dereferences a null iterator.
- GroupInfos.GroupInfo.CopyOf: the code's copied maps keep iterators into the list of the copied object, which is then destroyed; the model's copy has maps that point into its own list.
- Users.UserInfo.FromData: keeps neither age, sex and contact fields nor the parsed custom variables, which no modelled handler reads; that the custom text parses, and how long it is, does decide the result.
- NetInfos.NetInfo.OnMsgListReq: excludes requests for private message lists.
- NetInfos.NetInfo.DispatchNext: covers group messages whose sender is a member, the others being the branches left out or a null dereference.
- ReadThreads.ReadFeedsServer: speaks of reads whose packets `NetInfos.NetInfo.ParseMsg` takes.
- ReadThreads.ReadThread.OnReadable: takes packets that `NetInfos.NetInfo.ParseMsg` takes, and does not say how framing depends on the way the bytes are split over reads; the loop reads the first header for every frame and one buffer serves all sockets.
