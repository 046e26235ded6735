# sms-irc: a model and its proofs

sms-irc bridges SMS and WhatsApp to IRC. This project models the bookkeeping that has to agree with
the database, with what IRC has been told, and with itself, over runs of any length, and proves that
it does. All tasks of the program share one event loop, so each handler is one atomic step.

Every component comes in two forms. Step functions say what a handler does to a state; lemmas about
them carry the properties. Where the program updates an object in place, a class with the same fields
and loops is proved to do what the step functions say. What the outside world decides (the order of
hash tables and queries, clocks, generated ids, answers of a sink) comes in as a parameter.

| part | files |
|---|---|
| InspIRCd link (`insp_s2s.rs`, `contact_common.rs`) | `LinkModel`, `LinkInvariant`, `LinkSteps`, `LinkPass`, `LinkRuns`, `LinkPolls`, `LinkModes`, `LinkEffects`, `InspLink`, `Peer`, `Nicks`, `Decimal` |
| Delivery of stored messages (`sender_common.rs`) | `Delivery`, `DeliveryProofs`, `DeliveredTexts`, `Fragments`, `Reassembly` |
| A contact with its own connection (`contact.rs`) | `ContactModel`, `ContactProofs`, `ContactEffects`, `ContactManager` |
| Contact factory (`contact_factory.rs`) | `FactoryModel`, `FactoryProofs`, `FactoryEffects`, `ContactFactory` |
| WhatsApp (`whatsapp.rs`, `whatsapp_ack.rs`) | `WaModel`, `WaConservation`, `WaSending`, `WaGroups`, `WaIncoming`, `WaRuns`, `WaTracker`, `WaManager` |
| Algorithms (`util.rs`) | `Address`, `Outbox` |
| Shared datatypes | `Outcomes`, `Failures` |

A step that fails carries the state it leaves, since the database outlives the task; the invariants are
proved of that state as well, and every run goes on from it with a new task. The history of a link or
contact holds the lines it says and the message rows it deletes, in order.

`dafny verify dfyconfig.toml` checks everything.

## What is assumed

* The IRC peer does not touch the UUIDs we issue, except by KILL and QUIT, and a SQUIT names another
  server by a SID of the length of ours. Internal commands are read once the link is up.
* Rows satisfy the constraints of their tables; the `csms_data` column of a part is the reference in its
  header, as `src/modem.rs:336-354` stores it. The ids of recipients and the channels of groups are unique
  (`migrations/20180621140749_initial/up.sql:2`, `migrations/20180729152102_whatsapp/up.sql:4`).
* Generated WhatsApp ids are new; the server acknowledges only ids that were transmitted; only media
  downloads that were started finish.

## Where the code does less than one might expect

Each of these is proved, with the exact condition.

* The line splitter does not always send the end of a line (`Fragments.SplitExact`): an ASCII line of
  351 bytes loses its last one, 348 ASCII bytes and a four-byte character are not sent at all.
* A SQUIT of our own SID would break the registry (`LinkRuns.SquitExact`, `SquitOfOurselves`).
* A stored number that does not read back, which is one that is empty or has an unknown type byte
  (`Address.ReadsExactly`), ends the task on every pass, and a PDU of a recipient that does not parse would
  do the same. Where and why a pass stops is a function of the state before it: `LinkPass.StopIndex` and
  `PassCause` in `MessagesExact`, and `LinkRuns.PassFails` without mention of any order. The rows before are
  gone by then, each after its lines were put in the outbox (`LinkPass.RemovedAfterLines`).
* But `poll` returns on a failure before it flushes that outbox, so those texts never reach the peer:
  `LinkPolls.LostExactly` for a pass in a poll of its own, `PollExact` for polls of any number of events.
* A burst fails exactly when a recipient row does not read back or the recipients without a ghost are more
  than the UUIDs left (`LinkRuns.QuasiBurstKeeps`).
* `process_groups` fails exactly when a group has a member that does not read back, after the channels are
  done (`LinkRuns.GroupsExact`). A retry of the contact factory that fails forgets the failed contacts from
  the first one that does not read back on, save those that have a contact (`FactoryProofs.RetryExact`).
* A media download that ends after its group was removed ends the WhatsApp task
  (`WaIncoming.MediaKeeps`).
* Metadata for a group that is not bridged, and can not be bridged on the spot, ends the WhatsApp task
  (`WaGroups.MetadataExact`).
* With `mark_read` on, a message announced as new is stored again on replay
  (`WaIncoming.ReplayStoredExactly`).
* Dropping a contact that is still starting does not stop it (`FactoryProofs.LeavesExactly`).
* A contact leaves the common channel if a group was bridged to it and is removed
  (`ContactProofs.HomeKept`).
* A sink that refuses one message and takes the next reorders its outbox (`Outbox.InOrderExactly`).

## Model

| member | source | states |
|---|---|---|
| Decimal.RenderInjective | src/insp_s2s.rs:359-363 | distinct suffixes render to distinct decimal strings |
| Decimal.PadInjective | src/insp_s2s.rs:720-720 | `{:05}` renders distinct numbers below 100000 differently |
| Decimal.RenderValue | src/insp_s2s.rs:359-363 | `{}` renders a number as its decimal notation, without a leading zero |
| Decimal.PadValue | src/insp_s2s.rs:720-720 | `{:05}` renders a number below 100000 as its decimal notation |
| Nicks.FirstFree | src/insp_s2s.rs:355-371 | the collision search ends, at an index whose nick is free while every earlier one is taken |
| Nicks.SuffixBound | src/insp_s2s.rs:355-371 | a taken nick gets the least free decimal suffix, smaller than the number of names in use (pigeonhole) |
| Address.RoundTrip | src/util.rs:45-63 | `un_normalize_address(normalize_address(a)) == Some(a)` if and only if the number is not empty and the type byte reads back; otherwise `None` |
| Address.NormalizeInjective | src/util.rs:45-50 | distinct addresses have distinct database keys |
| Address.NormalizeExact | src/util.rs:45-50 | the key of an address is the upper-case hexadecimal notation of its type byte and of each byte of its number, in order |
| Address.FoundByKey | src/store.rs:259-268 | looking a row up by the key of an address finds the row of that address and no other, and its number reads back as that address or not at all |
| Address.ReadsExactly | src/models.rs:30-34 | a stored number reads back if and only if it is not empty and its type byte is one the library accepts |
| Fragments.SplitLine | src/sender_common.rs:39-58 | the scan sends exactly the fragments `Sent(line)` names, for any character widths |
| Fragments.SplitExact | src/sender_common.rs:39-58 | chunks are non-empty, at most 353 bytes (350 for ASCII), concatenate to a prefix of the line, and to the whole line if and only if `Flushed(line)`; otherwise exactly the remainder after the last cut is lost |
| Fragments.RemainderShape | src/sender_common.rs:39-49 | what a lossy line loses is its last character alone, or a fragment of 351 to 353 bytes whose last character straddles the limit |
| Fragments.AsciiExact | src/sender_common.rs:12-49 | an ASCII line is sent whole if and only if its length is at most 350 or not 1 modulo 350 |
| Fragments.NothingSent | src/sender_common.rs:39-49 | 348 ASCII characters and one four-byte character: nothing is sent |
| Fragments.SplitAndFlush | src/sender_common.rs:39-58 | the same scan with a final flush loses nothing on any line, with chunks of at most 353 bytes |
| Reassembly.Sort | src/sender_common.rs:107-107 | the sort by sequence number is a sorted rearrangement |
| Reassembly.SortIsStable | src/sender_common.rs:107-107 | parts with equal sequence numbers keep the order of the rows |
| Reassembly.OrderIrrelevant | src/sender_common.rs:95-110 | with distinct sequence numbers the text does not depend on the order of the rows |
| Reassembly.RestoresText | src/sender_common.rs:95-110 | the parts 1..n of a split text, in any order, give the text back |
| Reassembly.DuplicatesDependOnOrder | src/sender_common.rs:107-110 | with equal sequence numbers the order of the rows shows in the text |
| DeliveredTexts.TextIndependent | src/store.rs:350-358 | with distinct sequence numbers the text of a concatenated message is the same in whatever order the database returns its rows, and at whatever time |
| DeliveredTexts.TextRestored | src/sender_common.rs:95-110 | a message whose rows are the numbered parts of a text, in any order of the rows, is delivered as that text |
| DeliveredTexts.SendRestored | src/sender_common.rs:88-117 | so each send a delivery pass makes for such a message says exactly that text, for exactly those rows |
| DeliveredTexts.StampPlaced | src/sender_common.rs:73-86 | a WhatsApp text that is no action is said as the stamp followed by the text; an action is said as its prefix, the stamp and the rest, so it stays an action and its own text ends the line |
| DeliveredTexts.PlainSent | src/sender_common.rs:64-129 | so each send of a pass for a WhatsApp message says exactly that, for that row alone, and one for an SMS in one part says its text as it is |
| DeliveryProofs.HandleNext | src/sender_common.rs:88-128 | one row of a stale snapshot, after any number of others were handled: a message is sent whole or not at all, and what is deleted are exactly its rows, all still there |
| DeliveryProofs.CoveredPassExact | src/store.rs:340-358 | what `PassExact` says of a pass, stopped or not, for any rows of the table; and when these hold all rows of the known addresses, a pass not stopped leaves exactly the rows that must stay |
| DeliveryProofs.PassExact | src/sender_common.rs:64-129 | a pass over a snapshot stops exactly at its first row whose address does not read back or whose PDU is of a known address and does not parse, before doing anything about it; stopped or not, the rows gone are exactly those the rows before take, each deleted once and after the one send that covers it, each send the text of one complete message; not stopped, the rows left are exactly those that must stay |
| DeliveryProofs.TakenUnlessStays | src/sender_common.rs:88-94 | a row is delivered if and only if it is not without contact, unreadable, or part of an incomplete message |
| DeliveryProofs.RemoveListed | src/store.rs:382-392 | deleting distinct rows that are there never meets the zero-rows error, removes exactly them, and does nothing else |
| Peer.ReplaySwitch | src/insp_s2s.rs:580-605 | joining the wanted channels and parting the dropped ones leaves the peer with exactly the wanted ones |
| LinkInvariant.UuidDistinct | src/insp_s2s.rs:716-723 | distinct counters give distinct UUIDs |
| LinkInvariant.UuidShape | src/insp_s2s.rs:716-723 | an issued UUID has the SID in front, six more characters, and is not the control UUID |
| LinkInvariant.NextIsNew | src/insp_s2s.rs:716-723 | the next UUID was never issued before, and no known user has it |
| LinkInvariant.IntroduceKeeps | src/insp_s2s.rs:107-114 | introducing a ghost under a free nick keeps the whole invariant |
| LinkInvariant.ForgetKeeps | src/insp_s2s.rs:372-382 | forgetting a user keeps the maps mutual inverses and the peer in agreement |
| LinkInvariant.GroupsKeep | src/insp_s2s.rs:580-605 | `process_groups_for_recipient` succeeds for every contact and keeps the invariant, the peer included |
| LinkInvariant.RenameKeeps | src/insp_s2s.rs:164-174 | a rename keeps nicks distinct, and the user, the peer and the database in agreement |
| LinkInvariant.ModeKeeps | src/insp_s2s.rs:330-343 | `set_wa_state` keeps mode, stored flag and displayed hostname in agreement |
| LinkInvariant.BurstKeeps | src/insp_s2s.rs:791-803 | the burst introduces the control user without touching any ghost |
| LinkSteps.SetupKeeps | src/insp_s2s.rs:97-119 | setting up a contact fails exactly when it needs a UUID and they are exhausted; otherwise the contact is there under the next UUID, with the stored mode; no other contact changes and the invariant holds, failed or not |
| LinkSteps.SetupRecipientKeeps | src/contact_common.rs:21-30 | `setup_recipient` fails exactly when the row does not read back, or needs a UUID when there is none; either way the state it leaves has the invariant |
| LinkSteps.RequestKeeps | src/contact_common.rs:59-81 | `request_contact` makes the contact if there is a recipient and asks the right task otherwise; it fails exactly when the row does not read back or no UUID is left, and leaves the invariant |
| LinkSteps.GoneKeeps | src/insp_s2s.rs:466-473 | KILL or QUIT of any user keeps the set of contact addresses; a ghost gets a UUID never used before; it fails exactly for a ghost when UUIDs are exhausted, and then that contact alone is gone |
| LinkSteps.DropKeeps | src/contact_common.rs:82-87 | `drop_contact` fails exactly when there is no recipient row, and otherwise removes contact, ghost and row |
| LinkSteps.ForwardKeeps | src/insp_s2s.rs:146-187 | a forwarded command never fails (no `unwrap` does) and keeps the invariant; what it does is in `LinkEffects.AwayExact`, `NickExact` and `ModeExact` |
| LinkSteps.ProcessGroupsKeep | src/insp_s2s.rs:606-637 | `process_groups` fails exactly when a group has a member whose row does not read back; failed or not it changes only channels and keeps the invariant |
| LinkSteps.ContactMessagesKeep | src/insp_s2s.rs:638-647 | `contact_message` for a contact takes neither error return |
| LinkSteps.SwitchKeeps | src/insp_s2s.rs:754-766 | the automatic mode switch succeeds for every contact and keeps the invariant |
| LinkSteps.SendRawKeeps | src/sender_common.rs:26-63 | while the target group is there, sending from a ghost never fails, only talks, and keeps the invariant |
| LinkPass.RowKeeps | src/insp_s2s.rs:742-769 | one turn of the delivery loop fails exactly when and why the contacts and the counter before it tell; a failing turn deletes nothing; otherwise the table is again the original one less what was taken |
| LinkPass.MessagesKeep | src/insp_s2s.rs:732-771 | a delivery pass keeps the invariant, stopped or not, and fails, if the admin is there, exactly when and why `PassCause` of the state before tells |
| LinkPass.MessagesExact | src/insp_s2s.rs:732-771 | a pass stops exactly at the row, and for the reason, that the addresses with a contact and the counter before it tell; stopped or not, the PRIVMSG lines and the deletions, in order, are those of its deeds, each text one complete message, each row deleted once and after its text; the rows gone are exactly those the rows before the stop take, those left after a whole pass exactly those that must stay; modes follow the messages handled, with one notice for each alternation |
| LinkPass.RemovedAfterLines | src/sender_common.rs:84-117 | in the history of a pass every deletion of a row is preceded by all PRIVMSG lines of the send that covers the row |
| LinkPass.KindsStep | src/insp_s2s.rs:754-766 | following the messages one by one gives the kind of the last one and counts the alternations |
| LinkRuns.SquitKeeps | src/insp_s2s.rs:483-496 | a split of another server keeps the invariant |
| LinkRuns.SquitExact | src/insp_s2s.rs:483-491 | a split keeps the registry if and only if its id is a prefix of no ghost UUID |
| LinkRuns.SquitOfOurselves | src/insp_s2s.rs:483-491 | a split of our own SID breaks the registry as soon as there is a ghost |
| LinkRuns.SetupEachKeeps | src/insp_s2s.rs:804-811 | the rows of the snapshot stay current while contacts are renamed; every listed recipient gets a contact, or the burst stops where and why the state before tells; the invariant holds either way |
| LinkRuns.BurstExactly | src/insp_s2s.rs:804-811 | setting up listed recipients stops, in whatever order, if and only if a listed row does not read back or those without a contact are more than the UUIDs left |
| LinkRuns.QuasiBurstKeeps | src/insp_s2s.rs:804-811 | afterwards the contacts are exactly the recipients; it fails if and only if a recipient row does not read back or the recipients without a contact are more than the UUIDs left |
| LinkRuns.PassExactly | src/insp_s2s.rs:742-769 | a pass is stopped, in whatever order its rows come, if and only if some row stops any pass or the recipients with messages and no contact are more than the UUIDs left |
| LinkRuns.PassFails | src/insp_s2s.rs:732-771 | so `process_messages` fails if and only if, with the admin there, one of these two holds of the tables before |
| LinkRuns.EndBurstKeeps | src/insp_s2s.rs:543-549 | ENDBURST of the remote server leaves a ghost for every recipient, or fails, keeping the invariant: if and only if a recipient row does not read back, the UUIDs left do not suffice, or the admin is there and some message row stops any pass |
| LinkRuns.StepKeeps | src/insp_s2s.rs:391-672 | every event, failed or not, leaves a state with the invariant; it fails exactly when and why the state before tells: an ERROR line, a rejected SERVER or UID line, too few UUIDs, an unparsable PDU, a row that does not read back, or dropping an address without a row; no `unwrap`, no double deletion, no error return of `contact_message` |
| LinkRuns.RunKeeps | src/insp_s2s.rs:65-92 | the invariant holds in every state of every run, including failed steps and new links on the database they leave |
| LinkRuns.UuidsNeverReused | src/insp_s2s.rs:716-731 | all UUIDs introduced over a run are distinct, of one length, ours, not the control UUID, and at most 99999 |
| LinkRuns.ResolveExact | src/insp_s2s.rs:136-145 | `resolve_nick` of a ghost's nick is that ghost's address in any hash order; an answer always is a contact of that nick |
| LinkRuns.AdminIsNoGhost | src/insp_s2s.rs:572-579 | `admin_uuid` never selects a ghost |
| LinkRuns.CollisionBound | src/insp_s2s.rs:344-371 | the suffix is the least free one and at most the number of known users |
| LinkRuns.GroupsForExact | src/insp_s2s.rs:580-605 | a ghost is put in the log channel and exactly the channels of its groups |
| LinkRuns.GroupsExact | src/insp_s2s.rs:606-637 | after `process_groups`, even one that fails, each ghost is, here and at the peer, in the log channel and exactly its groups' channels, and `channels` is the union of the group channels over all contacts; it fails exactly on a member that does not read back |
| LinkRuns.PeerSees | src/insp_s2s.rs:97-119 | replaying all lines ever sent shows each ghost under its current UUID with the stored nick, the host of the stored mode and exactly its `channels` |
| LinkRuns.RouteToGhost | src/insp_s2s.rs:446-460 | a message of the admin to a ghost goes to its address by the stored transport, unless a bridged channel bears the name of its UUID |
| LinkPolls.StepShown | src/insp_s2s.rs:65-92 | in any step, failed or not, a message row goes only with its deletion added to the history |
| LinkPolls.LostExactly | src/insp_s2s.rs:69-92 | `poll` returns on a failure before it flushes the outbox: a pass in a poll of its own loses texts, their rows deleted and their lines not handed over, if and only if the row where the state before tells it stops is a row at all and some row before it completes a message of a recipient; it loses exactly those messages |
| LinkPolls.PollExact | src/insp_s2s.rs:65-92 | a poll with any number of events hands over the deletion of every row that goes in it if none of its events fails; if one does, which the states before the events tell, all those rows are lost with their texts |
| LinkPolls.TextLost | src/insp_s2s.rs:742-769 | the smallest case: a text of a contact, then a row that stops any pass (its number does not read back, or its PDU does not parse), and the text is lost |
| LinkModes.OperatorsExact | src/insp_s2s.rs:611-625 | a successful `process_groups` says +o of a ghost in the channel of a group if and only if it is an admin among the participants, and -o if and only if it is a participant and no admin |
| LinkModes.TopicsExact | src/insp_s2s.rs:626-634 | it sends a text as the topic of a group channel if and only if that is the topic of the group and is due: topics are set, and none is known, or another one that may be overridden; then it is the known one, and due again only if empty |
| LinkModes.GroupsSaid | src/insp_s2s.rs:611-635 | the loop over the groups says their MODE lines and topic, group by group, and nothing else |
| LinkEffects.AwayExact | src/insp_s2s.rs:149-152 | an away state for a contact is said as it is, by its ghost, and nothing else happens |
| LinkEffects.NickExact | src/insp_s2s.rs:153-174 | a contact told to change its nick keeps the present one if that is it; otherwise row and peer have the new nick with its source, or where that is in use the one with the least free number and the source for collisions; all other rows, contacts and users stay |
| LinkEffects.ModeExact | src/insp_s2s.rs:175-179 | after SetWhatsapp the mode of the contact, the stored flag and the host the peer sees are those of the command, the messages of the admin go that way, and everything else stays |
| LinkEffects.NoContactNoEffect | src/insp_s2s.rs:183-185 | a command for an address without a contact does nothing |
| LinkEffects.CommandsHandled | src/insp_s2s.rs:648-672 | each command reaches the address it names, or the one its nick stands for |
| LinkEffects.SettledGets | src/insp_s2s.rs:344-371 | a nick nobody has is given as it is, and otherwise the one with the least number that is free |
| LinkEffects.SetupExact | src/insp_s2s.rs:97-119 | a recipient set up gets the next UUID, its nick or the least free alternative, which the row then says, and is introduced with them and the host of its mode |
| LinkEffects.NothingToSetUp | src/contact_common.rs:21-81 | an address without a recipient, or with a contact, is not set up; one without a recipient is asked for, with its source |
| LinkEffects.SendRawExact | src/sender_common.rs:26-63 | a text goes to the channel of its group, which the admin is made to join first where that is wanted and the admin is there, and otherwise to the admin, one line for each fragment |
| LinkEffects.UndecodableExact | src/sender_common.rs:123-126 | a message that can not be decoded is reported by its contact, after the switch to SMS if one is due, and stays |
| LinkEffects.NoticesExact | src/insp_s2s.rs:483-539 | SQUIT, NICK, FHOST and FTOPIC lines: exactly the users and topics they name change, as they say |
| LinkEffects.ConnectExact | src/insp_s2s.rs:69-73 | a new connection is greeted once |
| LinkEffects.ServerExact | src/insp_s2s.rs:401-415 | a SERVER line is accepted exactly with four arguments, our password and no hops; then its id is taken and the control user introduced in a burst |
| LinkEffects.UidExact | src/insp_s2s.rs:499-508 | a UID line is taken exactly with nine arguments, a text and two numbers; the user has its nick and displayed host, and a pass follows exactly if it is the admin |
| LinkEffects.EndBurstExact | src/insp_s2s.rs:543-571 | when the burst of our server ends and nothing fails, the link is up, the control user is in the log channel, and every recipient has a contact in the log channel and exactly its groups' channels, here and at the peer, which the delivery pass leaves there |
| InspLinks.InspLink.constructor | src/insp_s2s.rs:293-329 | a new link is the start state, and the invariant holds |
| InspLinks.InspLink.NickExists | src/insp_s2s.rs:344-354 | exactly the nicks of users and of the admin exist |
| InspLinks.InspLink.CheckNickForCollisions | src/insp_s2s.rs:355-371 | the loop finds what `Nicks.Check` specifies: nothing for a free nick, else the least free alternative |
| InspLinks.InspLink.AdminUuid | src/insp_s2s.rs:572-579 | some user with the admin nick, if and only if there is one |
| InspLinks.InspLink.ResolveNick | src/insp_s2s.rs:136-145 | an answer `ResolveExact` speaks about, whatever the order |
| InspLinks.InspLink.GetUuid | src/insp_s2s.rs:716-723 | the next UUID and counter, or the explicit error past 99999 |
| InspLinks.InspLink.NewUser | src/insp_s2s.rs:724-731 | the user is stored and its UID line sent |
| InspLinks.InspLink.ProcessGroupsForRecipient | src/insp_s2s.rs:580-605 | both loops together do the step function whose effect `GroupsForExact` states |
| InspLinks.InspLink.SetupContactFor | src/insp_s2s.rs:97-119 | does the step function of `SetupKeeps` |
| InspLinks.InspLink.SetupRecipient | src/contact_common.rs:21-30 | does the step function of `SetupRecipientKeeps`: the number is read back first |
| InspLinks.InspLink.SetupContact | src/contact_common.rs:50-58 | a setup if there is a row, otherwise nothing |
| InspLinks.InspLink.RequestContact | src/contact_common.rs:59-81 | does the step function of `RequestKeeps` and says whether there is a recipient |
| InspLinks.InspLink.RemoveUser | src/insp_s2s.rs:372-390 | forgets the user and its contact, and recreates the contact on demand |
| InspLinks.InspLink.RemoveContactFor | src/insp_s2s.rs:120-129 | QUIT line, contact and both map entries gone |
| InspLinks.InspLink.DropContact | src/contact_common.rs:82-87 | does the step function of `DropKeeps` |
| InspLinks.InspLink.SetWaState | src/insp_s2s.rs:330-343 | mode, stored flag, FHOST line and hostname together |
| InspLinks.InspLink.ForwardCmd | src/insp_s2s.rs:146-187 | takes the mode it is given and says the away state it is given; altogether the step function of `AwayExact`, `NickExact` and `ModeExact` |
| InspLinks.InspLink.ForwardCmdByNick | src/contact_common.rs:106-113 | forwards to an address `resolve_nick` may answer |
| InspLinks.InspLink.ProcessGroups | src/insp_s2s.rs:606-637 | the loops over all contacts, over all groups and over their members do the step function of `GroupsExact`, `OperatorsExact` and `TopicsExact` |
| InspLinks.InspLink.TellGroups | src/insp_s2s.rs:611-636 | the loop over the groups does the step function of `GroupsSaid`, up to a member that does not read back |
| InspLinks.InspLink.TellModes | src/insp_s2s.rs:612-625 | the loop over the participants: +o or -o for each with a contact, up to one that does not read back |
| InspLinks.InspLink.TellTopic | src/insp_s2s.rs:626-634 | the topic sent and remembered when it is due, otherwise nothing |
| InspLinks.InspLink.ContactMessage | src/insp_s2s.rs:638-647 | the line is sent, or the matching error returned |
| InspLinks.InspLink.SendRawMessage | src/sender_common.rs:26-63 | one PRIVMSG for each fragment of each line, to the group channel or the admin |
| InspLinks.InspLink.DeleteMessage | src/store.rs:382-392 | the row is removed and the removal logged, or the zero-rows error with nothing changed |
| InspLinks.InspLink.ProcessMsgPlain | src/sender_common.rs:64-87 | the text, with the stamp where `StampPlaced` says, is sent, then the row deleted: the history has the lines before the deletion, also when it fails |
| InspLinks.InspLink.PutStamp | src/sender_common.rs:73-86 | the stamp before the text, or after the prefix of an action |
| InspLinks.InspLink.ProcessMsgPdu | src/sender_common.rs:88-129 | waits for missing parts, reports an undecodable PDU, otherwise sends the whole text and then deletes all its rows, in this order in the history |
| InspLinks.InspLink.ProcessMessages | src/insp_s2s.rs:732-771 | the loop over the snapshot does the pass of `MessagesExact`, up to the state a failure leaves, and keeps the invariant |
| InspLinks.InspLink.DoBurst | src/insp_s2s.rs:791-803 | the burst of the control user |
| InspLinks.InspLink.DoQuasiburst | src/insp_s2s.rs:804-811 | does the step function of `QuasiBurstKeeps` |
| InspLinks.InspLink.OnLinked | src/insp_s2s.rs:565-571 | joins the log channel, then groups, then messages |
| InspLinks.InspLink.Connect | src/insp_s2s.rs:69-80 | the first poll of a connection sends the CAPAB and SERVER lines and waits for the answer |
| InspLinks.InspLink.MeetUser | src/insp_s2s.rs:499-508 | a UID line that parses adds the user and, for the admin, does a pass; one that does not is an error |
| InspLinks.InspLink.TakeNotice | src/insp_s2s.rs:483-539 | SQUIT, NICK, FHOST and FTOPIC lines do their `Step`, which never fails: users split off go, a known user or the known topic changes, nothing else |
| InspLinks.InspLink.HandleRemoteMessage | src/insp_s2s.rs:391-564 | each message of the peer, ERROR, SERVER and UID lines with their rejections included, does its `Step`, up to the state a failure leaves, and the invariant holds after it |
| InspLinks.InspLink.HandleByNick | src/contact_common.rs:97-113 | the commands by nick do the `Step` of an address that `resolve_nick` may answer |
| InspLinks.InspLink.HandleCommand | src/insp_s2s.rs:648-672 | each internal command does its `Step`, up to the state a failure leaves, and the invariant holds after it |
| WaConservation.SendKeeps | src/whatsapp.rs:253-325 | a message accepted, connected or not, is tracked under its new id and every other stays accounted for; when it is handed over is `WaSending.SendExact` |
| WaConservation.EstablishedExact | src/whatsapp.rs:651-676 | on logging in, each queued message is handed over exactly once and no entry stays unsent, in whatever order the hash table lists them; every message stays accounted for |
| WaConservation.AckKeeps | src/whatsapp_ack.rs:106-118 | an acknowledgement keeps every message accounted for |
| WaConservation.TickKeeps | src/whatsapp_ack.rs:123-159 | the timer keeps every message accounted for: what expires is retired, the rest stays tracked |
| WaConservation.TickExact | src/whatsapp_ack.rs:123-159 | one timer pass drops an entry exactly if it is acknowledged, not as pending, and old enough; it gives the first warning once to one without acknowledgement for its period, the second once to one still pending after the other |
| WaConservation.TrackedOnce | src/whatsapp_ack.rs:61-80 | a message not retired is tracked, with its destination and content, under exactly one id; a retired one under none |
| WaConservation.WarnedOnce | src/whatsapp_ack.rs:123-148 | no id ever has more than one un-acked and one pending warning |
| WaConservation.CountAll | src/whatsapp_ack.rs:127-148 | one timer pass gives an entry a warning exactly when it is due and not yet given |
| WaSending.SendExact | src/whatsapp.rs:253-325 | while session and connection are up a message is handed over at once under its id, which is stored, with a presence subscription unless one was asked for in the last five minutes; otherwise it waits as unsent, with a complaint exactly if WhatsApp is not set up |
| WaSending.DirectExact | src/whatsapp.rs:287-307 | a number that gives no JID is reported and nothing else happens |
| WaSending.EstablishedEffect | src/whatsapp.rs:651-676 | a login hands over every message that waits, once each, under a new id, with its content and serial number, leaves the other entries, stores the ids, and complains exactly about another number than last time |
| WaSending.StepHands | src/whatsapp.rs:253-307 | the outbox holds each message once, under a transmitted id, and with the content tracked under it |
| WaSending.LoggedOffExact | src/whatsapp.rs:677-704 | after an error the session is down and forgotten, what is tracked and queued stays |
| WaSending.AckReports | src/whatsapp_ack.rs:106-118 | an acknowledgement sets the level of a tracked id and is reported exactly at error level |
| WaSending.DrainExact | src/whatsapp.rs:79-92 | requests leave the outbox from the front |
| WaGroups.AssociateKeeps | src/whatsapp.rs:605-625 | a group is bridged exactly if no row has its JID or the channel, we are connected, and it is a group; the row has the JID and the channel and nobody in it, no UNIQUE constraint can fail, and the pairing stays one to one |
| WaGroups.RemoveUndoesAssociate | src/whatsapp.rs:640-650 | removing a channel restores the table before its association, and finds exactly that row |
| WaGroups.RemoveExact | src/whatsapp.rs:640-650 | exactly the group of the channel goes, of which the factory is told; without one nothing happens |
| WaGroups.MeetAllExact | src/whatsapp.rs:495-543 | each member has a recipient afterwards, and the factory is told of each new one, once, in the order of the members |
| WaGroups.RowIdsExact | src/whatsapp.rs:535-543 | the participants recorded are the row ids of the members, in order |
| WaGroups.AdminsExact | src/whatsapp.rs:537-543 | an id is among the admins if and only if it belongs to a member who is one |
| WaGroups.MetadataExact | src/whatsapp.rs:515-604 | metadata is accepted if and only if every member has an address and the group is bridged or can be bridged now; then its row holds the metadata and every other row is unchanged; the pairing stays one to one either way |
| WaGroups.AutocreateExact | src/whatsapp.rs:598-604 | autocreation makes the row exactly when the checks pass, and the row stays even when recording the members fails |
| WaGroups.UnbridgedMetadataFails | src/whatsapp.rs:515-547 | metadata for a group that is not bridged, with autocreation off, returns an error, which ends the task |
| WaIncoming.MessageExact | src/whatsapp.rs:326-436 | exactly when a message is stored, when its id is remembered and when the handler fails; an empty stub does not use up its id; the rows stored are its texts in order, from its author, each belonging to the group the message is in, or to none if it is from a person |
| WaIncoming.MessageTells | src/whatsapp.rs:351-436 | a message of a group not bridged gets it bridged on the spot, where that can be done, and its metadata asked for; one that lands with texts has its recipient made and the factory told; one that lands without media is marked as read where wanted; nothing else is asked or told |
| WaIncoming.ReplayIgnored | src/whatsapp.rs:334-339 | with `mark_read` off a remembered id is never stored again |
| WaIncoming.ReplayStoredExactly | src/whatsapp.rs:334-348 | a remembered id is stored again if and only if `mark_read` is on, the message is announced as new, and it would be stored if it were the first |
| WaIncoming.MessageKeeps | src/whatsapp.rs:326-436 | an incoming message keeps the ids consistent and repeats no batch |
| WaIncoming.MediaKeeps | src/whatsapp.rs:199-222 | a finished download keeps the ids consistent; it fails exactly when its text is for a group deleted meanwhile, and then the id is not remembered |
| WaIncoming.MediaExact | src/whatsapp.rs:199-222 | it stores its text as one row of its author in its group, then the id, and is marked as read where wanted |
| WaRuns.StepKeeps | src/whatsapp.rs:57-100 | every handler, failed or not, keeps messages conserved, the outbox as tracked, groups and channels paired, and ids consistent; and exactly which handlers fail |
| WaRuns.AnewKeeps | src/whatsapp.rs:102-142 | a new manager on the database and the WhatsApp ids that another left, its tracker gone, has the invariants |
| WaRuns.RunKeeps | src/whatsapp.rs:57-100 | these hold in every state of every run, which goes on with a new manager after a failure and may start again at any time |
| WaRuns.HandedWhenUp | src/whatsapp.rs:253-325 | over any run, a message accepted while session and connection are up is handed over in that step, its id stored, and otherwise waits as unsent |
| WaRuns.HandedAtLogin | src/whatsapp.rs:651-676 | over any run, a login hands over every message that waits, once each, with its content and serial number |
| WaRuns.OutboxTracked | src/whatsapp.rs:262-286 | over any run, each message in the outbox is there once, under a transmitted and stored id, and is what is tracked under it |
| WaRuns.AcceptedTracked | src/whatsapp.rs:253-307 | over any run of sends, disconnects, reconnects, acknowledgements, ticks and incoming traffic, each message accepted since the last start is tracked under exactly one id or retired |
| WaRuns.AgesExact | src/whatsapp_ack.rs:61-72 | over any run, a tracked id has the time at which it was sent or queued |
| WaRuns.DueExactly | src/whatsapp_ack.rs:123-159 | over any run, the timer drops a tracked id exactly if its last acknowledgement was neither missing nor PendingSend and the expiry period since it was sent is over; it warns once about one without acknowledgement and once about one still pending, after their periods |
| WaRuns.RetiredExactly | src/whatsapp_ack.rs:149-158 | over any run, a step retires a message if and only if it is the timer, the last acknowledgement of its id was neither missing nor PendingSend, and the expiry period since it was sent is over |
| WaRuns.LevelsExact | src/whatsapp_ack.rs:106-118 | over any run, the level recorded for a tracked id is that of its last acknowledgement, and none before the first |
| WaRuns.StoredOnce | src/whatsapp.rs:334-426 | with `mark_read` off, over any run, restarts included: two batches with one id come from media messages, and no batch has the id of a message the bridge sent |
| WaTracker.WaAckTracker.RegisterSend | src/whatsapp_ack.rs:61-72 | the entry is there, fresh, and no other changes |
| WaTracker.WaAckTracker.ExtractUnsent | src/whatsapp_ack.rs:73-80 | returns the statuses of exactly the unsent entries, each once, and removes exactly them |
| WaTracker.WaAckTracker.OnMessageAck | src/whatsapp_ack.rs:106-118 | sets the level of a known id, reports an error level, ignores an unknown id |
| WaTracker.WaAckTracker.WarnAll | src/whatsapp_ack.rs:124-148 | every entry is flagged for exactly the warnings given, in the order of the table |
| WaTracker.WaAckTracker.CheckAcks | src/whatsapp_ack.rs:123-159 | the loop and the filter: all due warnings given, and exactly the entries gone that are acknowledged, not as pending, and old enough |
| WaManager.WhatsappManager.constructor | src/whatsapp.rs:102-142 | a new manager is the start state over the database it finds |
| WaManager.WhatsappManager.QueueMessage | src/whatsapp.rs:253-261 | tracked as unsent, with a warning when WhatsApp is not set up |
| WaManager.WhatsappManager.SendMessage | src/whatsapp.rs:262-286 | id stored, entry tracked, request queued, presence subscription renewed when due |
| WaManager.WhatsappManager.SendDirectMessage | src/whatsapp.rs:287-307 | a number that gives no JID is reported and nothing else changes; otherwise the message is handed over exactly while connected, and waits as unsent if not |
| WaManager.WhatsappManager.AssociateAndAsk | src/whatsapp.rs:626-632 | the association of `GroupAssociate` with the metadata requested |
| WaManager.WhatsappManager.SendGroupMessage | src/whatsapp.rs:308-325 | goes to the one group bridged to the channel, at once exactly while connected, or nowhere |
| WaManager.WhatsappManager.OnEstablished | src/whatsapp.rs:651-676 | does the step function of `EstablishedExact`, for a listing of exactly the unsent entries |
| WaManager.WhatsappManager.OnWaError | src/whatsapp.rs:677-704 | the session is forgotten, the tracker untouched |
| WaManager.WhatsappManager.OnMessageAck | src/whatsapp.rs:818-820 | does the step function of `AckKeeps` |
| WaManager.WhatsappManager.CheckAcks | src/whatsapp_ack.rs:123-159 | does the step function of `TickExact`: exactly the entries that are over go |
| WaManager.WhatsappManager.PollOutbox | src/whatsapp.rs:79-92 | sends up to a failure, or discards everything when disconnected |
| WaManager.WhatsappManager.GroupAssociate | src/whatsapp.rs:605-625 | succeeds exactly under the four checks, with the row, the metadata request and the notification |
| WaManager.WhatsappManager.GetWaRecipient | src/whatsapp.rs:495-514 | the row id of an address, made if needed; nothing for a JID without address |
| WaManager.WhatsappManager.OnGotGroupMetadata | src/whatsapp.rs:515-547 | does `OnMetadata`; the recursion through autocreation ends because the group is bridged by then |
| WaManager.WhatsappManager.GroupAutocreate | src/whatsapp.rs:598-604 | does `Autocreate` |
| WaManager.WhatsappManager.MeetMembers | src/whatsapp.rs:535-543 | the loop over the members: ids and admin ids in order, or an error at the first without address |
| WaManager.WhatsappManager.GroupRemove | src/whatsapp.rs:640-650 | removes exactly the group of that channel, if there is one, and with it exactly its message rows |
| WaManager.WhatsappManager.StoreMessages | src/whatsapp.rs:437-448 | one row for each text, a recipient made at most once, a notification for each; a row for a group that is gone is refused after the recipient is made |
| WaManager.WhatsappManager.MediaFinished | src/whatsapp.rs:199-222 | stores the text, then the id; stops before the id when the group of the text is gone |
| WaManager.WhatsappManager.GroupAutocreateFromUnbridged | src/whatsapp.rs:584-597 | bridges a group known by name from the chat list |
| WaManager.WhatsappManager.OnMessage | src/whatsapp.rs:326-436 | does the step function of `MessageExact` and `MessageTells`; its rows belong to the group the message is in |
| FactoryProofs.StepKeeps | src/contact_factory.rs:35-145 | every event, failed or not, keeps starting and live contacts disjoint and the presence told; it fails exactly on a row that has to be read back and does not, or on dropping an address without a row |
| FactoryProofs.RunKeeps | src/contact_factory.rs:60-98 | at every point of a run, failures and restarts included, starting and live contacts are disjoint, and the last away state queued to a live contact is the recorded one (none if none is recorded) |
| FactoryProofs.LeavesExactly | src/contact_factory.rs:106-119 | in any step, failed or not, an address leaves starting, live and failed together if and only if it is dropped while live and not failed, or its retry finds no contact and no row, or stops before its turn is over |
| FactoryProofs.SetupNeverReplaces | src/contact_common.rs:21-30 | setting up never replaces a contact that is starting or live, even when it fails |
| FactoryProofs.RetryExact | src/contact_factory.rs:166-171 | after a retry, failed or not, nobody is left as failed, and those started are exactly the ones with a row and no live contact before the first row that does not read back; it fails exactly if there is such a row, and otherwise everybody who has a row is starting or live |
| FactoryProofs.MailActedOnOnce | src/contact_factory.rs:201-216 | a second pass over message rows already seen changes nothing |
| FactoryProofs.MailKeeps | src/contact_factory.rs:201-216 | a pass over the messages stops exactly at an unseen row whose address does not read back, keeping the invariant; otherwise all its rows are seen |
| ContactFactories.ContactFactory.SetupRecipient | src/contact_common.rs:21-30 | the number is read back first; then a contact is started unless there is one |
| ContactFactories.ContactFactory.RequestContact | src/contact_common.rs:59-81 | sets up the recipient, with the error of a row that does not read back, or asks the task of the message's source |
| ContactFactories.ContactFactory.QueryContact | src/contact_common.rs:31-49 | answers, then as `request_contact`, with its error |
| ContactFactories.ContactFactory.DropContact | src/contact_common.rs:82-87 | error without a row; otherwise row and live contact gone, a starting one untouched |
| ContactFactories.ContactFactory.ResolveNick | src/contact_factory.rs:124-131 | some live contact of that nick, if and only if there is one |
| ContactFactories.ContactFactory.DropContactByNick | src/contact_common.rs:97-105 | drops a contact of that nick |
| ContactFactories.ContactFactory.ForwardCmd | src/contact_factory.rs:132-144 | queued to a live contact; an away state is also recorded |
| ContactFactories.ContactFactory.ForwardCmdByNick | src/contact_common.rs:106-113 | forwards to a contact of that nick |
| ContactFactories.ContactFactory.ProcessGroups | src/contact_factory.rs:194-200 | one command to each live contact |
| ContactFactories.ContactFactory.ProcessMessages | src/contact_factory.rs:201-216 | each row not seen before prompts one command or request; a number that does not read back ends the task there |
| ContactFactories.ContactFactory.LoadRecipients | src/contact_factory.rs:181-186 | a setup for every row, up to one that does not read back |
| ContactFactories.ContactFactory.ProcessFailures | src/contact_factory.rs:166-171 | does the step function of `RetryExact` |
| ContactFactories.ContactFactory.PollStarting | src/contact_factory.rs:60-80 | moves each starting contact to live (with the recorded presence as its first command), to failed, or leaves it |
| ContactFactories.ContactFactory.PollContacts | src/contact_factory.rs:81-95 | moves exactly the broken live contacts to failed |
| FactoryEffects.RequestExact | src/contact_common.rs:31-81 | with a row a contact is started under its nick unless there is one; without one the modem is asked for source 0 and WhatsApp for source 1; a query is answered first |
| FactoryEffects.MailExact | src/contact_factory.rs:201-216 | a row not seen before is told to a live contact, not to a starting one, and is a request for anybody else; without an address that reads back it ends the task |
| FactoryEffects.PassCalls | src/contact_factory.rs:201-216 | a pass tells a live contact of each of its rows not seen before, once, and stops exactly at the first row not seen whose address does not read back |
| FactoryEffects.CommandsExact | src/contact_factory.rs:124-144 | a command goes to the live contact named, an away state is recorded in any case, what concerns groups goes to all live contacts, a subscription to the task that has it |
| FactoryEffects.DropExact | src/contact_common.rs:82-105 | row and live contact go, by address or by nick; without a row that is an error |
| FactoryEffects.StartingExact | src/contact_factory.rs:60-80 | a starting contact goes live under its nick when ready, told the recorded presence first, is to be tried again when it fails, and goes on starting otherwise |
| FactoryEffects.OthersExact | src/contact_factory.rs:81-95 | polling leaves everybody else alone; a live contact that breaks is to be tried again |
| ContactProofs.GroupsExact | src/contact.rs:92-111 | after `process_groups` the server has the contact in the channels of exactly the groups it takes part in, and in the channel joined on connecting exactly if no group ever had that one; it fails exactly without a recipient row |
| ContactProofs.HomeKept | src/contact.rs:92-111 | over any run the contact is in the channel joined on connecting if and only if that is one of its groups' or no group ever had it |
| ContactProofs.RowsExact | src/contact.rs:125-146 | a pass not stopped is the pass over the table for this contact alone, saying exactly its deeds |
| ContactProofs.MessagesExact | src/contact.rs:113-147 | a pass is stopped exactly by an own PDU that does not parse; stopped or not, its lines and deletions in order are those of its deeds, each text one complete own message, each row deleted once and after its text; the rows gone are exactly those the rows before the stop take; the mode is the kind of the last message handled, with one notice for each alternation |
| ContactProofs.StepKeeps | src/contact.rs:157-205 | every event, failed or not, keeps the server's view equal to `channels` and the channel joined on connecting, the mode equal to the stored one, the tables well kept; it fails exactly on an own PDU that does not parse or without a recipient row |
| ContactProofs.RunKeeps | src/contact.rs:84-205 | so at every point of a run, failures and new contacts on what they leave included |
| ContactProofs.PassExact | src/contact.rs:125-146 | where a pass is stopped, that nothing is done about that row, and that the rows before are handled as a pass over them alone |
| ContactEffects.CommandsExact | src/contact.rs:157-181 | an away state is recorded, and said once connected; a nick is stored with its source and asked for; a mode is taken and stored as it is given |
| ContactEffects.AdminExact | src/contact.rs:230-254 | messages are handled exactly while connected with the admin there, and when the admin comes back |
| ContactEffects.PresenceTold | src/contact.rs:148-165 | over any run, restarts included, the away state the server was told last is the recorded one from connecting on |
| ContactManagers.ContactManager.ProcessGroups | src/contact.rs:92-111 | the JOIN and the PART loop together do the step function of `GroupsExact` |
| ContactManagers.ContactManager.HandleRow | src/contact.rs:126-145 | mode switch with its notice, then delivery |
| ContactManagers.ContactManager.ProcessMessages | src/contact.rs:113-147 | does the step function of `MessagesExact`, up to the state a failure leaves |
| ContactManagers.ContactManager.ProcessMsg | src/sender_common.rs:64-129 | the text is sent, then its rows deleted, in this order in the history, also when it fails |
| ContactManagers.ContactManager.OnWelcome | src/contact.rs:189-197 | messages, the WATCH line, presence and groups, in this order |
| ContactManagers.ContactManager.OnAdmin | src/contact.rs:236-254 | messages kept while the admin was away are handled on return |
| ContactManagers.ContactManager.HandleCommand | src/contact.rs:157-175 | each command of the factory does its `Step`, up to the state a failure leaves |
| ContactManagers.ContactManager.constructor | src/contact.rs:268-330 | a new contact is the start state of its recipient row |
| Outbox.Conserved | src/util.rs:9-24 | accepted and kept messages are the old outbox, as a multiset, for any answers of the sink |
| Outbox.InOrderExactly | src/util.rs:9-24 | for distinct messages, accepted followed by kept is the old outbox in order if and only if not being ready persists for the rest of the pass |
| Outbox.InOrder | src/util.rs:9-24 | when not being ready persists, accepted followed by kept is the old outbox, in order |
| Outbox.Task.SinkOutbox | src/util.rs:9-24 | any number of passes keep account of everything put in, and its order when not being ready persists |

## Left out

* Sockets, the IRC codec and the parsing of lines, the AT layer of the modem, the WhatsApp connection
  crate, media download, QR codes: traffic arrives as values of an event datatype.
* SQL and connection pooling: tables are maps. Of the errors of database calls, those of deletions without
  a row, of a row for a group that is gone and of numbers that do not read back are modelled.
* Clocks and timers: time is an argument, and a timer tick is an event. The time stamp put before a late
  message is an uninterpreted text.
* PDU decoding, JID parsing, `unidecode` and text formatting are uninterpreted; texts and `is_media`
  of `process_wa_incoming` come with the message.
* Tables are keyed by address, not by its normal form; `Address.FoundByKey` says that a lookup by normal
  form finds the same row.
* PING, AWAY of remote users, log lines; a FTOPIC line without its arguments or its text, which is ignored.
* A SERVER line that would be accepted but has no text: logging it unwraps the text
  (`src/insp_s2s.rs:411`), before anything else is done about the line.
* The admin's control commands, among them INSP RAW, and `src/admin.rs`, `src/control.rs`,
  `src/irc_s2c.rs`, `src/logging.rs`, `src/config.rs`, `src/main.rs`.
* Message::new failures. The recipient of a line to the admin is `ToAdmin`, whichever UUID `admin_uuid`
  finds; that it can not be a ghost is `LinkRuns.AdminIsNoGhost`.
* Nick sources other than the one for collisions are passed through without meaning.
* The contact list of WhatsApp (names for new recipients, automatic nick updates), subject and
  participant change messages, print_acks, and which text a warning has.
* A media message whose id arrives again before its download ends is stored twice; ids of media are
  excepted from the claim about replays for that reason.
* Delivery by WhatsApp: the outbox is discarded while disconnected, so what is claimed is that a message is tracked
  and put there.
* ContactManager: the routing of the admin's private messages (the link has the same,
  see `LinkRuns.RouteToGhost`) and the replacement of its recipient row by another one are not modelled.
  The splitting of a text and the decoding of its parts are loops in the class form of the link and calls of
  the functions they were proved against here.
* That work queued for another task is done eventually: several paths wait for a later, unrelated
  command.
