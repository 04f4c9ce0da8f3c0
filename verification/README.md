# Shiltz: a verified model

Shiltz is a game server emulator written in C++. This Dafny project models the parts of it whose correctness depends on
interleaving, on several functions agreeing, or on arithmetic, and proves what those parts are there to guarantee.

`dafny verify dfyconfig.toml` checks everything.

## The persistence protocol

A handler on the world strand validates a request against the player's cached slots and wallet and queues a database job.
One thread runs the jobs first in, first out, each in a transaction of guarded slot writes and relative money updates. A
completion callback then changes memory, again in order. Any number of requests of any number of players may be on their way.

- `Items`, `Sums`, `SlotRows`: item values, the three slot tables with their NULL conventions, the guarded statements,
  transactions, and totals of units and money.
- `Protocol`: the state machine. A state holds the tables, the job queue, the callback queue, players with their caches, drops
  on the ground, connections and the id generator. What a handler's closures capture is a `Work` value. A step connects, enters,
  leaves, handles a request, runs a job (which may also throw), runs a callback or expires a drop; a run is any list of steps.
- `Sessions`: first-in-first-out keeps sessions apart, so in an orderly run a callback meets its own session or nobody.
- `Ledger`, `Plans`: where units can be, what well-built work is, and what a job's transaction does.
- `Accounting`: the exact laws of units and money over every run whatsoever, with what an unguarded insert conjures as a
  term of its own, and exactly when it is zero.
- `Conservation`: orderly runs conjure nothing.
- `Rewards`: what a turn-in's rewards add to the bag, piece by piece and stack by stack.
- `Requests`: what each request means once its job runs: when it queues, when it commits, what it has then changed in the
  tables; what undoes it; and that a duplicate of it is refused.
- `Presence`: slot numbers on the wire, the bank that is opened, pickups, where drops lie and who is in the world.
- `Appraisals`: which listed slots are rolled, which rolls land and what they cost.
- `Exactness`: exactly when a committed job changes units by what the player was told, and the price of each job.
- `CacheAgreement`, `CacheRuns`: memory after the callbacks on their way equals the tables, at every state of every orderly run.
- `Gates`: one-time quests, appraisals and banks.
- `Disorder`: two concrete runs that show what an entry out of order does.
- `GameServer`: the same protocol as statements on mutable tables, caches and queues. Each method is proved to make the step
  its name says, and `Server.Serve` carries the laws over whole runs to the mutable server.
- `CharacterSlots`: the entry vectors behind the caches stand for maps.

What these theorems assume, and where the assumption comes from:

- `Orderly`: CG_ENTER is issued only when neither the character nor its connection is in the world or has a load outstanding.
  The code makes this check in the completion (src/servers/game/handlers/Session.cpp:82-87), after the load, and for the new
  character only; the step that queues a load is not guarded. A run is orderly if and only if sessions are kept apart at every
  state of it (`Sessions.OrderlyIffSeparated`). The theorems about memory need this: in `Disorder.UnorderlyEnterConfusesMemory`
  memory ends up contradicting its rows. That is shown by a run, not for every disorderly one. Units need it too: in
  `Disorder.UnorderlyEnterDoublesUnits` five units become ten. The laws of `Accounting`, and `Exactness.UnitsAccounted`,
  `UnitsConservedIffBacked` and `MoneyConserved`, do not assume it.
- Prices, fees and quest money are not negative, and money does not overflow 64 bits.
- Ids come from a generator and do not repeat (its 32-bit wrap-around is not modelled).
- Tables start out with rows of the shape the repositories write and with no negative balance.
- The order in which an inventory vector lists its slots, the dice of an appraisal and whether a quest's conditions hold are
  inputs of a request.

Where the code does not keep the obvious property, the property's exact condition is proved instead:

- An equipment row has no quantity column, and a stack's quantity is an unsigned 32-bit sum. A job moves the intended units if
  and only if neither a stack enters or leaves equipment unmatched nor a sum wraps; for a turn-in, if and only if every
  reward stack that lands has room (`Exactness.ExactIffLossless`, `Exactness.StackLostInEquipment`,
  `Exactness.RewardLostInWrap`). A guard on the request's captured values suffices (`Exactness.AdmittedRunsLoseNothing`).
- The upsert's insert branch ignores its guard. It is a compare-and-swap if and only if a non-empty expectation names an
  existing row (`SlotRows.SaveIsCompareAndSwap`). Since no statement deletes a row, every job of an orderly run meets this; over
  any run the units of all items follow the flows if and only if every job that commits does, up to expectations that count
  for nothing (`Accounting.UnitsFollowFlowsIffBacked`).
- The bank loader does not skip cleared rows the way the inventory loader does, so a bank with a cleared row cannot be opened
  again (`GameServer.Database.LoadAllItems`, `Gates.EmptyingWithdrawalLocksBank`).

## The map

- `Visibility`: zone adjacency, the per-player lists, the messages each client got, and the queued events, which are handled
  only after positions have moved on. The invariant therefore speaks of stale pairs and departed ids with an event still
  pending. Replaying a client's messages always gives its list.
- `MovementSystem`: the same as sorted lists searched by bisection and edited in place. `Map.Live` takes an empty map through
  any list of placements, walks, departures and handled events; draining the queue leaves every list exact.
- `VisibilityIndex`, `Pool`, `World`: the lookup structures agree with the live players. The map of `MovementSystem` owns its
  index and keeps it in agreement through every spawn, walk and departure.
- `EventBus`: per-type vectors and a cross-type log refine one first-in-first-out queue; a throwing listener drops exactly the
  rest of the batch. `Visibility` and `MovementSystem` take such a queue as a sequence and assume that no listener throws; they do
  not run on `EventBus` or `Pool` themselves.

## Codecs and arithmetic

- `Bits`, `Quads`, `Cipher`: the DES variant. A word is its bits, most significant first. The substitution boxes and round keys are fields,
  so nothing depends on their contents; the permutation tables are those of the program, which are those of FIPS 46-3.
- `CipherBlock`: one block in full, under boxes and keys simple enough to work it out in the proof.
- `Framing`: frames cut from a byte stream, and packets masked with a repeating key. Frames do not depend on how the stream is
  cut into reads if and only if nothing follows the first invalid length prefix: the code clears whatever it happens to have
  received by then and, although it says so, does not drop the connection.
- `ScrTable`: the one-pass tokenizer, with the round trip over every printed table.
- `Random`: SplitMix64's finalizer as arithmetic modulo 2^64, with the first two published numbers.
- `LevelUp`: the threshold loop, the saturating reward and the queued saves. Check and reward commute if and only if the check
  costs nothing or the reward fits in 64 bits before and after it (`LevelUp.LevelUpIsConfluentIff`).
  A reward to a character with negative experience leaves its row behind memory, because memory counts it as none.
- `OptionBits`: rolling option bits and reading them back. Ten gates at tier 0 pack to the number that means "no bits", so that
  roll alone reads back as another; `OptionBits.RollReadsBackIff` says so.

## Monsters

- `Creatures`: damage, death, the respawn clock, and the attack that drives them, over any run of hits and ticks. A creature
  carries its history of hits and ticks as a ghost field.
- `CreatureAi`: choosing a target among the players of each tick, and the wander, chase and attack states. A chase makes exactly
  the missing moves and then attacks, however the ticks fall.

## Model

| member | source | states |
|---|---|---|
| Items.StackingConserves | src/servers/game/world/Item.h:44-65 | receiving units adds exactly those units to the slot when they fit in 32 bits, and 2^32 fewer when they wrap |
| Items.StackingKeepsTheRest | src/servers/game/world/Item.h:44-65 | a stack that takes more keeps everything but its number; a free slot takes the item itself |
| SlotRows.RowRoundTrip | src/servers/game/repositories/ItemRepository.cpp:188-263 | loading a row and binding it again gives the row back if and only if the row has the shape the statements write |
| SlotRows.ColumnsUnits | src/servers/game/repositories/ItemRepository.cpp:116-126 | a bag or bank row holds exactly the units of its item; an equipment row holds none of a stack |
| SlotRows.SaveIsCompareAndSwap | src/servers/game/repositories/ItemRepository.cpp:46-131 | the guarded upsert is a compare-and-swap on the slot's real content if and only if a non-empty expectation names a row that exists |
| SlotRows.ClearIsCompareAndSwap | src/servers/game/repositories/ItemRepository.cpp:133-153 | the guarded clear is a compare-and-swap if and only if the row exists or something is expected in it |
| SlotRows.RunAllConcat | src/storage/Transaction.cpp:3-27 | a transaction is all of its statements in order or nothing, so cutting it in two changes nothing |
| SlotRows.RowsStay | src/servers/game/repositories/ItemRepository.h:30-34 | no transaction deletes a row or an account or touches a flag, so an expectation stays grounded |
| SlotRows.CommitTotals | src/servers/game/repositories/BankRepository.cpp:140-186 | a commit moves all money by exactly what its statements say, and the stored units of every item by that and what its inserts take for granted |
| SlotRows.ConjuresNothingIffBacked | src/servers/game/repositories/ItemRepository.cpp:46-131 | statements conjure nothing of any item if and only if each upsert's slot has a row or expects nothing that counts |
| SlotRows.CommitKeepsTables | src/servers/game/repositories/CharacterRepository.cpp:126-149 | no commit leaves a misshapen row or, with credits that are not negative, a balance below zero |
| Sessions.PipelineRanJob | src/servers/game/Persistence.h:32-52 | running a job keeps everything on its way in the order in which its callback will run |
| Sessions.StepKeepsSeparated | src/servers/game/handlers/Session.cpp:71-133 | every orderly step keeps what is on its way for a player's connection or character issued by exactly that session |
| Sessions.EnterKeepsSeparatedIff | src/servers/game/handlers/Session.cpp:71-104 | an entry keeps it if and only if neither its connection nor its character is in the world or loading |
| Sessions.OrderlyIffSeparated | src/servers/game/handlers/Session.cpp:71-133 | so sessions are kept apart at every state of a run if and only if the run is orderly |
| Sessions.CallbackFindsItsSession | src/servers/game/handlers/Session.cpp:77-102 | a callback finds on its connection the session that issued it or no player; a load finds neither its connection nor its character in the world |
| Plans.ValidationBuilds | src/servers/game/handlers/Inventory.cpp:50-73 | whatever a request queues is well-formed, whatever the caches hold |
| Plans.ValidationIsSound | src/servers/game/handlers/Inventory.cpp:50-73 | and it believes only in rows that exist when the caches do |
| Plans.LandRuns | src/servers/game/handlers/ItemConfirmNpc.cpp:244-260 | the rerolls that land form a successful run of the transaction and their fees fit the money seen |
| Plans.FreeSlotIsFree | src/servers/game/handlers/Quest.cpp:111-119 | the slot found is a bag slot of the character that holds nothing |
| Plans.StackSlotIsStack | src/servers/game/handlers/Quest.cpp:121-129 | the slot found holds a stack of that item |
| Plans.RewardsLand | src/servers/game/handlers/Quest.cpp:291-297 | the rewards granted form a successful run of bag saves grounded in the rows that exist |
| Rewards.GearLandsWhileItCan | src/servers/game/handlers/Quest.cpp:215-248 | gear lands piece by piece until its count is reached, the bag is full or the next free slot was taken meanwhile |
| Rewards.RewardGrants | src/servers/game/handlers/Quest.cpp:156-248 | a reward adds to its own item alone exactly the pieces or the stack the player is told of, less 2^32 for each wrap of the stack's sum |
| Rewards.GrantedItems | src/servers/game/handlers/Quest.cpp:156-248 | what is granted is the reward's item: gear unrefined and never appraised, a stack joining the first of its kind or else in the first free slot |
| Rewards.RewardsGrant | src/servers/game/handlers/Quest.cpp:291-297 | all rewards of a turn-in, each seeing the bag the ones before it left, add exactly what the player is told, less what wrapped stacks drop |
| Rewards.FitMeansNoneWrapped | src/servers/game/handlers/Quest.cpp:190-194 | nothing is dropped if and only if every stack that lands has room for what it takes |
| Rewards.RoomIsEnough | src/servers/game/handlers/Quest.cpp:190-194 | a guard on the bag seen and the quest alone suffices for that, whatever the tables hold by the time the job runs |
| Requests.MoveExchanges | src/servers/game/handlers/Inventory.cpp:98-162 | a move queues unless both slots are empty; its job exchanges the two slots and nothing else, if and only if both rows still are what the player saw |
| Requests.MoveTwiceIsNone | src/servers/game/handlers/Inventory.cpp:98-162 | asking for the same move again puts every row back, including that of a stack an equipment row cannot count |
| Requests.DropSplits | src/servers/game/handlers/Inventory.cpp:164-247 | the item is parted into a drop of what was asked for, at most what there is, and the rest, which stays; commits if and only if the row is unchanged |
| Requests.DropThenPickUpIsNone | src/servers/game/handlers/Inventory.cpp:50-247 | picking the drop up into the slot it came from puts every row back |
| Requests.DeleteEmpties | src/servers/game/handlers/Inventory.cpp:249-276 | exactly that slot is emptied, if and only if its row is what the player saw |
| Requests.WithdrawalCarries | src/servers/game/handlers/Store.cpp:195-287 | queued when the bag slot takes the item; commits if and only if both rows are unchanged and the wallet covers the fee; then the units asked for, at most what there is, change slots and the fee is paid |
| Requests.DepositCarries | src/servers/game/handlers/Store.cpp:289-371 | the same the other way, for free |
| Requests.DepositThenWithdrawIsNone | src/servers/game/handlers/Store.cpp:195-371 | withdrawing what was deposited in a free bank slot puts both rows back, level included; only the fee is gone |
| Requests.MoneyMoves | src/servers/game/handlers/Store.cpp:373-431 | a sum moves whole between wallet and bank if and only if the payer's balance covers it and the payee exists; nothing else changes |
| Requests.MoneyThereAndBackIsNone | src/servers/game/handlers/Store.cpp:373-431 | moving it back commits and leaves the tables as they were |
| Requests.PurchaseAdds | src/servers/game/handlers/Trade.cpp:36-101 | a purchase adds the units asked for at the table price of each, if and only if the row is unchanged and the wallet covers it |
| Requests.SaleRemoves | src/servers/game/handlers/Trade.cpp:103-179 | a sale removes what was offered, at most what there is, and earns the table price of each unit, if and only if the row is unchanged |
| Requests.BuyThenSellIsTheSpread | src/servers/game/handlers/Trade.cpp:36-179 | selling what was bought puts the row back and leaves the wallet short by the price spread of each unit |
| Requests.TurnInCommits | src/servers/game/handlers/Quest.cpp:277-340 | a turn-in commits if and only if its flag is unclaimed and its money has a wallet: a bag without room refuses nothing; the flag is claimed and the money paid exactly then |
| Requests.DuplicateIsRefused | src/servers/game/repositories/ItemRepository.h:30-34 | of a drop, deletion, transfer, purchase or sale sent twice before the first committed, the second is refused once the first has |
| Presence.WireSlotsComeBack | src/servers/game/handlers/Quest.cpp:131-134 | the number the client is told for a bag slot comes back as that slot from every request; below 13 it is equipment, or an index no bag has where only bag slots are known |
| Presence.OpeningShowsTheBank | src/servers/game/handlers/Store.cpp:121-158 | a committed opening changes no table and shows exactly the player's own bank: balance and the content of every row |
| Presence.ClosedBankIsShut | src/servers/game/handlers/Store.cpp:186-193 | after closing the bank nothing is deposited or withdrawn |
| Presence.PickupAdds | src/servers/game/handlers/Inventory.cpp:50-96 | a pickup queues when the drop lies on the player's map and the slot takes it; it commits if and only if the slot is unchanged and adds the drop's units |
| Presence.DropLiesWhereItWasDropped | src/servers/game/handlers/Inventory.cpp:164-247 | a committed drop lies on a free spot of the map its dropper was on when it asked |
| Presence.OnlyWarpsLeave | src/servers/game/handlers/Quest.cpp:258-272 | only the turn-in of a quest that warps queues work that leaves the world |
| Presence.WhoIsInTheWorld | src/servers/game/handlers/Session.cpp:77-104 | no request and no job adds or removes a player; a callback removes one only by a warp and adds one only by completing a load |
| Accounting.MessageCounts | src/servers/game/handlers/Inventory.cpp:50-96 | handling any request keeps drops unique and every item's units: a pickup only moves its drop into the queue |
| Accounting.JobCounts | src/servers/game/Persistence.h:32-52 | a job keeps drops unique and moves units by its statements and what they conjure when it commits, and by nothing when it does not |
| Accounting.CallbackCounts | src/servers/game/handlers/Inventory.cpp:217-247 | a callback keeps drops unique and the units, whichever session it meets: a refused pickup or a committed drop lands on a free spot |
| Accounting.RunAccounts | src/servers/game/handlers/Store.cpp:195-431 | over every run whatsoever the units of each item change by exactly the flows of the committed jobs and expired drops and what was conjured |
| Accounting.UnitsFollowFlowsIffBacked | src/servers/game/repositories/ItemRepository.cpp:46-131 | so over any run the units of all items follow the flows if and only if every job that commits is backed |
| Accounting.RunPays | src/servers/game/handlers/Store.cpp:373-431 | over every run whatsoever all money changes by exactly the statements of the committed jobs |
| Accounting.RunKeepsTables | src/servers/game/repositories/CharacterRepository.cpp:126-149 | over every run whatsoever no balance is driven below zero and no row loses its shape |
| Accounting.StepKeepsBuilt | src/servers/game/world/Character.cpp:93-119 | every step keeps queued work well-formed and caches to their own slots, whoever a callback meets |
| Conservation.StepKeepsRooted | src/servers/game/repositories/ItemRepository.h:30-34 | while sessions are kept apart, every step keeps every queued, reported and cached belief about a slot on a row that exists |
| Conservation.StepConserves | src/servers/game/handlers/Inventory.cpp:50-276 | every orderly step keeps the invariant and moves the totals by its own flow |
| Conservation.OrderlyRunsAreBacked | src/servers/game/handlers/Session.cpp:71-104 | orderly runs keep the invariant, and nothing is conjured in them |
| Conservation.RunConserves | src/servers/game/handlers/Store.cpp:195-431 | so over every orderly run of any number of players units and money follow the flows |
| Exactness.FlowIsIntentLessLoss | src/servers/game/handlers/Trade.cpp:36-179 | each committed job moves the units the player was told about less the units lost to a wrapped stack or an equipment row; for rewards both sides are counted reward by reward |
| Exactness.ExactIffLossless | src/servers/game/handlers/Inventory.cpp:116-127 | a committed job moves exactly the intended units of every item if and only if its guard holds |
| Exactness.StackLostInEquipment | src/servers/game/repositories/ItemRepository.cpp:56-76 | a stack of five moved into an equipment slot is gone: the guard's failure is real |
| Exactness.RewardLostInWrap | src/servers/game/handlers/Quest.cpp:190-194 | a reward of one joining a stack of 2^32 - 1 commits and leaves nothing of either |
| Exactness.UnitsAccounted | src/servers/game/handlers/Inventory.cpp:50-247 | over every run whatsoever units change by purchases, sales, deletions, rewards and expiry, less the losses, and by what was conjured |
| Exactness.AdmittedRunsLoseNothing | src/servers/game/handlers/Store.cpp:195-371 | nothing is lost over any run whose requests pass a guard on their captured values when they are handled |
| Exactness.UnitsConservedIffBacked | src/servers/game/handlers/Inventory.cpp:50-247 | over any such run units change by exactly the purchases, sales, deletions, rewards and expiries if and only if every job that commits is backed |
| Exactness.UnitsConserved | src/servers/game/handlers/Inventory.cpp:50-247 | so over such a run that is orderly that is all that changes |
| Exactness.MoneyFlowIsPrice | src/servers/game/handlers/Store.cpp:373-431 | a transfer between wallet and bank keeps their sum; a purchase, sale, fee or reward moves it by its price |
| Exactness.TradesArePricedPerUnit | src/servers/game/handlers/Trade.cpp:48-135 | a queued purchase or sale costs or earns the table price for each unit it moves |
| Exactness.MoneyConserved | src/servers/game/repositories/BankRepository.cpp:40-63 | over every run whatsoever all money changes by exactly the sales and quest rewards less purchases and fees |
| CacheAgreement.ReportMirrorsPlan | src/servers/game/handlers/Inventory.cpp:129-161 | each completion repeats in memory, in order, exactly the slot statements its transaction made |
| CacheAgreement.ReportTellsWealth | src/servers/game/handlers/Store.cpp:78-88 | a completion leaves the wallet in memory at the balance in the table |
| CacheAgreement.EchoesAgree | src/servers/game/world/Character.cpp:93-119 | repeating landed statements on an agreeing cache gives an agreeing cache |
| CacheRuns.CommitAgrees | src/servers/game/handlers/Store.cpp:254-286 | a commit followed by its callback keeps the issuing character's memory equal to its rows and wallet |
| CacheRuns.CommitSparesOthers | src/servers/game/handlers/Store.cpp:234-252 | a commit contradicts nobody else's memory |
| CacheRuns.LoadAgrees | src/servers/game/repositories/CharacterRepository.cpp:100-101 | a loaded character equals its rows |
| CacheRuns.RunFollows | src/servers/game/Persistence.h:30-52 | at every state of every orderly run, applying the callbacks on their way to a player's memory gives exactly the tables |
| CacheRuns.QuietAgreement | src/servers/game/handlers/Session.cpp:71-104 | from a started server, whenever nothing is on its way, memory equals the tables |
| Gates.QuestCommitsOnce | src/servers/game/handlers/Quest.cpp:277-289 | over every run whatsoever a flagged quest's consequences commit at most once per character, and once exactly when its flag gets claimed |
| Gates.AppraisalLandsOnce | src/servers/game/handlers/ItemConfirmNpc.cpp:244-257 | a slot lands at most once even if listed twice, and only where the row still is the never-appraised original |
| Gates.LandedRerollsStand | src/servers/game/handlers/ItemConfirmNpc.cpp:244-257 | every landed reroll is in its row once the transaction has run |
| Appraisals.CandidatesAre | src/servers/game/handlers/ItemConfirmNpc.cpp:208-231 | position by position, a listed slot becomes a candidate if and only if its wire is 8 to 47 and it holds a known, unstackable, never appraised item below level ninety; it then is that item with that roll for its sell price, in order |
| Appraisals.LandsOneByOne | src/servers/game/handlers/ItemConfirmNpc.cpp:244-257 | a candidate lands if and only if its fee fits what the ones before it left of the money seen and its row still is its original |
| Appraisals.AppraisalCharges | src/servers/game/handlers/ItemConfirmNpc.cpp:185-267 | one to eight slots may be listed; a commit debits exactly the sell prices of the items whose rolls landed |
| Gates.AppraisalIsPaid | src/servers/game/handlers/ItemConfirmNpc.cpp:258-267 | an appraisal that commits landed something and debited exactly the landed fees from a wallet that held them |
| Gates.EmptyingWithdrawalLocksBank | src/servers/game/repositories/BankRepository.cpp:168-186 | so a withdrawal that empties a bank slot makes the next opening fail |
| Disorder.UnorderlyEnterConfusesMemory | src/servers/game/handlers/Session.cpp:75-104 | a concrete run with two loads in flight on one connection ends with the second character's memory contradicting its rows |
| Disorder.UnorderlyEnterDoublesUnits | src/servers/game/handlers/Session.cpp:71-104 | a concrete run in which a move's completion reaches another character and a drop from it is inserted turns five units into ten |
| GameServer.Database.LoadAllItems | src/servers/game/repositories/BankRepository.cpp:73-107 | reading the rows in any order succeeds if and only if none of the bank's rows is cleared, and then gives exactly their items |
| GameServer.Database.LandCandidates | src/servers/game/handlers/ItemConfirmNpc.cpp:246-257 | the loop over the candidates lands the rerolls the specification lands, and leaves the tables it says |
| GameServer.Database.GiveReward | src/servers/game/handlers/Quest.cpp:156-248 | granting one reward makes exactly the specified saves |
| GameServer.FindFreeBagSlot | src/servers/game/handlers/Quest.cpp:111-119 | the slot found is the first free bag slot; none is found if and only if the bag is full |
| GameServer.FindStackableBagSlot | src/servers/game/handlers/Quest.cpp:121-129 | the slot found is the first stack of the item in inventory order; none is found only if there is none |
| GameServer.CollectCandidates | src/servers/game/handlers/ItemConfirmNpc.cpp:208-231 | the loop lists exactly the appraisable slots that have a roll, each as its item with that roll for its sell price, in order |
| GameServer.Server.HandleItemPickup | src/servers/game/handlers/Inventory.cpp:50-96 | the handler makes the protocol's pickup step, putting back a drop that cannot stack |
| GameServer.Server.HandleItemConfirmNpcRequest | src/servers/game/handlers/ItemConfirmNpc.cpp:185-231 | the handler makes the protocol's appraisal step |
| GameServer.Server.RunNextJob | src/servers/game/Persistence.cpp:16-43 | a job that fails or throws leaves the tables as they were and posts its refusal; one that succeeds posts its result |
| GameServer.Server.RunNextCallback | src/servers/game/handlers/Inventory.cpp:217-247 | a completion applies its effects to whoever the connection's player now is |
| GameServer.Server.Take | src/servers/game/Persistence.h:14-52 | each step, every kind of request through its own handler included, is on mutable state exactly the step of the protocol |
| GameServer.Server.Serve | src/servers/game/Persistence.h:14-52 | a whole run of the server, whatever clients send, moves units and money by its flows and what it conjures; an orderly one conjures nothing and keeps memory following the tables |
| CharacterSlots.SlotCache.Get | src/servers/game/world/Character.cpp:145-154 | the linear search reads the map the entry vector stands for |
| CharacterSlots.SlotCache.Set | src/servers/game/world/Character.cpp:73-85 | overwriting in place or appending updates exactly one key of that map |
| CharacterSlots.SlotCache.Clear | src/servers/game/world/Character.cpp:87-91 | erasing removes exactly one key of that map |
| Visibility.BatchesLoad | src/servers/game/world/systems/MovementSystem.cpp:119-130 | arrivals sent in batches of at most eleven load exactly the arrivals, none twice |
| Visibility.BatchesAreFull | src/servers/game/world/systems/MovementSystem.cpp:119-130 | every batch but the last is full |
| Visibility.RemovalComesLast | src/servers/game/world/systems/MovementSystem.cpp:119-174 | a viewer loads everybody who came before it drops everybody who left |
| Visibility.NextKeepsConsistent | src/servers/game/world/systems/MovementSystem.cpp:281-333 | every spawn, walk, departure and handled event keeps the lists mutual and ownerless, explains every stale pair by a pending zone change and every departed id by a pending departure, and keeps each client's messages adding up to its list |
| Visibility.RunIsConsistent | src/servers/game/world/Map.cpp:83-179 | this holds at every state reachable from an empty map |
| Visibility.DrainedViewsAreExact | src/servers/game/world/systems/MovementSystem.cpp:112-174 | once no event is pending, each list and each client has exactly the other players in adjacent zones |
| Visibility.WalkReachesThoseWhoSeeIt | src/servers/game/world/systems/MovementSystem.cpp:176-199 | a walk is sent to exactly the walker and the clients that have it loaded |
| Visibility.WalkReachesTheNear | src/servers/game/world/Map.cpp:157-176 | on a quiet map a walk, once the change of zone queued ahead of it is handled, is sent to the walker and exactly the players around where it now is |
| MovementSystem.LowerBound | src/servers/game/world/systems/MovementSystem.cpp:34-37 | bisection finds the first id not below the one looked for |
| MovementSystem.Insert | src/servers/game/world/systems/MovementSystem.cpp:34-42 | the sorted list gains the id once and reports whether it was new |
| MovementSystem.Erase | src/servers/game/world/systems/MovementSystem.cpp:45-53 | the sorted list loses the id and reports whether it had it |
| MovementSystem.Pack | src/servers/game/world/systems/MovementSystem.cpp:118-130 | the sending loop produces exactly the batches |
| MovementSystem.Map.Spawn | src/servers/game/world/Map.cpp:83-102 | placing a player publishes its zone change, starts it with nothing loaded and keeps the index agreeing with the pool |
| MovementSystem.Map.Move | src/servers/game/world/Map.cpp:140-179 | a walk re-indexes the player and publishes a zone change ahead of itself when the zone changed, so that on a quiet map it reaches exactly those around the new place |
| MovementSystem.Map.Despawn | src/servers/game/world/Map.cpp:114-129 | a departure frees the pool slot, publishes the leave, leaves the other lists as they are and takes the player off the index |
| MovementSystem.Map.ViewersOf | src/servers/game/world/Map.h:62-70 | the viewers of a zone are exactly the players on the map whose in-grid zone touches it, each once; with no event pending these are those standing there and those who have them loaded |
| MovementSystem.Map.SyncVisiblePlayers | src/servers/game/world/systems/MovementSystem.cpp:281-333 | both halves together leave the viewer with exactly the adjacent players and everyone else's list changed by the viewer alone |
| MovementSystem.Map.SendViewChange | src/servers/game/world/systems/MovementSystem.cpp:112-174 | handling a zone change rebuilds the view both ways and tells everyone concerned |
| MovementSystem.Map.SendCharRemove | src/servers/game/world/systems/MovementSystem.cpp:201-214 | handling a departure drops it from every list and tells exactly the clients that had it |
| MovementSystem.Map.SendCharMove | src/servers/game/world/systems/MovementSystem.cpp:176-199 | the recipients are the walker and the listed players still there; on a quiet map the walker and exactly the players around it |
| MovementSystem.Map.HandleNext | src/servers/game/world/systems/MovementSystem.cpp:102-110 | the oldest event goes to its listener, which keeps the map consistent and leaves a walk behind a zone change ready to go out |
| MovementSystem.Map.Dispatch | src/servers/game/world/systems/MovementSystem.cpp:102-110 | draining the queue leaves every list and client with exactly the players around |
| MovementSystem.Map.Live | src/servers/game/world/Map.cpp:83-179 | from an empty map, whatever is placed, walks, leaves, is handled or drained in any order, lists, clients and index stay explained by what is pending, and are exact after a drain |
| VisibilityIndex.OnGridIffZoneIs | src/servers/game/world/Zone.cpp:10-19 | a position is on the map's grid if and only if its zone is on the zone grid |
| VisibilityIndex.TilesInView | src/servers/game/world/Zone.cpp:45-48 | tiles at most sixteen apart are in each other's view, tiles thirty-two apart or more are not |
| VisibilityIndex.Around | src/servers/game/world/Zone.cpp:27-43 | the block is exactly the grid's zones touching the centre, each once |
| VisibilityIndex.VisibilityIndex.Add | src/servers/game/world/VisibilityIndex.cpp:5-12 | afterwards an id is listed under a zone exactly once if and only if its player's in-grid zone touches it |
| VisibilityIndex.VisibilityIndex.Move | src/servers/game/world/VisibilityIndex.cpp:14-23 | the same after a move |
| VisibilityIndex.VisibilityIndex.Remove | src/servers/game/world/VisibilityIndex.cpp:25-32 | the same after a removal |
| VisibilityIndex.IndexedViewersHaveLoaded | src/servers/game/world/VisibilityIndex.h:11-12 | with no event pending, the players indexed under a player's zone are, as far as they are on the grid, it and those who have it loaded |
| Pool.Pool.Add | src/servers/game/world/common/Pool.h:23-32 | adding refines a map update and refuses a key already there |
| Pool.Pool.Remove | src/servers/game/world/common/Pool.h:36-57 | removal by moving the last value into the gap refines removal from a map and hands the value back |
| Pool.Pool.IterationCovers | src/servers/game/world/common/Pool.h:76-79 | iterating visits every entry of the map exactly once |
| World.World.OnePlayerEach | src/servers/game/world/World.cpp:69-87 | no two players in the world share a connection or a character |
| World.World.SessionsIffPooled | src/servers/game/world/World.cpp:117-120 | a character is online, and a connection has a player, if and only if a pooled player is theirs |
| World.World.Join | src/servers/game/world/World.cpp:69-87 | joining adds exactly that player when its map is loaded, its character offline, its connection free and its id unused, and nothing otherwise |
| World.World.Leave | src/servers/game/world/World.cpp:89-105 | leaving removes exactly the connection's player |
| World.World.FindPlayer | src/servers/game/world/World.cpp:107-115 | the lookup finds the connection's player or there is none |
| EventBus.EventBus.Publish | src/servers/game/world/common/EventBus.h:116-122 | publishing appends to the one queue the per-type vectors stand for |
| EventBus.EventBus.TakePending | src/servers/game/world/common/EventBus.h:124-131 | swapping the log and each type's vector once keeps the publish order across types |
| EventBus.EventBus.Dispatch | src/servers/game/world/common/EventBus.h:124-147 | a dispatch refines draining that queue: listeners' own events wait, and the bus is clean even after a throw |
| EventBus.DrainDelivers | src/servers/game/world/common/EventBus.h:124-147 | what is delivered is the batch in order up to and including the first event whose listeners throw |
| EventBus.BusIsFifo | src/servers/game/world/common/EventBus.h:116-147 | over any run without throws, what was delivered then what is queued is what was published, in publish order |
| EventBus.DispatchLosesIffThrown | src/servers/game/world/common/EventBus.h:134-143 | a dispatch loses events if and only if a listener throws before the last one |
| Cipher.PermutationsInverse | src/servers/login/cipher/DESCipher.h:48-60 | the final permutation inverts the initial one and conversely |
| Cipher.ExpansionOverlaps | src/servers/login/cipher/DESCipher.h:37-41 | the expansion takes each group of four bits with the bit on either side, around the half |
| Cipher.RoundPermutationInverts | src/servers/login/cipher/DESCipher.h:43-46 | the round permutation has an inverse |
| Cipher.DESCipher.BoxRule | src/servers/login/cipher/DESCipher.cpp:26-34 | the outer two bits of six name a box's row and the inner four its column |
| CipherBlock.RoundIsFeistel | src/servers/login/cipher/DESCipher.cpp:8-42 | for boxes and keys that can be worked out, the round function is the one written out group by group |
| CipherBlock.FinalBit | src/servers/login/cipher/DESCipher.h:55-60 | which bit of which half every bit of the output is |
| CipherBlock.ZeroBlockEnciphered | src/servers/login/cipher/DESCipher.cpp:77-108 | one block under these boxes and keys in full, which fixes the round permutation, the key bits of every round and the direction of the rounds |
| Cipher.DESCipher.LoopsUndo | src/servers/login/cipher/DESCipher.cpp:56-61 | the two sixteen-round loops undo each other whatever the round function computes |
| Cipher.DESCipher.ComputeFeistel | src/servers/login/cipher/DESCipher.cpp:8-42 | the bit loops compute the expansion, key mixing, substitution and permutation that BoxRule, ExpansionOverlaps and ZeroBlockEnciphered fix |
| Cipher.DESCipher.WordRoundTrip | src/servers/login/cipher/DESCipher.cpp:44-108 | deciphering undoes enciphering on every word and conversely, for any boxes and round keys |
| Cipher.DESCipher.EncryptBlock | src/servers/login/cipher/DESCipher.cpp:77-108 | the block method computes the specified word and bytes |
| Cipher.DESCipher.DecryptBlock | src/servers/login/cipher/DESCipher.cpp:44-75 | the block method computes the specified word and bytes |
| Cipher.DESCipher.EcbRoundTrip | src/servers/login/cipher/DESCipher.cpp:110-142 | each direction undoes the other if and only if the input is made of whole blocks |
| Cipher.DESCipher.EncryptECB | src/servers/login/cipher/DESCipher.cpp:110-125 | the loop enciphers block by block and returns nothing for a broken length |
| Cipher.DESCipher.DecryptECB | src/servers/login/cipher/DESCipher.cpp:127-142 | the loop deciphers block by block and returns nothing for a broken length |
| Framing.MaskInPlace | src/servers/login/LoginPacket.cpp:34-38 | the in-place loop is the repeating-key mask, and an empty key changes nothing |
| Framing.FrameLayout | src/servers/login/LoginPacket.cpp:50-73 | every frame byte by byte: the length in the clear and lowest byte first, then under the key from its start the code, lowest byte first, and the payload |
| Framing.Serialize | src/servers/login/LoginPacket.cpp:50-73 | the frame is the length prefix and the masked code and payload; the 32-bit lengths wrap, and a copy leaves its buffer, if and only if the payload's length plus eight does not fit |
| Framing.Deserialize | src/servers/login/LoginPacket.cpp:9-48 | a buffer shorter than it says is refused, one that says less than eight is read out of bounds, any other is unmasked |
| Framing.PacketRoundTrip | src/servers/login/LoginPacket.cpp:9-73 | reading a serialized packet under the same key gives the packet, and its prefix is its length |
| Framing.FramesAreRead | src/common/Server.cpp:74-113 | whatever bytes arrive, no frame the connection cuts off them is refused or read out of bounds |
| Framing.Connection.DrainFrames | src/common/Server.cpp:74-113 | the loop terminates and takes off exactly the frames the buffer holds in full |
| Framing.DrainInTwo | src/common/Server.cpp:74-113 | draining early changes nothing about frames or left-over bytes |
| Framing.CutsAgreeIffClean | src/common/Server.cpp:60-113 | frames and left-over bytes are independent of how the stream is cut into reads if and only if nothing follows the first length prefix under eight |
| Framing.FiveZerosDependOnTheCut | src/common/Server.cpp:74-113 | five zero bytes leave nothing when read at once and one byte when read as four and one |
| Framing.PacketsArriveHoweverCut | src/common/Server.cpp:60-113 | packets serialized under one key arrive as the same packets in order however the bytes are cut, and a started frame is left over |
| ScrTable.MakeToken | src/servers/game/parser/ScrTable.cpp:23-36 | the two scans trim blanks from both ends |
| ScrTable.ReadLine | src/servers/game/parser/ScrTable.h:80-129 | the single scan of a line yields its trimmed cells without the empty ones at the end |
| ScrTable.Parse | src/servers/game/parser/ScrTable.h:66-145 | the pass calls back exactly the rows of the text with consecutive indices |
| ScrTable.LineFeedAddsNothing | src/servers/game/parser/ScrTable.h:131-143 | a line feed at the start of a text adds no row, so mixed line endings cannot split a row |
| ScrTable.RenderedParses | src/servers/game/parser/ScrTable.h:66-145 | reading any rendered document gives the trimmed cells of its lines, whatever the endings |
| ScrTable.PrintedRowsParse | src/servers/game/parser/ScrTable.h:115-131 | rows printed with any padding, trailing pipes, endings and blank lines between them are read back exactly |
| ScrTable.KnownText | src/servers/game/parser/ScrTable.h:66-145 | one text with blanks, a tab, a trailing pipe, empty cells and two line endings, in full |
| Random.PublishedNumbers | src/common/Random.h:18-24 | the first two numbers are those published for SplitMix64 |
| Random.MixIsBijection | src/common/Random.h:18-24 | the mixer has a two-sided inverse on sixty-four bits |
| Random.Generator.Next | src/common/Random.h:26-30 | whatever has been drawn, by calls and bounded rolls alike, is the one sequence of mixed counters from zero |
| Random.Generator.Below | src/common/Random.h:33-36 | a roll below a positive bound is below it and consumes exactly the next number of that sequence; an empty range consumes none |
| Random.OutputsDistinctIffWithinPeriod | src/common/Random.h:9-13 | the numbers of a run are pairwise distinct if and only if the run has at most 2^64 calls |
| LevelUp.CheckConservesExp | src/servers/game/handlers/LevelUp.cpp:26-42 | experience before a check is experience after it plus the thresholds of the levels crossed |
| LevelUp.CheckCrossesExactly | src/servers/game/handlers/LevelUp.cpp:26-42 | the levels crossed are exactly those whose threshold the experience left exceeds, and the points awarded are theirs |
| LevelUp.CheckTwiceIsCheckOnce | src/servers/game/handlers/LevelUp.cpp:26-42 | checking, adding experience and checking again gives the level, experience and points of adding first and checking once |
| LevelUp.LevelUpIsConfluentIff | src/servers/game/world/Player.cpp:81-90 | on any table, whether a check comes before or after the saturating reward makes no difference if and only if the check costs nothing or the reward fits before and after it |
| LevelUp.LevelUpIsConfluentIffItFits | src/servers/game/world/Player.cpp:81-90 | without negative thresholds, if and only if the first threshold that costs anything is not exceeded or the reward fits |
| LevelUp.SaturatedRewardDependsOnOrder | src/servers/game/world/Player.cpp:81-90 | a concrete reward that saturates gives two different results |
| LevelUp.Account.HandleLevelUpCheck | src/servers/game/handlers/LevelUp.cpp:17-80 | the loop terminates on any table and computes the check, with points added up first and cast once |
| LevelUp.Account.GainExperience | src/servers/game/handlers/Combat.cpp:34-39 | the queued credit keeps the row on course to what memory holds if and only if experience was not negative |
| LevelUp.Account.RunNextJob | src/servers/game/repositories/CharacterRepository.cpp:161-202 | jobs in order keep that, and once none is left the row equals memory |
| Creatures.Creature.TakeDamage | src/servers/game/world/Creature.cpp:51-106 | after any hits and ticks the creature is what they make of a new one and has published exactly their kills, rewards and returns |
| Creatures.Creature.Tick | src/servers/game/world/Creature.cpp:137-151 | the same after a tick |
| Creatures.Player.Attack | src/servers/game/world/Player.cpp:17-90 | a misplaced or distant attack changes nothing; a killing blow publishes its attacker and grants its saturating reward once |
| Creatures.LivesAddUp | src/servers/game/world/Creature.cpp:51-151 | over any run of hits and ticks each life takes damage summing to the template's hp, ends in one kill and one reward, and another life begins only by a return |
| Creatures.DefenseTakesOff | src/servers/game/world/Player.cpp:39-50 | without defense a hit takes the power as far as it fits; each point of defense takes exactly one off, down to one |
| Creatures.AttacksNeeded | src/servers/game/world/Player.cpp:39-50 | a monster of hp falls to exactly hp / damage attacks, rounded up |
| Creatures.ReturnsOnTime | src/servers/game/world/Creature.cpp:137-151 | the return falls on the first tick by which the respawn time has passed; a terminal death never returns |
| Creatures.KilledReturnsOnTime | src/servers/game/world/Creature.cpp:71-151 | a monster killed after any hits and ticks returns, as new, on the first tick by which its whole respawn time has passed since, or never |
| CreatureAi.SelectAggroCandidate | src/servers/game/world/ai/CreatureAiSensing.h:16-47 | the choice is the living player in range that is nearest, lower id first, or none |
| CreatureAi.ChoiceIgnoresOrder | src/servers/game/world/ai/CreatureAiSensing.h:14-47 | the choice does not depend on pool order |
| CreatureAi.Monster.TickCreatureAi | src/servers/game/world/Map.cpp:274-370 | sensing among the map's players, the coordinator's fields and the map's commit make the specified tick |
| CreatureAi.StaysOnGridAndClose | src/servers/game/world/Grid.h:21-26 | over any ticks a creature stays on the grid, no farther from where it was than one tile for each decision |
| CreatureAi.StepCloses | src/servers/game/world/Map.cpp:326-336 | a chase step closes the distance by exactly one and stays on the grid |
| CreatureAi.HuntReachesTheTarget | src/servers/game/world/ai/states/ChaseState.cpp:33-53 | against a living target staying in aggro range the decisions are exactly the missing moves and then attacks, however the ticks fall |
| CreatureAi.HuntStep | src/servers/game/world/ai/states/AttackingState.cpp:31-53 | each hunting decision is a move while one is missing and an attack after, and sets the delay of its state |
| CreatureAi.GivesUpIffLost | src/servers/game/world/ai/states/ChaseState.cpp:33-53 | a hunter whose decision falls due gives up if and only if its target is gone, dead or out of aggro range |
| CreatureAi.IdlesOrSetsOut | src/servers/game/world/ai/states/IdleState.cpp:33-48 | an idle monster that sees nobody rests two seconds and the jitter or sets out on its number of steps |
| CreatureAi.StrollsByItsDraw | src/servers/game/world/Map.cpp:317-325 | a stroll moves by exactly its draw, stopped only by the border, and pauses five seconds and the jitter before the next |
| CreatureAi.SeenIffThere | src/servers/game/world/Map.cpp:296-304 | the target is seen if and only if the player with its id is on the map and alive |
| CreatureAi.NoticeStartsTheHunt | src/servers/game/world/ai/states/IdleState.cpp:33-48 | an idle monster goes after the nearest living player in range on the tick its decision falls due, and hunts it down if it stays; with nobody in range it only rests or wanders |
| CreatureAi.DueInTime | src/servers/game/world/ai/states/StateSupport.cpp:10-20 | a decision falls due if and only if the timer's time has passed |
| CreatureAi.WanderMakesItsSteps | src/servers/game/world/ai/states/WanderState.cpp:44-67 | a wander makes exactly its number of attempts, whatever comes in sight |
| OptionBits.SharesAreDocumented | src/servers/game/handlers/ItemConfirmNpc.cpp:69-127 | of a thousand rolls every tier and every number of activated gates has exactly its documented share |
| OptionBits.EligibleGates | src/servers/game/handlers/ItemConfirmNpc.cpp:142-152 | the eligible gates are exactly those with a nonzero scale, in order |
| OptionBits.PackTiers | src/servers/game/handlers/ItemConfirmNpc.cpp:168-181 | the loop packs the tiers, stays under 2^30 and never yields the never-appraised mark |
| OptionBits.GateWeighs | src/servers/game/handlers/ItemConfirmNpc.cpp:168-181 | one tier more at gate i adds exactly eight to the i |
| OptionBits.RollReadsBackIff | src/servers/game/stats/ItemStatCalculator.cpp:25-39 | what the calculator reads is what was rolled if and only if not every gate rolled tier 0 |
| OptionBits.RollsDeviate | src/servers/game/stats/ItemStatCalculator.cpp:25-39 | only drawn gates deviate, each by its own roll, if and only if some gate was not drawn or rolled above tier 0 |
| OptionBits.NeverAppraisedReadsAsTheBest | src/servers/game/stats/ItemStatCalculator.cpp:86-88 | an item nobody appraised reads as five tiers above baseline at every gate |

## Left out

- Sockets, strands, threads and SQLite: queues, maps and atomic transactions stand for them.
- Packet capture, logging, opcode names, replies to requests and most protocol messages.
- Bank passwords and creating a bank account; saving positions, vitals, fame and raw stats.
- Quest experience and fame: only rewards, money, the flag and the warp of a turn-in are modelled; quest conditions are an input.
- CG_ENTER's check of session, account and name; the map a character is loaded into is an input of the load step, and a map that
  is not loaded is not modelled there (World models it).
- Bank caches against the tables after reopening, and two characters sharing one bank: only table-side bank properties are proved.
- item_level through the bank, which has no such column: units are kept, the level is not claimed.
- Replication of creatures and drops to clients, and the creature half of ViewRemoveAll.
- Maps in MovementSystem know a player's zone, not its tile; a walk off the grid is refused before it gets there.
- MovementSystem.Map keeps its event queue as a sequence and its pool as a dense order of its own; a throwing listener is not modelled there.
- EventBus registers listeners as one function of everything delivered so far; type-indexed handler storage and the mutex are not modelled.
- Cipher: the program's own boxes and keys and reading them from their hexadecimal text; and the Blowfish cipher, which lives in another library.
- Framing.Deserialize: what a read out of bounds returns; the model only says when one would happen, and that no frame of a connection makes it.
- Framing.Serialize: what a copy past its buffer leaves behind; the model only says when one would happen.
- LevelUp.LevelUpIsConfluentIff: checks whose sum leaves 64 bits, which only negative thresholds can cause.
- LevelUp: experience from quests while kills are in flight, unallocated skill points after a reload, and failed saves.
- Requests.DepositThenWithdrawIsNone: a bank slot that already holds a stack of the item, where more may be withdrawn than was deposited.
- Requests.DuplicateIsRefused: what other jobs do between the two; appraisals and repeated money transfers, which may rightly commit twice.
- OptionBits: which of the eligible gates a roll draws, and how likely, is an input.
- CreatureAi: facing direction, the jitter's distribution, and aggro while the target walks.
- Floating-point stat formulas, refine growth, item and monster table loading and column mapping.
