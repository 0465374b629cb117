# A verified model of the UPnP SDK's stateful core

This project models, in Dafny, the parts of the SDK and its TV sample that keep state over time, and
proves what holds of them over every input, every run and every interleaving of their operations. To check
the whole project, use `dafny verify dfyconfig.toml`.

**Eventing, subscriber side** (`Gena*.dfy`). Subscribe, renew, auto-renew, unsubscribe, unregister and the
NOTIFY handler run in different threads over one subscription list per client, a timer and two locks, and
drop the handle lock for every network call. `GenaModel` is a step system: each operation is a thread with a
program counter that follows the function branch by branch; a step is one lock operation, one network
exchange (any answer), one callback, or one piece of work in a critical section. A run (`IsRun`) is any
interleaving from the empty system, and the main results speak about all of them. `GenaLocks` holds the lock
discipline, `GenaData`, `GenaInvariant` and `GenaSystem` the invariant of the shared data and of the threads'
local variables, `GenaProperties` and `GenaTimers` the results, `GenaGrants` what the publishers' answers leave
behind, `GenaOutcomes` what each operation asks, returns and reports, `GenaScenarios` the bad states and the paths that
lead to them, and `GenaUnregister` the unregistering loop.

**Handle table and shutdown** (`SdkHandles.dfy`), **virtual directories** (`VirtualDirs.dfy`, a heap list),
**automatic re-advertisement** (`Advertisement.dfy`), **IPv6 prefix length** (`Ipv6Prefix.dfy`) and
**document builders** (`Builders.dfy`) model the SDK; **device list** (`DeviceList.dfy`, a heap list aged in
place, and `DeviceRuns.dfy`), **state table of the TV device** (`TvText.dfy`, `TvDevice.dfy`,
`TvInterleavings.dfy`, `TvLostUpdates.dfy`) and the **reader of property sets** (`StateUpdate.dfy`) model the sample.

Where the code does not do what one might expect, the code is followed, and the exact condition is proved under
which it does; the paths into the bad states start in every reachable state of the given kind:

- The argument of a scheduled renewal is still allocated when its event id is copied, even if the timer has
  already fired, if and only if the thread pool did not refuse the job (`ArgumentAliveWhenRead`;
  `RefusedJobIsReadAfterFree` is the path).
- A finite subscription always has a pending timer or a renewal in flight, unless it is being unsubscribed or the
  thread pool has refused its job and no renewal has looked at it since (`CoveredUnlessRefused`); a refused job does
  leave it without either, and nobody is told (`RefusedStrands`).
- No subscription ever has two of pending timer and renewal in flight if and only if no renewal, whoever asked for
  it, looks at a subscription while another renewal of it is in flight (`OneAtMostIff`). Renewals that come only
  from the timer meet this of themselves (`TimerOnlyIsExclusive`). Any two renewals of one listed subscription that
  overlap can leave two timers (`TwoRenewalsTwoTimers`): two asked for by the application
  (`TwoApplicationRenewals`), or one that meets the timer's own (`RenewalRacesTimer`).
- The SID header of an event is matched as a prefix of the stored SID
  (`compa/src/genlib/client_table/client_table.cpp:90-103`). An event is delivered under the subscription of exactly
  its SID if and only if the client's list has that before any other whose SID the header is a prefix of
  (`DeliversExactlyIff`); `EventForAnother` is a path on which it is delivered under another. The first event always
  reaches the client (`FirstEventNeverLost`), under the subscription's own SID if and only if that is what the handler
  finds first when it looks at the client (`FirstEventUnderOwnIff`).
- genaSubscribe comes to delete a subscription that is in the list if and only if its renewal cannot be scheduled
  (`LinkedDeleteIff`; `FailedScheduleDeletesLinked` is the path); the model follows it up to that deletion. Every
  genaSubscribe that returns an error has entered nothing (`SubscribeOutcome`).
- `UpnpFinish` removes at most one device of each address family, because unregistering a device clears the
  family's flag: it empties the table if and only if no family has more devices than its flag says
  (`FinishEmptiesIff`, `DeviceLeftBehind`).
- A requested lifetime of 61 seconds is just above the clamp and gives a delay of 0 seconds, so the device
  advertises without pause; 61 is the only such request (`NoPauseIff`). A low-power announcement is overwritten
  by the first automatic re-advertisement unless it announces nothing (`LowPowerKeptIff`).
- Building an action argument by argument gives the same document as building it at once, except that an
  empty list gives no document (`ActionBuildersAgree`); likewise for property sets until the first argument
  with a name (`PropertySetBuildersAgree`).
- If a TV variable is only increased, its value is the start value plus the number of writes if and only if no write
  falls between the reading and the writing of another increment (`IncreasesAddUpIff`; `IncrementLost` is the path).

## Model

| member | source | states |
|---|---|---|
| `GenaLocks.LockDiscipline` | compa/src/gena/gena_ctrlpt.cpp:81-823 | At every point of every run: a returned operation holds no lock; no request and no callback under the handle lock; a lock is taken only by a thread that does not hold it and dropped only by one that does |
| `GenaLocks.ListsChangeUnderWriteLock` | compa/src/gena/gena_ctrlpt.cpp:419-685 | A subscription list changes only in a step of the thread that owns the write lock, or when a client registers while the lock is free |
| `GenaLocks.StepKeepsLocks` | compa/src/gena/gena_ctrlpt.cpp:81-823 | Every step of every operation keeps the agreement between lock owners and program counters |
| `GenaLocks.RunKeepsLocks` | compa/src/gena/gena_ctrlpt.cpp:81-823 | That agreement holds in every state of every run |
| `GenaData.CancelKeeps` | compa/src/threadutil/TimerThread.cpp:304-335 | Removing a timer and freeing its argument keeps the invariant of the shared data |
| `GenaData.UnlinkKeeps` | compa/src/genlib/client_table/client_table.cpp:48-71 | Removing a subscription keeps the invariant of the shared data, and no client has that SID afterwards |
| `GenaData.ScheduleKeeps` | compa/src/gena/gena_ctrlpt.cpp:141-205 | Scheduling a renewal uses a fresh argument and a fresh event id and keeps the invariant |
| `GenaInvariant.LocalKeeps` | compa/src/gena/gena_ctrlpt.cpp:81-823 | Every step of every operation keeps the data invariant and what the thread's own local variables rely on |
| `GenaSystem.StepKeepsInv` | compa/src/gena/gena_ctrlpt.cpp:81-823 | Every step keeps the invariant of the whole system, including what all other threads rely on |
| `GenaSystem.RunKeepsInv` | compa/src/gena/gena_ctrlpt.cpp:81-823 | The system invariant holds in every state of every run |
| `GenaProperties.ArgumentsFreedOnce` | compa/src/gena/gena_ctrlpt.cpp:114-129 | In every run a renewal argument is freed at most once; it is unfreed exactly while its timer is pending or its job runs, never both |
| `GenaProperties.ArgumentAliveWhenRead` | compa/src/gena/gena_ctrlpt.cpp:185-198 | When the event id is copied out of the argument, the argument is allocated if and only if the thread pool did not refuse its job |
| `GenaProperties.AbsentForGood` | compa/src/gena/gena_ctrlpt.cpp:508-593 | An issued SID that a client does not have is never in its list again |
| `GenaProperties.AutoRenewalFailedIsFinal` | compa/src/gena/gena_ctrlpt.cpp:101-127 | From the delivery of UPNP_EVENT_AUTORENEWAL_FAILED on, no client ever has that SID again |
| `GenaProperties.SilentForGood` | compa/src/gena/gena_ctrlpt.cpp:81-133 | From the moment its SID is gone, a job that has not yet looked makes no callback, whether the removal came before or after the timer fired |
| `GenaProperties.LateTimerIsSilent` | compa/src/gena/gena_ctrlpt.cpp:81-133 | In particular a timer that fires for a removed SID never makes a callback |
| `GenaProperties.NoLateDelivery` | compa/src/gena/gena_ctrlpt.cpp:740-823 | While a client lacks a SID, no NOTIFY handler comes to the point of delivering under it |
| `GenaProperties.SubscribeOutcome` | compa/src/gena/gena_ctrlpt.cpp:508-593 | In every run a genaSubscribe that returns success has entered its subscription under the SID it returns, and one that returns an error has entered nothing |
| `GenaProperties.LinkedDeleteIff` | compa/src/gena/gena_ctrlpt.cpp:578-588 | A step of a genaSubscribe brings it to the deletion of a listed subscription if and only if it is the failing schedule |
| `GenaProperties.UnsubscribedForGood` | compa/src/gena/gena_ctrlpt.cpp:461-504 | After genaUnSubscribe returns, whatever its result and whatever renewals ran, the SID is never in the list again and no NOTIFY looked up later is delivered under it |
| `GenaProperties.DeliversExactlyIff` | compa/src/gena/gena_ctrlpt.cpp:743-801 | A handler delivers under a listed SID whose publisher SID extends the header, and it is the subscription of exactly that header if and only if the list has it before any other match |
| `GenaProperties.RunKeepsOrder` | compa/src/gena/gena_ctrlpt.cpp:751-816 | In every run a handler delivers to clients in ascending order of their handles |
| `GenaProperties.OncePerClient` | compa/src/gena/gena_ctrlpt.cpp:751-816 | One NOTIFY is delivered to a client at most once, so under at most one SID |
| `GenaProperties.AnswerTellsDelivery` | compa/src/gena/gena_ctrlpt.cpp:740-823 | In every run a NOTIFY is answered with HTTP_OK if and only if it was delivered to some client, otherwise with HTTP_PRECONDITION_FAILED |
| `GenaProperties.DeliveredWasFound` | compa/src/gena/gena_ctrlpt.cpp:743-816 | Every delivered event goes back to the look-up in which its handler found that entry first |
| `GenaProperties.FirstEventNeverLost` | compa/src/gena/gena_ctrlpt.cpp:537-801 | A NOTIFY with SEQ 0 that arrives after the publisher's answer is delivered to the client, even before the SUBSCRIBE response is processed, while the subscription stands |
| `GenaProperties.FirstEventUnderOwnIff` | compa/src/gena/gena_ctrlpt.cpp:537-801 | It is delivered under the subscription's own SID if and only if that is what the handler finds first in the client's list at the step in which it looks there |
| `GenaProperties.EventReachesListed` | compa/src/gena/gena_ctrlpt.cpp:743-816 | A NOTIFY with any sequence number is delivered to every client that from its arrival to its answer is registered and has an entry the header is a prefix of, however many other clients come first |
| `GenaTimers.StepKeepsTimers` | compa/src/gena/gena_ctrlpt.cpp:141-685 | Every step that is no look at a subscription with a renewal in flight keeps: at most one carrier of the next renewal per SID, and recorded ids match |
| `GenaTimers.RunKeepsTimers` | compa/src/gena/gena_ctrlpt.cpp:141-685 | The same in every state of every run of such steps |
| `GenaTimers.TakenOver` | compa/src/gena/gena_ctrlpt.cpp:605-634 | A renewal that takes over a subscription is then its only carrier: the pending timer it cancels is the only one |
| `GenaTimers.OneAtMostIff` | compa/src/gena/gena_ctrlpt.cpp:605-679 | In every run no subscription ever has two carriers if and only if no renewal looks at one while another is in flight |
| `GenaTimers.TimerOnlyIsExclusive` | compa/src/gena/gena_ctrlpt.cpp:81-133 | Renewals that come only from the timer never do that |
| `GenaTimers.CoveredUnlessRefused` | compa/src/gena/gena_ctrlpt.cpp:141-205 | Under that condition a finite subscription always has a carrier or has been cancelled, unless its job was refused and nothing has carried its renewal since |
| `GenaTimers.RefusedStrands` | compa/src/threadutil/TimerThread.cpp:61-133 | A refused job leaves the subscription without carrier until a renewal looks at it, and while it is listed no callback tells of it |
| `GenaTimers.OneRenewalPerSubscription` | compa/src/gena/gena_ctrlpt.cpp:189-679 | Under that condition each listed subscription has at most one of pending timer and renewal in flight, at least one if finite and neither being unsubscribed nor failed nor refused, and a pending timer is the recorded one except while its scheduler holds the write lock |
| `GenaGrants.RunKeepsGrants` | compa/src/gena/gena_ctrlpt.cpp:537-685 | In every state of every run entries, plans to schedule and infinite times agree with the answers read off the run |
| `GenaGrants.EntryHoldsLastGrant` | compa/src/gena/gena_ctrlpt.cpp:660-670 | A listed subscription holds the publisher SID of the last grant applied to it, by its subscribe or a renewal since, and the URL it was entered for |
| `GenaGrants.InfiniteIffGranted` | compa/src/gena/gena_ctrlpt.cpp:155-198 | Unless its renewal is just being scheduled, a listed subscription counts as infinite if and only if the last grant applied to it was for an infinite time |
| `GenaGrants.FiniteGrantIsCovered` | compa/src/gena/gena_ctrlpt.cpp:141-205 | If no renewal looks at a subscription while another is in flight, one whose last grant was finite has a pending timer or a renewal in flight, or was cancelled, or its job was refused |
| `GenaOutcomes.RunKnows` | compa/src/gena/gena_ctrlpt.cpp:81-685 | In every state of every run each thread's program point agrees with its history: its answers, what it saw under the lock, and its callbacks |
| `GenaOutcomes.FailureToldOnce` | compa/src/gena/gena_ctrlpt.cpp:101-127 | When a timer's job has ended, UPNP_EVENT_AUTORENEWAL_FAILED has been delivered once, for its own client and SID, if its result is one to report and the client was registered when it looked, and never otherwise |
| `GenaOutcomes.OnlyJobsReport` | compa/src/gena/gena_ctrlpt.cpp:81-133 | No other operation makes that callback |
| `GenaOutcomes.RenewalOutcome` | compa/src/gena/gena_ctrlpt.cpp:596-685 | A renewal returns the error for what was missing when it looked, else the code of the failed scheduling, else the publisher's refusal, else success, having applied its grant |
| `GenaOutcomes.SubscribeResult` | compa/src/gena/gena_ctrlpt.cpp:508-593 | genaSubscribe returns the error for a missing client, else the publisher's refusal, else success |
| `GenaOutcomes.UnSubscribeOutcome` | compa/src/gena/gena_ctrlpt.cpp:461-504 | genaUnSubscribe returns the error for what was missing, else the result of the request that it sent |
| `GenaOutcomes.UnregisterOutcome` | compa/src/gena/gena_ctrlpt.cpp:419-458 | genaUnregisterClient has asked for every entry it took and fails only for a missing client |
| `GenaOutcomes.RequestNamesEntry` | compa/src/gena/gena_ctrlpt.cpp:425-645 | Every request of a renewal, unsubscribe or unregister names the URL and publisher SID of the entry seen under the lock |
| `GenaScenarios.RegisteredReachable` | compa/src/api/upnpapi.cpp:1344-1389 | A state with a registered client and the locks free is reachable |
| `GenaScenarios.SubscribedReachable` | compa/src/gena/gena_ctrlpt.cpp:508-593 | So is one with a listed subscription, its timer pending and the locks free, from which the paths of the renewals start |
| `GenaScenarios.RefusedJobIsReadAfterFree` | compa/src/gena/gena_ctrlpt.cpp:185-198 | Whenever a client can subscribe, a path leads to a scheduler about to read a freed argument |
| `GenaScenarios.FailedScheduleDeletesLinked` | compa/src/gena/gena_ctrlpt.cpp:578-588 | Whenever a client can subscribe, a path leads to the deletion of a subscription that is still listed |
| `GenaScenarios.TwoRenewalsTwoTimers` | compa/src/gena/gena_ctrlpt.cpp:596-685 | From every reachable state with two renewals of a listed subscription called, fired or waiting and the handle lock free, a path leads to two pending timers for it |
| `GenaScenarios.TwoApplicationRenewals` | compa/src/gena/gena_ctrlpt.cpp:596-685 | From every reachable state with the lock free, two renewals asked for by the application lead there |
| `GenaScenarios.RenewalRacesTimer` | compa/src/gena/gena_ctrlpt.cpp:81-133 | So does one asked for by the application while the subscription's timer fires |
| `GenaScenarios.EventForAnother` | compa/src/gena/gena_ctrlpt.cpp:743-801 | Whenever the only client can subscribe, a path leads to an event delivered under another subscription than the one of its SID |
| `GenaScenarios.UnregistersAlone` | compa/src/gena/gena_ctrlpt.cpp:419-458 | A thread of the unregister operation that runs alone, from every reachable state with the handle lock free, leaves the same list and timers as the loop on its own |
| `GenaUnregister.ControlPoint.UnregisterClient` | compa/src/gena/gena_ctrlpt.cpp:419-458 | The loop ends, sends one UNSUBSCRIBE per entry in list order with its URL and publisher SID, ignores the replies, leaves the list empty and cancels exactly the client's timers |
| `GenaUnregister.HeadUnlinked` | compa/src/gena/gena_ctrlpt.cpp:425-453 | Unlinking the first entry keeps the rest in order, cancels exactly its timer, and freeing the scratch copy afterwards cancels nothing more |
| `GenaUnregister.RequestsBounded` | compa/src/gena/gena_ctrlpt.cpp:425-453 | In every run, whatever else is running, as long as nobody enters a new subscription all unregister loops of a client together send no more requests than it had subscriptions |
| `SdkHandles.Sdk.GetFreeHandle` | compa/src/api/upnpapi.cpp:775-786 | The lowest free handle from 1 on, or UPNP_E_OUTOF_HANDLE exactly if there is none |
| `SdkHandles.Sdk.RegisterClient` | compa/src/api/upnpapi.cpp:1344-1389 | Succeeds exactly if initialised, well called and a slot is free; UPNP_E_ALREADY_REGISTERED only if no slot is free; the counter follows the table |
| `SdkHandles.Sdk.UnRegisterClient` | compa/src/api/upnpapi.cpp:1393-1442 | Frees exactly the client's slot and keeps counter and table in agreement |
| `SdkHandles.Sdk.RegisterRootDevice` | compa/src/api/upnpapi.cpp:819-953 | Takes a free slot and sets the family flag; a failing description gives the slot back |
| `SdkHandles.Sdk.UnRegisterRootDevice` | compa/src/api/upnpapi.cpp:1264-1340 | Frees the slot and clears the family flag even if another device of the family remains |
| `SdkHandles.Sdk.GetClientHandle` | compa/src/api/upnpapi.cpp:3526-3543 | Finds the lowest client handle, exactly if the counter is not 0 |
| `SdkHandles.Sdk.GetDeviceHandle` | compa/src/api/upnpapi.cpp:3545-3580 | Finds the first device of a family exactly if the family's flag is set |
| `SdkHandles.Sdk.Finish` | compa/src/api/upnpapi.cpp:634-708 | Terminates with all counters 0; the table is the old one without its clients and without one device per set flag |
| `SdkHandles.Sdk.FinishDevices` | compa/src/api/upnpapi.cpp:663-670 | The device loop ends because unregistering clears the flag the search depends on; it removes one device |
| `SdkHandles.Sdk.FinishClients` | compa/src/api/upnpapi.cpp:671-677 | The client loop ends because the counter falls, and leaves no client |
| `SdkHandles.Sdk.Init` | compa/src/api/upnpapi.cpp:523-571 | A failed start leaves the SDK shut down with all counters 0, the table untouched or cleared depending on how far it got; a second start changes nothing |
| `SdkHandles.FinishLeaves` | compa/src/api/upnpapi.cpp:663-677 | What remains after shutdown: no client, and of each family as many devices as exceed its flag |
| `SdkHandles.FinishEmptiesIff` | compa/src/api/upnpapi.cpp:663-677 | Shutdown empties the table if and only if no family has more devices than its flag says |
| `SdkHandles.CountersBound` | compa/src/api/upnpapi.cpp:1355-1361 | Clients and set flags stand for different occupied slots |
| `SdkHandles.DeviceLeftBehind` | compa/src/api/upnpapi.cpp:1323-1333 | A sequence of calls after which a device is still in the table of a finished SDK |
| `VirtualDirs.Normalise` | compa/src/api/upnpapi.cpp:3711-3725 | The stored name starts with a slash and fits in 255 characters; refused exactly if empty or too long |
| `VirtualDirs.NormaliseTwice` | compa/src/api/upnpapi.cpp:3715-3725 | A stored name is its own normal form |
| `VirtualDirs.PutKeeps` | compa/src/api/upnpapi.cpp:3727-3772 | Update-or-append keeps names distinct and well formed |
| `VirtualDirs.DeleteKeeps` | compa/src/api/upnpapi.cpp:3774-3818 | Removal keeps them so, and the name is gone |
| `VirtualDirs.PutThenDelete` | compa/src/api/upnpapi.cpp:3699-3818 | Adding a fresh name and removing its stored form restores the list |
| `VirtualDirs.PutTwice` | compa/src/api/upnpapi.cpp:3727-3738 | Adding a name again only replaces its cookie |
| `VirtualDirs.RunRefinesMap` | compa/src/api/upnpapi.cpp:3699-3838 | Over every run of calls with any arguments the list has distinct well-formed names and is exactly a map with its keys in insertion order |
| `VirtualDirs.DirList.Add` | compa/src/api/upnpapi.cpp:3699-3772 | On the linked list: update-or-append under the normalised name, the previous cookie, the error codes including lack of memory, and no change of list or cookie on an error |
| `VirtualDirs.DirList.Remove` | compa/src/api/upnpapi.cpp:3774-3818 | On the linked list: removes exactly the given name, or fails without change |
| `VirtualDirs.DirList.RemoveAll` | compa/src/api/upnpapi.cpp:3820-3838 | Frees every node once, in order, and leaves the list empty |
| `Advertisement.Lifetime` | compa/src/api/upnpapi.cpp:1718-1721 | The clamp gives more than 60 seconds: 1800 for a missing request, 62 for a short one, and leaves longer ones alone |
| `Advertisement.LifetimeTwice` | compa/src/api/upnpapi.cpp:1718-1721 | The clamp is idempotent |
| `Advertisement.Delay` | compa/src/api/upnpapi.cpp:1759-1762 | Half the lifetime, rounded down, less 30 seconds: never negative, 0 exactly for 61, and over at least 61 seconds before expiry |
| `Advertisement.NoPauseIff` | compa/src/api/upnpapi.cpp:1718-1762 | A request is re-advertised without pause if and only if it is 61 |
| `Advertisement.Device.SendLowPower` | compa/src/api/upnpapi.cpp:1693-1786 | The handle's values, the advert and the new timer after a call, for each way it can fail |
| `Advertisement.Device.Advertise` | compa/src/api/upnpapi.cpp:1688-1691 | The application's call starts a chain of its own |
| `Advertisement.Device.AutoAdvertise` | compa/src/api/upnpapi.cpp:3675-3680 | A firing timer is replaced by the one of the advert it sends |
| `Advertisement.ChainsConserved` | compa/src/api/upnpapi.cpp:1744-1769 | In every run each call whose chain has not failed has exactly one pending timer, with the lifetime that call asked for and due while its advert is valid; every other call has none |
| `Advertisement.ChainKeepsLifetime` | compa/src/api/upnpapi.cpp:1718-1769 | Along a whole chain MaxAge is constant, and the chain ends exactly with a failure |
| `Advertisement.NeverExpires` | compa/src/api/upnpapi.cpp:1744-1769 | If no timer is later than what is left of the lifetime, some advert is valid at every moment from the first to the end of the last |
| `Advertisement.LowPowerKeptIff` | compa/src/api/upnpapi.cpp:1722-1727 | The announced power values survive the first automatic re-advertisement if and only if they announce nothing |
| `Ipv6Prefix.ComputePrefixLength` | compa/src/api/upnpapi.cpp:3111-3126 | The number of ones in the mask; the mask is all zero afterwards |
| `Ipv6Prefix.OnesOfNetmask` | compa/src/api/upnpapi.cpp:3111-3126 | The mask of a prefix of p bits has p ones |
| `Ipv6Prefix.PrefixOfNetmask` | compa/src/api/upnpapi.cpp:3111-3126 | For the mask of a prefix of p bits the result is p |
| `Builders.HeaderOpens` | compa/src/api/upnptools.cpp:205-214 | The header opens an element named after the action, with the suffix of a response |
| `Builders.HeaderCloses` | compa/src/api/upnptools.cpp:205-214 | It closes that element, and how long it is |
| `Builders.AddToAction` | compa/src/api/upnptools.cpp:176-242 | The document with the argument's element appended, started from the header if there was none, and the error codes |
| `Builders.MakeAction` | compa/src/api/upnptools.cpp:250-326 | The header's document with one element per named argument, in order, or none if the header does not fit or parse |
| `Builders.ActionBuildersAgree` | compa/src/api/upnptools.cpp:199-325 | Folding addToAction equals makeAction, if and only if there is an argument or no document can be made |
| `Builders.CreatePropertySet` | compa/src/api/upnptools.cpp:366-407 | One e:property per named argument, in order |
| `Builders.AddToPropertySet` | compa/src/api/upnptools.cpp:409-445 | One more e:property, or UPNP_E_INVALID_PARAM and no change for a null name |
| `Builders.PropertySetBuildersAgree` | compa/src/api/upnptools.cpp:366-445 | Repeated UpnpAddToPropertySet gives nothing until the first named argument and then exactly the set of UpnpCreatePropertySet |
| `DeviceList.List.AddDevice` | sample/common/tv_ctrlpt.cpp:640-731 | On the linked list: update the timeout or append, announce only a new device, names stay distinct, no node leaks |
| `DeviceList.List.FindNode` | sample/common/tv_ctrlpt.cpp:645-652 | The first node with that name |
| `DeviceList.List.RemoveDevice` | sample/common/tv_ctrlpt.cpp:157-188 | No node of that name remains, all others stay in order, the removed one is deleted once |
| `DeviceList.List.RemoveAll` | sample/common/tv_ctrlpt.cpp:201-217 | Every node is deleted once, in order |
| `DeviceList.List.VerifyTimeouts` | sample/common/tv_ctrlpt.cpp:1074-1118 | One pass in place is the order-preserving filter by remaining time, with searches and removals in list order; dropped nodes are deleted once, none else |
| `DeviceList.List.AgeNode` | sample/common/tv_ctrlpt.cpp:1083-1115 | The loop body: without a predecessor exactly at the head, drops or ages one node and stands before the next |
| `DeviceList.List.DeleteNode` | sample/common/tv_ctrlpt.cpp:105-145 | Only a live, unlinked node is deleted, and its removal announced |
| `DeviceList.AgedDistinct` | sample/common/tv_ctrlpt.cpp:1083-1114 | Ageing keeps names distinct |
| `DeviceRuns.RunKeepsDistinct` | sample/common/tv_ctrlpt.cpp:157-731 | Names are pairwise distinct in every reachable state |
| `DeviceRuns.AgedTwice` | sample/common/tv_ctrlpt.cpp:1083-1114 | Two ticks are one tick of the summed length |
| `DeviceRuns.ListedAfterTicks` | sample/common/tv_ctrlpt.cpp:1083-1114 | A device not advertised again is listed after k ticks if and only if it had more than k * incr seconds left, whatever happens to others |
| `DeviceRuns.SearchedIffAboutToExpire` | sample/common/tv_ctrlpt.cpp:1099-1110 | A tick searches for exactly the devices that survive it with less than two ticks left |
| `DeviceRuns.SearchedBeforeDropped` | sample/common/tv_ctrlpt.cpp:1091-1110 | A device that outlives a tick was searched for on an earlier tick than the one that drops it |
| `DeviceRuns.NoticesTrackList` | sample/common/tv_ctrlpt.cpp:105-731 | In every run the added and removed notices alternate, and following them shows exactly the listed devices |
| `TvText.AtoiFormat4` | sample/common/tv_device.cpp:627-639 | Reading back what "%.4hd" wrote gives the number |
| `TvDevice.ValuesStayInRange` | sample/common/tv_device.cpp:472-756 | In every interleaving of any requests each stored text fits and its number is in MIN..MAX, and the notices reproduce the table |
| `TvDevice.StepKeepsInv` | sample/common/tv_device.cpp:392-756 | Every step of every request keeps that |
| `TvDevice.DefaultsOk` | sample/common/tv_device.cpp:61-71 | The default values are in range |
| `TvDevice.DecideOk` | sample/common/tv_device.cpp:574-654 | A text that an action decides to write and that fits stands for a number in range |
| `TvDevice.Device.SetServiceTableVar` | sample/common/tv_device.cpp:472-502 | Stores and announces the text exactly if it is shorter than the buffer |
| `TvDevice.LookupMeans` | sample/common/tv_device.cpp:168-220 | The action tables bind "Set", "Increase" and "Decrease" with a variable's name to setting, raising and lowering that variable of that service, PowerOn and PowerOff to the power, and no other name |
| `TvDevice.Device.FindAction` | sample/common/tv_device.cpp:429-450 | The action that the name means, or none |
| `TvDevice.Device.HandleActionRequest` | sample/common/tv_device.cpp:392-470 | The new table and error code of an uninterrupted request, told by what its name means: which variable changes, by exactly one up or down or to the text; the range is kept |
| `TvInterleavings.AloneIsHandled` | sample/common/tv_device.cpp:392-470 | The steps of a request that nothing interrupts do what the sequential handler does |
| `TvInterleavings.IncrementLost` | sample/common/tv_device.cpp:612-654 | From every state, two increments that both read first count as one although both succeed |
| `TvInterleavings.IncreasesAddUpTo` | sample/common/tv_device.cpp:612-654 | If a variable is only increased, then after k writes in any interleaving it has risen by at least one (if k > 0) and at most k |
| `TvLostUpdates.WriterHasRead` | sample/common/tv_device.cpp:626-640 | A thread about to write has read before and adds one to what it has read |
| `TvLostUpdates.OvertakenLoses` | sample/common/tv_device.cpp:626-654 | After a write that was overtaken the value is less than the start value plus the writes |
| `TvLostUpdates.IncreasesAddUpIff` | sample/common/tv_device.cpp:612-654 | If a variable is only increased, its value is the start value plus the number of writes if and only if no write falls between the reading and the writing of another increment |
| `TvInterleavings.OffIsInert` | sample/common/tv_device.cpp:429-450 | While the set is off and no PowerOn is on its way, at most as many more writes follow as requests had passed the power check before; without any the table stays as it is |
| `StateUpdate.TvStateUpdate` | sample/common/tv_ctrlpt.cpp:758-812 | Each variable gets the value of the last property that carries one for it |
| `StateUpdate.ByTagConcat` | pupnp/ixml/src/node.cpp:1192-1229 | The search by tag finds the elements of concatenated siblings in document order |
| `StateUpdate.CarriedByProperty` | compa/src/api/upnptools.cpp:420-444 | A built property carries a value for exactly the variable it is built for |
| `StateUpdate.ReadsLastValue` | sample/common/tv_ctrlpt.cpp:773-810 | For every list of pairs, reading the built set gives a variable the value of the last pair that names it with a value |
| `StateUpdate.VarHasPlace` | sample/common/tv_ctrlpt.cpp:77-79 | Each variable of the device has its place in the state, under the name that the device gives it |
| `StateUpdate.ReadBack` | compa/src/api/upnptools.cpp:366-445 | Building and then reading: the place of every variable holds the last value given under its name, the others are unchanged |

## Left out

- Sockets, HTTP and SSDP messages, the XML parser, log output: a request is one nondeterministic result, the parser a parameter, a document a plain tree without attributes.
- Allocation failures, except where a function's own error path is modelled.
- A thread that would read a freed renewal argument, or delete a subscription that is still listed, has no further step in the model.
- Timer event ids do not wrap around; integers are unbounded in the device list, the advertisement times and the counters.
- Global deadlock freedom: the bad-handle path of genaSubscribe takes the two locks in the opposite order to the others.
- GenaUnregister.ControlPoint.UnregisterClient: one thread only; with other threads beside it the requests are bounded (`RequestsBounded`) and each names its entry (`RequestNamesEntry`), their order is not stated.
- SdkHandles: API calls one after another; concurrent unregistration of one handle is not modelled, nor are the thread pools, timer and web server that UpnpInit2 and UpnpFinish start and stop.
- DeviceList.List.AddDevice: only the work on the list; fetching the description, the subscriptions of the new device and devices without both services are not modelled.
- DeviceList.List.DeleteNode: the unsubscriptions of a deleted device are not modelled.
- TvDevice: requests for an unknown service, the state variable query, and the response documents except whether they could be built; each critical section is one step.
- Builders.CreatePropertySet: the source reads one variadic argument beyond the last pair and does not use it; the model has no such read.
- StateUpdate.TvStateUpdate: texts longer than the state buffers are copied as they are; the overrun of a buffer is not modelled.
- Eventing on the device side, description parsing, the web server's files, generated accessor classes, mock wrappers, command loops and Windows branches: easy members or I/O.
