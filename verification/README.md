# The desktop shell's protocols, modelled and proved

A Dafny model of the logic of PersonalClaw's desktop shell (the Electron main process under `desktop/`), and proofs
of what that logic keeps. Check it with `dafny verify dfyconfig.toml`.

The shell is mostly protocols written over injected clocks, stores and processes: a JavaScript function runs to its
next `await` without interruption, and every continuation may land in any order. Each protocol is modelled as a
machine of such steps. A state holds the source's own variables, the calls suspended at an `await` with the locals
they captured, and what the outside world holds (a cookie jar's queue, a disk, timers). An event is one step: a call,
a continuation, a timer, an answer. What a network, a disk or a clock answers comes with the event, so a theorem over
every sequence of events covers every interleaving and every answer. Beside each machine stands a class with the
source's fields, whose methods update them in place, each proved to do exactly one step of the
machine; a method that takes such an object through any events carries the machine's theorem over to it.

Each machine is held from both sides: what no run may do, and what each press, answer and landing brings, so a step
that did nothing would break a theorem as one that did too much.

| file | what it models |
|---|---|
| `SignIn`, `SignInJar`, `SignInLoss`, `SignInBack`, `LocalSignIn` | the windows' sign-in record: generations, cookies, losses, what brings the windows back, retired origins |
| `WindowTraffic` | what the windows may send where, and with which pair |
| `Sessions`, `SessionsKept`, `SessionsSent`, `LocalGateway` | every session the main process is handed, until it is signed out |
| `GatewayWatch`, `WatchTakesBack` | looking for a lost gateway, and taking it back on proof and only on proof |
| `Recovery` | the sign-in and the watch joined: how the windows come back after a loss |
| `Updater`, `UpdaterPresses`, `AppUpdater` | check, Update, Restart to finish and the quit, interleaved |
| `VersionText`, `Versions`, `Releases` | a version's text, the order of versions, which release is offered |
| `Swap` | putting a staged copy in the app's place, and saying so at the next start |
| `Shutdown`, `Quit` | stopping the gateway under a deadline |
| `Doorbell` | one socket, one read for a burst of rings |
| `IpText`, `HostClass` | addresses as text, and the trust a host is given |
| `DeepLinks`, `LinkGrammar`, `LongLinks`, `PercentText` | `personalclaw://` links, which are accepted, and their canonical form |
| `EndpointKeys`, `EndpointRegistry` | storage keys per endpoint, and the list of endpoints |
| `Interrupted` | the work a restart cut off |
| `Placement` | the buddy's orb, its card, and where a drop is found again |
| `Options`, `Decimal`, `Texts` | shared values, numbers and texts |

## Where the code and its comments part

The model follows the code. Where a comment or the natural reading of it says more, a lemma gives a concrete run or
input, and another says exactly when the property holds.

- The jar can hold another session's cookie while an operation on it is outstanding, and only then
  (`SignInJar.JarLagsTheStore`, `SignInJar.JarIsSafe`).
- "Nothing is lifted while signed out" is checked when a lift is called, not when its write lands
  (`SignInLoss.LiftOutlivesEnd`, `SignInLoss.LiftedSignedOutExactlyWhen`).
- "Nothing is lifted for this start again" is checked when the proof is taken, not when the take-back ends
  (`GatewayWatch.EndDuringTakeBackIsUndone`, `GatewayWatch.EndIsAlwaysUndone`).
- A found gateway's windows can come back on a proof older than the last loss, when a sign-in and its loss overtake
  the take-back (`Recovery.ProofBeforeTheLoss`, `Recovery.WindowsComeBackOnProof`).
- The version order leaves a post-release of a pre-release out of its key (`Versions.PostOfPreIsLost`,
  `Versions.OrderIsPep440ExactlyWhen`).
- Two releases of one version can part what is offered and what is downloaded (`Releases.TwinReleasesPart`,
  `Releases.DownloadsWhatWasOffered`).
- A doorbell stopped inside its own news of a loss is left with an armed retry, which opens nothing
  (`Doorbell.StrayRetry`, `Doorbell.StrayRetryExactlyWhen`, `Doorbell.QuietUntilConnected`).
- A session's sign-out can be asked of no gateway at all (`SessionsKept.SessionDropped`,
  `SessionsKept.DropsExactlyWhen`).
- An accepted link's own hash can be too long to be a link (`LongLinks.EncodingOutgrowsTheLimit`,
  `DeepLinks.HashIsCanonicalExactlyWhen`).
- A gap in an IPv6 text may stand for no group, which RFC 4291 does not allow (`IpText.GapForNoGroup`,
  `IpText.AddressExactlyWhen`).
- The buddy's window can leave a work area too low for the orb and a gap (`Placement.WindowLeavesALowArea`,
  `Placement.WindowInsideExactlyWhen`).
- A storage key whose length is written with leading zeros still parses (`EndpointKeys.LeadingZeroIsRead`,
  `EndpointKeys.ParsedExactlyWhen`).

## What the theorems assume

- `SignInJar.JarIsSafe` and what `SignInBack` and `SessionsSent` say of the jar: the cookie store applies operations in
  issue order and none fails, every ready line carries a token, and a pair comes only with the window's door. Failing
  operations are in the model; only the jar's theorems leave them out.
- `SessionsKept.NoSessionIsLost`: every gateway mints its own sessions, so no token is handed out twice.
- `Shutdown`: timers fire on time, and no event arrives inside a call.
- `Swap.SwapIsAllOrNothing`: the old and the new copy are told apart; a rename either happens or does not.
  `Swap.NextStartTellsTheTruth`: the note's store works, and the new copy's version is the newer one.
- `Interrupted`: a gateway's list of running work names a piece of work once; `NewestAreSaidFirst` asks for a clock
  that does not go back.
- `Placement`: whole-point coordinates; the geometry asks that the orb lies in its work area.

## Model

| member | source | states |
|---|---|---|
| WindowTraffic.PairNeverCrossesOrigins | desktop/windowTraffic.js:110-148 | the request that goes out carries a pair only from a page of the origin it goes to, and the shell's own pair only to the held origin, outside a withhold and while the cookie follows |
| WindowTraffic.ReachesLoopbackExactlyWhen | desktop/windowTraffic.js:117-123 | a request reaches a loopback origin exactly when that is the held one and nothing is withheld, or one the owner added that was never retired |
| WindowTraffic.LocalOriginIsLoopback | desktop/windowTraffic.js:80-87 | the address of a gateway on this computer is a loopback one, whatever its port |
| WindowTraffic.PairIsSentExactlyWhen | desktop/windowTraffic.js:125-153 | what pair a request goes out with, exactly: the shell's own over the page's when it is a script's request or socket of a page of the held origin to it, the windows in and their cookie following; else the page's own from a page of the very origin it goes to, while it is let through; else none; and the Referer never |
| WindowTraffic.OnlyLoopbackIsCancelled | desktop/windowTraffic.js:115-124 | only a request to this computer is ever cancelled |
| WindowTraffic.LoopbackHostsAre | desktop/windowTraffic.js:80-87 | which hosts are this computer, as texts: `localhost` and any name under it, 127/8 as written by the URL parser, mapped into IPv6 or not, `::1` and the two unspecified addresses |
| SignInJar.JarIsSafe | desktop/localSignIn.js:189-308 | over every interleaving of the sign-in's calls, split at their awaits, and whatever the store still owes: never two window cookies; a cookie no outstanding operation is on is the held session's own, under its name and token, and while withheld a call awaits a write of it begun at the current generation; so every other cookie in the jar has a later operation on it already issued |
| SignInJar.JarIsSafeOnceLanded | desktop/localSignIn.js:189-308 | with every issued operation landed the jar is empty or holds the held session's own cookie alone, and while withheld with no such write awaited it is empty |
| SignInJar.RunKeepsJar | desktop/localSignIn.js:208-308 | the inductive invariant over the jar, the operations in flight and the suspended calls holds in every reachable state |
| SignInJar.StepKeepsOps | desktop/localSignIn.js:189-308 | every step of every call keeps what the issued operations leave in the jar |
| SignInJar.StepKeepsWrites | desktop/localSignIn.js:208-308 | every step keeps each pending write's generation at or behind the current one, a current write's cookie the held session's own, and a current write awaited while the issued operations leave a cookie in the jar of withheld windows |
| SignInJar.JarLagsTheStore | desktop/localSignIn.js:208-240 | counterexample: between an adopt at a new port and its removal landing the jar holds the replaced session's cookie, with that removal outstanding |
| SignInJar.PrefixNeverTwo | desktop/localSignIn.js:189-193 | issue order alone keeps two window cookies apart: at no point of the store's queue are there two |
| SignInLoss.LossWins | desktop/localSignIn.js:208-308 | a withhold is lifted only in the step of a sign-in or lift after whose call no sign-in, hold, loss or release came |
| SignInLoss.LiftsOnlyAtItsGeneration | desktop/localSignIn.js:219-238 | the step that lifts a withhold is an adopt's or a lift's, at its own generation |
| SignInLoss.NeverReachesRetired | desktop/localSignIn.js:369-380 | in every reachable state `decide` over the traffic state cancels every request to a retired loopback origin and, while withheld, to the held one |
| SignInLoss.LeavesRetiredExactlyWhen | desktop/localSignIn.js:208-313 | an origin leaves the retired ones exactly by being adopted, held for the shell, or named in an unretiring lift that is not turned away |
| SignInLoss.RunKeepsRetired | desktop/localSignIn.js:208-308 | in every reachable state a held session on a retired origin is withheld, and no pending call can lift it |
| SignInLoss.LiftedSignedOutExactlyWhen | desktop/localSignIn.js:284-341 | over every run, the windows come back signed out exactly when an End acted after the sign-in or lift that brings them back was called and before its write landed |
| SignInLoss.LiftOutlivesEnd | desktop/localSignIn.js:275-308 | counterexample to the comment that nothing is lifted while signed out: an End during a lift's write does not hold the lift back |
| SignInBack.WindowsInHaveTheirCookie | desktop/localSignIn.js:208-240 | the converse of the jar's safety, over every run: with the windows not withheld, no sign-in still before its write and nothing outstanding on it, the jar holds the held session's cookie and nothing else |
| SignInBack.JarOfWindowsIn | desktop/localSignIn.js:208-240 | the whole jar then, once nothing is outstanding: that cookie when the session has a token, is not the shell's own hold and has its pair if its gateway has the door; else empty |
| SignInBack.SignInBringsWindowsBack | desktop/localSignIn.js:208-308 | a sign-in, or a lift not turned away, that no sign-in, hold, loss or release overtakes brings the windows back, over every interleaving: its call back, the windows are in, a lift says so, and the jar holds the session's cookie |
| SignInBack.RunKeepsFilled | desktop/localSignIn.js:208-308 | the invariant behind it: the cookie is on its way once its write is issued, in every reachable state |
| SignInBack.LetInExactlyWhen | desktop/localSignIn.js:208-308 | the withhold is cleared exactly by a write that lands at its own generation, or by a sign-in or lift with no session to write |
| SignInBack.KeptOutExactlyWhen | desktop/localSignIn.js:208-274 | it is set exactly by a loss, a hold, and a sign-in whose session the jar does not take |
| SignInBack.CallsEnd | desktop/localSignIn.js:208-308 | every landing brings the call that awaits it nearer to its end, at most three in all |
| SignInBack.SignInWritesExactly | desktop/localSignIn.js:219-230 | a sign-in that goes on at its own generation issues exactly the held session's write |
| SignInBack.OvertakenSignInSettles | desktop/localSignIn.js:189-230 | an overtaken sign-in's write is taken back out unless the session held since has the same name, and what it replaced is handed back all the same |
| SignInBack.LiftIsTurnedAwayExactlyWhen | desktop/localSignIn.js:284-295 | a lift is turned away exactly when signed out, with nothing held, at another generation, for another start or on a retired origin; taken, it issues the held session's write |
| SignInBack.OvertakenLiftSaysSo | desktop/localSignIn.js:296-308 | the write of a lift that failed or was overtaken has it answer that nothing was lifted |
| SignInBack.EndSaysSo | desktop/localSignIn.js:328-341 | an End says that it ended the sign-in exactly when it did; a refused pair takes the cookie out too |
| SignInBack.LossSaysItsGeneration | desktop/localSignIn.js:266-274 | over every run a loss answers with the generation it moved to |
| SignInBack.ForgottenIsAnswered | desktop/localSignIn.js:402-408 | a release answers with the session let go, an End that it ended one |
| SignInBack.HeldIsTheLastTaken | desktop/localSignIn.js:208-258 | what is held, over every run: the session the last sign-in or hold took unless one was released since, without its pair exactly when an End for a defect acted on it |
| SignInBack.SignedOutExactlyWhen | desktop/localSignIn.js:328-341 | over every run the sign-in is ended exactly when an End acted and no sign-in or hold came since |
| SignInBack.JoinsRetiredExactlyWhen | desktop/localSignIn.js:266-313 | an origin joins the retired ones exactly by a loss that retires it while held, or by name while it is not held |
| SignInBack.FollowsExactlyWhen | desktop/localSignIn.js:358-363 | whether the window's cookie still is the held session's, after any event |
| SignInBack.PairedAreTheLastSet | desktop/localSignIn.js:365-367 | the owner's added origins are those last set |
| SignInBack.ReachesExactlyWhen | desktop/localSignIn.js:369-380 | what the windows reach of this computer, and with whose pair, as the record stands |
| LocalSignIn.Record.constructor | desktop/localSignIn.js:149-156 | nothing held, nothing withheld, an empty jar queue |
| LocalSignIn.Record.AdoptRest | desktop/localSignIn.js:219-238 | the rest of a sign-in once the replaced session left the jar |
| LocalSignIn.Record.AdoptCall | desktop/localSignIn.js:208-239 | a sign-in up to its first await: new generation, new session, its origin unretired |
| LocalSignIn.Record.HoldForShellCall | desktop/localSignIn.js:247-258 | the shell's own hold: withheld at once, the previous cookie's removal issued |
| LocalSignIn.Record.WithholdCall | desktop/localSignIn.js:266-274 | a loss: withheld and the generation moved before the removal is issued |
| LocalSignIn.Record.LiftNow | desktop/localSignIn.js:284-295 | a lift's checks in their order, and the write it issues |
| LocalSignIn.Record.LiftCall | desktop/localSignIn.js:284-308 | a lift as one suspended call |
| LocalSignIn.Record.EndCall | desktop/localSignIn.js:328-341 | an End acts only on the current stamp of a held pair, and once |
| LocalSignIn.Record.ReleaseCall | desktop/localSignIn.js:402-408 | the quit's release: nothing held, the generation moved, the session handed back |
| LocalSignIn.Record.RetireOriginCall | desktop/localSignIn.js:310-313 | any origin but the held one is retired |
| LocalSignIn.Record.SetPairedCall | desktop/localSignIn.js:365-367 | the owner's added origins replace the earlier ones |
| LocalSignIn.Record.CookieChangedCall | desktop/localSignIn.js:358-363 | whether the window's cookie still is the held session's |
| LocalSignIn.Record.SettleMovedWrite | desktop/localSignIn.js:189-193 | a write that landed late is taken back out unless the held session names the same cookie |
| LocalSignIn.Record.OperationLands | desktop/localSignIn.js:189-193 | the store applies its oldest operation |
| LocalSignIn.Record.ResumeCall | desktop/localSignIn.js:208-308 | every continuation re-checks the generation it captured |
| LocalSignIn.Record.Take | desktop/localSignIn.js:149-408 | whatever comes next, exactly one step of the machine |
| LocalSignIn.SignInThrough | desktop/localSignIn.js:149-408 | a record taken through any events the shell promises has one window cookie at most, and the held session's own unless a later operation on it is issued |
| SessionsKept.NoSessionIsLost | desktop/main.js:649-692 | at every step of every run each session the shell was handed is held, kept, in the locals of a call that still has to keep it, sent for sign-out, or had its sign-out asked of no gateway; the held one is none of the others |
| SessionsKept.DropsExactlyWhen | desktop/main.js:1001-1006 | a sign-out is asked of no gateway exactly at the quit's own release while none can be asked, or for a kept session while none was ever taken |
| SessionsKept.SessionDropped | desktop/main.js:345-350 | the run that drops one: a stale child's ready line is kept, and the quit, with no gateway ever taken, has nowhere to sign it out |
| SessionsKept.RunKeepsShell | desktop/main.js:345-362 | the invariant over the record, the list and every call's locals holds in every reachable state |
| SessionsKept.ShellStepKeeps | desktop/main.js:649-692 | each event of the protocol keeps that invariant when every gateway mints fresh sessions |
| SessionsKept.AnswerConserves | desktop/main.js:960-978 | a sign-in's answer loses no session, adopted or late |
| SessionsKept.ReturnConserves | desktop/main.js:722-768 | a returned adopt or hold loses no session, whether or not the generation moved |
| SessionsKept.SignOutConserves | desktop/main.js:685-692 | going through the kept list loses no session, a loss in its middle included |
| SessionsKept.TakeGatewayConserves | desktop/main.js:856-869 | taking a gateway keeps the session it replaces with the call that must sign it out |
| SessionsSent.SentExactlyWhen | desktop/main.js:685-692 | a session's sign-out goes out exactly when it is the next of a list gone through, or the one the quit releases, while the gateway in use can be asked |
| SessionsSent.ListIsSignedOut | desktop/main.js:685-692 | over every run in which the gateway can be asked at its turns, a list being gone through is sent from its front, one a turn, and once through all of it was |
| SessionsSent.GoneThroughIsNotKept | desktop/main.js:685-692 | such a list leaves none of its sessions kept: one kept at the end was put there by another event than its turn |
| SessionsSent.KeptExactlyWhen | desktop/main.js:679-692 | what is on the list after any event: all of it is taken, or it stays with exactly what the event keeps |
| SessionsSent.ListIsTakenToBeSignedOut | desktop/main.js:685-692 | a list taken is, whole, some call's to sign out |
| SessionsSent.ListHoldsEachOnce | desktop/main.js:679-681 | over every run the list holds no session twice |
| SessionsSent.ShellRunsTheRecord | desktop/main.js:649-669 | every run of the main process is a run of the sign-in record, so all that is proved of the record's runs holds of it |
| SessionsSent.StepIsOfTheRecord | desktop/main.js:649-768 | which one sign-in, hold, release or retirement each step makes |
| SessionsSent.NoCookieOfASignedOutSession | desktop/main.js:649-692 | over every run no window keeps a session that is to be signed out: a cookie nothing outstanding is on is the held session's, which is neither kept, sent, dropped nor owed a sign-out by any call |
| SessionsSent.NoOvertakenAnswerIsAdopted | desktop/main.js:655-669 | over every run the sign-in an answer makes was asked for by a call after whose beginning no sign-in, hold, loss or release of any call's came |
| SessionsSent.SeesTheListThroughExactlyWhen | desktop/main.js:761-768 | over every run a sign-in goes on to sign the list out exactly when nothing overtook it |
| SessionsSent.AskBeganAt | desktop/main.js:649-655 | the generation a call is judged against is the sign-in's at the step that began it |
| SessionsSent.FollowLeavesWhereItWas | desktop/main.js:1018-1022 | the address a follow leaves is that of the gateway in use when it took the next one |
| SessionsSent.GatewayIsTheOneTaken | desktop/main.js:856-862 | the gateway in use is the one last taken, and whether it is gone or withheld is as taken or as the watch says |
| SessionsSent.AdoptedIsAwaited | desktop/main.js:960-968 | a call that adopts an answer awaits that very sign-in and remembers its session |
| SessionsSent.AsksBegin | desktop/main.js:649-655 | an ask begins whenever it is made, at the generation and address of then |
| SessionsSent.CallsGoOn | desktop/main.js:649-768 | every call of the main process ends: what it waits for brings it nearer, and any other event leaves it as it is |
| LocalGateway.Main.constructor | desktop/main.js:672-676 | no gateway, nothing kept |
| LocalGateway.Main.KeepToSignOut | desktop/main.js:679-681 | a session with a token is kept once |
| LocalGateway.Main.SignOutLocalSession | desktop/main.js:1001-1006 | a request goes out only to a gateway that can be asked |
| LocalGateway.Main.AdoptLocalGateway | desktop/main.js:856-869 | the record adopts the session, or holds it while the window's door is asked |
| LocalGateway.Main.SignOutKept | desktop/main.js:685-692 | the list is taken whole before the first sign-out |
| LocalGateway.Main.FollowRest | desktop/main.js:1018-1032 | the old address retired, the replaced session kept, the list signed out |
| LocalGateway.Main.DoorBack | desktop/main.js:920-928 | what a door ask's caller still has to do |
| LocalGateway.Main.KeepWhatMoved | desktop/main.js:971-975 | both the replaced session and the one signed in are kept, unless it is held |
| LocalGateway.Main.TakeReadyLineCall | desktop/main.js:345-362 | a stale line is kept, any other taken as a first start or a restart |
| LocalGateway.Main.FollowMovedGateway | desktop/main.js:649-655 | the generation is captured before the sign-in |
| LocalGateway.Main.TakeBackAdoptedGateway | desktop/main.js:741-744 | the generation is captured before the sign-in |
| LocalGateway.Main.SignInAgain | desktop/main.js:1349-1372 | the generation and the address are captured before the sign-in |
| LocalGateway.Main.ResumeAskingTheDoor | desktop/main.js:941-946 | a resumed ask starts from the current generation |
| LocalGateway.Main.SignOutKeptCall | desktop/main.js:685-692 | a sign-out of the kept list as a call of its own |
| LocalGateway.Main.QuitCall | desktop/main.js:1001-1006 | the quit lets the windows' session go first |
| LocalGateway.Main.WatchSays | desktop/main.js:685-692 | whether the gateway is gone or withheld, as the watch says |
| LocalGateway.Main.DoorAnswered | desktop/main.js:960-978 | an answer at a moved generation is kept, any other adopted |
| LocalGateway.Main.MovedAnswered | desktop/main.js:655-669 | an answer at a moved generation is kept, any other taken as the gateway in use |
| LocalGateway.Main.BackAnswered | desktop/main.js:744-760 | an answer at a moved generation is kept, any other adopted |
| LocalGateway.Main.AgainAnswered | desktop/main.js:1372-1390 | an answer after a loss or a move is kept, any other adopted |
| LocalGateway.Main.NotSignedIn | desktop/main.js:988-992 | no session came of it: the caller goes on |
| LocalGateway.Main.RecordReturned | desktop/main.js:761-767 | after the record's call: a moved generation keeps everything, else the list is signed out |
| LocalGateway.Main.SignOutNext | desktop/main.js:688-691 | each kept session is asked about, or kept again while no gateway can be asked |
| LocalGateway.Main.QuitGoesOn | desktop/main.js:685-692 | the quit's own session, then the kept ones |
| LocalGateway.Main.Answered | desktop/main.js:649-669 | a session that a sign-in answered goes to the call that asked |
| LocalGateway.Main.GoesOn | desktop/main.js:685-692 | no session came, the record's call is back, or the next sign-out |
| LocalGateway.Main.TakeEvent | desktop/main.js:345-362 | whatever comes next, exactly one step of the machine |
| LocalGateway.RunThrough | desktop/main.js:649-692 | a main process taken through any events has every session it was handed in its place, and the held one neither kept, sent nor dropped |
| GatewayWatch.NeverStopsLooking | desktop/gatewayWatch.js:69-142 | in every reachable state a withheld or ended gateway that is not an ended own start has a look running or its timer armed |
| GatewayWatch.LiftsOnlyOnProof | desktop/gatewayWatch.js:77-142 | a look lifts the withhold only after its proof, taken for a start not ended then, and for the app's own with equal pid, port and digest and the record read again after it; the start it lifts for is ended by then exactly when it is the one watched before and an End came after the proof |
| GatewayWatch.ProofTaken | desktop/gatewayWatch.js:98-131 | the proof a take-back acts on was taken earlier in the same look, for the gateway then watched |
| GatewayWatch.GoneExactlyWhen | desktop/gatewayWatch.js:132-137 | a gateway is said gone exactly when it is a found one with no live record and a dead process |
| GatewayWatch.EndIsAlwaysUndone | desktop/gatewayWatch.js:77-86 | at every successful take-back of the gateway still watched, an End since the proof of the same start, and only that, has its start ended, and the take-back undoes it |
| GatewayWatch.EndDuringTakeBackIsUndone | desktop/gatewayWatch.js:77-86 | counterexample to the comment that nothing is lifted for an ended start again: an End during the take-back is undone by it |
| GatewayWatch.StepKeeps | desktop/gatewayWatch.js:73-182 | every event keeps the watch's invariant |
| GatewayWatch.Watcher.constructor | desktop/gatewayWatch.js:52-58 | nothing watched |
| GatewayWatch.Watcher.LookAgain | desktop/gatewayWatch.js:73-75 | the timer is armed while there is cause |
| GatewayWatch.Watcher.Use | desktop/gatewayWatch.js:146-158 | a gateway taken anew is watched with nothing withheld |
| GatewayWatch.Watcher.DropWatch | desktop/gatewayWatch.js:160-165 | nothing watched |
| GatewayWatch.Watcher.EndStart | desktop/gatewayWatch.js:170-174 | the start watched is ended |
| GatewayWatch.Watcher.Lose | desktop/gatewayWatch.js:176-180 | withheld, and looked at again |
| GatewayWatch.Watcher.LookEnds | desktop/gatewayWatch.js:138-141 | a look ends by looking again while there is cause |
| GatewayWatch.Watcher.LookNow | desktop/gatewayWatch.js:88-137 | a look's first step |
| GatewayWatch.Watcher.ReachAnswers | desktop/gatewayWatch.js:108-131 | what a proof may start |
| GatewayWatch.Watcher.FollowAnswers | desktop/gatewayWatch.js:123-124 | a follow that handed over or not |
| GatewayWatch.Watcher.TakeBackAnswers | desktop/gatewayWatch.js:77-86 | the take-back's end, a gateway taken meanwhile left alone |
| GatewayWatch.Watcher.Take | desktop/gatewayWatch.js:88-182 | whatever comes next, exactly one step of the machine |
| GatewayWatch.WatchThrough | desktop/gatewayWatch.js:69-182 | a watch taken through any events looks again while there is cause |
| WatchTakesBack.LostGatewayIsTakenBack | desktop/gatewayWatch.js:88-131 | over every run the look a loss armed takes back a gateway that is there again, the app's own at its very start, a found one at whatever start is on its port now, with nothing withheld or ended |
| WatchTakesBack.LookBeginsExactly | desktop/gatewayWatch.js:88-141 | which record has a look read the proof, follow, say it gone or look later, and when its timer is armed again |
| WatchTakesBack.TakeBackBeginsExactlyWhen | desktop/gatewayWatch.js:98-131 | a take-back begins exactly on a proof of the gateway still watched, for a start not ended: the own start with the record naming it, or any start at a found one's port |
| WatchTakesBack.TakeBackLeaves | desktop/gatewayWatch.js:77-86 | over every run what a take-back leaves watched, withheld, ended and armed, whether it succeeds or not |
| WatchTakesBack.WatchedExactly | desktop/gatewayWatch.js:144-182 | what taking, dropping, losing, ending and following leave |
| WatchTakesBack.TakenAnewIsAnother | desktop/gatewayWatch.js:144-158 | a gateway taken anew is never the one a look is out for |
| Recovery.WindowsComeBackOnProof | desktop/main.js:629-740 | over every run of the sign-in and the watch joined by the last loss: the windows come back by a sign-in, or by a lift, untouched since, of a start a look proved, from which the held session came, at the generation of the last loss; the proof was taken after that loss exactly when the generation had not moved since the proof, which the app's own never has |
| Recovery.ProofBeforeTheLoss | desktop/main.js:722-740 | counterexample: a new sign-in and its loss overtake a found gateway's take-back, and the windows come back on a proof older than the last loss while the watch does not |
| Recovery.RunsBoth | desktop/main.js:629-640 | a joined run is a run of the sign-in and a run of the watch, so what is proved of either holds of it |
| Recovery.LiftIsOfAProof | desktop/main.js:635-636 | every lift is of a proof a look took: at once for the app's own gateway, after the one read for a found one's same start |
| Recovery.LostAtIsTheLastLoss | desktop/main.js:704-714 | a generation equal to the one kept at the last loss has not moved since that loss |
| Recovery.ProofIsOne | desktop/main.js:625-636 | what the take-back starts from is a proof of the gateway watched then, for a start not ended |
| Recovery.LiftBringsBothBack | desktop/main.js:629-740 | over every run of the two machines a lift nothing overtakes brings the windows in and leaves the gateway watched at the start proven, nothing withheld |
| Recovery.LiftsExactlyWhen | desktop/main.js:625-714 | a lift is made exactly on a proof of the app's own gateway or after the one read for a found one's same start; a loss withholds the record exactly when it is not withheld for it |
| Recovery.ProofStarts | desktop/main.js:722-744 | what a proof starts: a lift, the one read with the held session, or a sign-in to the new start |
| Recovery.TakeBackEndsExactlyWhen | desktop/main.js:722-768 | the take-back ends exactly with its lift's answer, its sign-in's or an ended sign-in, and succeeds exactly when that says so |
| VersionText.NamesVersionExactlyWhen | desktop/appUpdate.js:81-96 | a text names a version exactly when it is within the length limit and, trimmed, one of the spellings of that version |
| VersionText.SpellingIsRead | desktop/appUpdate.js:86-96 | every spelling is read as the version it names: any case, any separators, an optional `v`, each number up to six digits |
| Versions.CompareVersions | desktop/appUpdate.js:108-120 | the index loop computes the order of the keys, a missing component below every other |
| Versions.OrderIsTotalPreorder | desktop/appUpdate.js:108-120 | the order is a total preorder with values -1, 0 and 1 |
| Versions.OrderIsPep440ExactlyWhen | desktop/appUpdate.js:98-105 | the order is PEP 440's exactly on the pairs that are not two post-releases of one pre-release compared apart |
| Versions.OrderIsPep440 | desktop/appUpdate.js:98-105 | on versions without both a pre and a post part the order is PEP 440's |
| Versions.PostOfPreIsLost | desktop/appUpdate.js:100-101 | counterexample: `1.0.0a1.post1` and `1.0.0a1` compare as one version |
| Releases.OffersTheNewestEligible | desktop/appUpdate.js:140-158 | unpinned, an eligible release no eligible one exceeds is offered, and none exactly when none is eligible |
| Releases.OffersOnlyThePin | desktop/appUpdate.js:144-150 | pinned, only the pin's version, newer than this copy, is offered, and why not otherwise |
| Releases.OffersExactlyWhen | desktop/appUpdate.js:140-158 | unpinned, something is offered exactly when some release is no draft, newer than this copy and, on the stable channel, no pre-release by its mark or its version |
| Releases.ReadyAllowedExactlyWhen | desktop/appUpdate.js:740-743 | what the ready copy's re-check asks of its release |
| Releases.OfferIsReadyAllowed | desktop/appUpdate.js:740-743 | the choice re-run on what it offered, alone and under the same settings, offers it again |
| Releases.DownloadsWhatWasOffered | desktop/appUpdate.js:901-904 | Update downloads the very release offered, for every list: always under a pin or on the beta channel; on the stable channel exactly when the first usable record of its version is not marked a pre-release; and exactly when the ready copy's re-check would allow it |
| Releases.UnpinnedPick | desktop/appUpdate.js:140-158 | unpinned, the record downloaded is the one offered exactly when it is itself eligible |
| Releases.PinnedPick | desktop/appUpdate.js:144-150 | pinned, the record downloaded is the first usable one of the pin's version |
| Releases.TwinReleasesPart | desktop/appUpdate.js:903-904 | counterexample: two records of one version part the offer and the download |
| Updater.OneAtATime | desktop/appUpdate.js:836-1021 | over all interleavings at most one download or placement runs; a ready copy is the one the state names; a copy stands beside the app exactly while it is placed or waits for the swap; a private folder stands exactly while it is the ready copy's, or a running download's the quit has not let go of |
| Updater.TwoPressesFirst | desktop/appUpdate.js:966-1021 | what stands beside the app came from an Update for the version on offer and a later Restart to finish for the version ready that the settings read then allowed |
| Updater.NothingAfterStop | desktop/appUpdate.js:1158-1163 | after the quit's first step nothing becomes ready, is staged or is put beside the app |
| Updater.RunKeeps | desktop/appUpdate.js:836-1021 | the invariant over the state, the pending work and the disk holds in every reachable state |
| Updater.StepKeeps | desktop/appUpdate.js:836-1021 | every press, continuation and quit step keeps that invariant |
| AppUpdater.Updates.constructor | desktop/appUpdate.js:690-717 | idle, nothing ready, nothing staged |
| AppUpdater.Updates.DiscardReady | desktop/appUpdate.js:729-738 | the ready copy's folder goes with it |
| AppUpdater.Updates.Drop | desktop/appUpdate.js:747-754 | a copy the settings no longer allow is dropped with its offer |
| AppUpdater.Updates.AskForList | desktop/appUpdate.js:845-852 | the rest of a check: unreadable settings ask nothing |
| AppUpdater.Updates.CheckCall | desktop/appUpdate.js:836-852 | a check keeps an allowed ready copy and drops any other |
| AppUpdater.Updates.ListIsBack | desktop/appUpdate.js:853-878 | an update that started meanwhile keeps its own state |
| AppUpdater.Updates.DownloadEnds | desktop/appUpdate.js:942-957 | a download's last step, its folder removed unless it became ready |
| AppUpdater.Updates.DownloadCall | desktop/appUpdate.js:884-900 | Update begins only for the version on offer, one at a time |
| AppUpdater.Updates.ReleasesAreBack | desktop/appUpdate.js:901-906 | the list read again names the release downloaded |
| AppUpdater.Updates.CopyIsReady | desktop/appUpdate.js:926-938 | the copy is ready unless the app is stopping |
| AppUpdater.Updates.AssetIsHere | desktop/appUpdate.js:908-925 | the download, checked next |
| AppUpdater.Updates.CopyIsChecked | desktop/appUpdate.js:917-926 | the checks' end |
| AppUpdater.Updates.FinishCall | desktop/appUpdate.js:966-990 | Restart to finish re-reads the settings and the copy before anything is placed |
| AppUpdater.Updates.CopyIsPlaced | desktop/appUpdate.js:991-1018 | staged unless stopping, and gone when it failed |
| AppUpdater.Updates.StopCall | desktop/appUpdate.js:1158-1163 | stopping, the ready copy removed |
| AppUpdater.Updates.AbandonCall | desktop/appUpdate.js:1026-1058 | a download under way let go |
| AppUpdater.Updates.TakeStagedCopy | desktop/appUpdate.js:1064-1068 | the staged copy is taken once |
| AppUpdater.Updates.Take | desktop/appUpdate.js:836-1068 | whatever comes next, exactly one step of the machine |
| AppUpdater.UpdateThrough | desktop/appUpdate.js:836-1068 | an updater taken through any events has at most one piece of active work, a ready copy only as its state says, and none once stopping |
| UpdaterPresses.ReadyExactlyWhen | desktop/appUpdate.js:884-957 | over every run a copy becomes ready exactly when a running download's last check ends well while not stopping, is then that download's, of its release, with Restart to finish possible; and it stays exactly until it goes |
| UpdaterPresses.UpdateEndsReady | desktop/appUpdate.js:884-957 | an Update that nothing stops ends with its copy ready, over every interleaving: at every later moment it is under way or its copy became ready in its own folder, of the version pressed |
| UpdaterPresses.StagedExactlyWhen | desktop/appUpdate.js:991-1018 | over every run a copy is staged exactly when its placement ends well while not stopping, and until the swap takes it |
| UpdaterPresses.OfferExactly | desktop/appUpdate.js:853-878 | what is on offer after any event: what the list judged leaves to choose under the settings the check read, nothing once a copy is dropped or the settings are unreadable, else what was |
| UpdaterPresses.ListedOffersTheChosen | desktop/appUpdate.js:853-878 | and it is a release of the list that the choice names, said as available, up to date or failed |
| UpdaterPresses.StillAllowedExactlyWhen | desktop/appUpdate.js:740-743 | what the settings read allow of a ready copy |
| UpdaterPresses.WorkGoesOn | desktop/appUpdate.js:836-1018 | work begins exactly at its press, and only what it waits for brings it on, nearer to its end |
| UpdaterPresses.WorkEndsFree | desktop/appUpdate.js:942-1018 | over every run a download or placement that ends leaves the updater free unless staged, saying it failed when it did, with no folder left unless ready |
| UpdaterPresses.PressSays | desktop/appUpdate.js:836-990 | what the state says once a press began its work, or why it began none |
| UpdaterPresses.CopyNotAsChecked | desktop/appUpdate.js:976-990 | a Restart to finish for a copy that is gone offers it again, for another than was checked fails |
| UpdaterPresses.QuitLeavesNoFolder | desktop/appUpdate.js:1026-1058 | over every run no private folder is left once the quit let go of a download |
| Swap.SwapIsAllOrNothing | desktop/appUpdate.js:598-616 | for every combination of failures: the new copy is in place exactly when the swap says so, the old one survives at exactly one of the place and a name that was free, nothing else changes, and the app starts again on a copy that exists |
| Swap.NextStartTellsTheTruth | desktop/appUpdate.js:1097-1122 | the next start, on whichever copy, reads an update exactly when the swap took, and stranded exactly where it was left |
| Swap.HiddenNamesDiffer | desktop/appUpdate.js:455-461 | the old copy's fifty names are hidden ones in its folder, no two the same |
| Swap.Disk.constructor | desktop/appUpdate.js:598-616 | the disk as it is |
| Swap.Disk.Rename | desktop/appUpdate.js:598-616 | one rename, failing or replacing |
| Swap.Disk.Discard | desktop/appUpdate.js:1080-1084 | the incoming copy's removal, which may fail |
| Swap.Disk.FreePrevious | desktop/appUpdate.js:455-461 | the first of fifty hidden names nothing holds, or none |
| Swap.Disk.SwapNow | desktop/appUpdate.js:598-616 | two renames, the second one's failure undoing the first |
| Swap.Disk.SwapIfStaged | desktop/appUpdate.js:1064-1092 | the free name, the swap, the clean-up, and where the app starts again |
| Shutdown.OneVerdictInTime | desktop/gatewayShutdown.js:176-268 | one verdict, the one its history dictates, within grace, kill wait and sweep; until then one armed timer due by then |
| Shutdown.VerdictStands | desktop/gatewayShutdown.js:183-190 | a verdict, once given, is never replaced |
| Shutdown.GroupOnlyWhenLed | desktop/gatewayShutdown.js:151-174 | a group signal goes out only when asked for and the system says the child leads its group |
| Shutdown.StepKeeps | desktop/gatewayShutdown.js:183-266 | every exit and timer keeps the stop's invariant |
| Shutdown.Stopping.constructor | desktop/gatewayShutdown.js:120-149 | no child or a reaped one is no stop; else SIGTERM goes out |
| Shutdown.Stopping.Settle | desktop/gatewayShutdown.js:183-190 | the first verdict stands and clears every timer |
| Shutdown.Stopping.ExitEvent | desktop/gatewayShutdown.js:192-231 | the exit clears the escalation and sweeps a group that still has members |
| Shutdown.Stopping.GraceTimer | desktop/gatewayShutdown.js:256-259 | SIGKILL |
| Shutdown.Stopping.KillTimer | desktop/gatewayShutdown.js:260-265 | orphaned |
| Shutdown.Stopping.SweepTimer | desktop/gatewayShutdown.js:220-231 | what the sweep found |
| Shutdown.Stopping.Passes | desktop/gatewayShutdown.js:176-181 | time passes up to the next armed timer |
| Shutdown.Stopping.Take | desktop/gatewayShutdown.js:192-266 | whatever comes next, exactly one step of the machine |
| Shutdown.StopThrough | desktop/gatewayShutdown.js:176-268 | a stop taken through any events has at most one verdict, the one its history dictates and in time, or an armed timer |
| Shutdown.SignalsInOrder | desktop/gatewayShutdown.js:192-266 | over every run exactly which signals went out, in order: none to no child; else SIGTERM, SIGKILL exactly when the grace ended with no exit heard, the look at the group exactly at the exit, the sweep exactly when its wait ended |
| Shutdown.SettlesExactlyWhen | desktop/gatewayShutdown.js:192-266 | which event brings the verdict, and that time passes when it may |
| Shutdown.SweptExactlyWhen | desktop/gatewayShutdown.js:218-231 | the verdict says the group was swept exactly when the sweep found members |
| Shutdown.NoChildNoStop | desktop/gatewayShutdown.js:120-149 | over every run no child, or one already reaped, is no stop: said with its code or signal, nothing sent |
| Shutdown.GroupExactlyWhen | desktop/gatewayShutdown.js:151-174 | the signals go to the group exactly when asked for and the child leads one |
| Quit.QuitIsBounded | desktop/quitSequence.js:55-67 | asks and stop end within the deadline and one sweep, or what the asks overran, for every plan and every run of the stop |
| Quit.QuitFitsItsWindow | desktop/quitSequence.js:24-32 | with the shipped constants: at least 6 s of grace, over within 9 s, inside the 10 s window |
| Quit.AsksAreBounded | desktop/quitSequence.js:34-43 | asks made together take no longer than the longest one may |
| Quit.AnswerCountsExactlyWhen | desktop/quitSequence.js:34-43 | an ask counts exactly when answered in time, and takes no longer than its answer, failure or time |
| Quit.GraceUsesTheDeadline | desktop/quitSequence.js:55-67 | the grace is all the deadline leaves after the asks and the kill wait |
| Doorbell.OneSocketOneRead | desktop/doorbell.js:73-207 | over every run: at most one read out; a gateway set has exactly one of a socket or an armed retry; no poll while the socket is open; only its socket has live handlers |
| Doorbell.NoLostWakeUp | desktop/doorbell.js:90-114 | a ring is at every later moment waiting for its read's timer, for the read under way to be followed by another, or already followed by a read begun after it |
| Doorbell.WakeUpArrives | desktop/doorbell.js:90-114 | the timer begins the read or leaves the one under way to be followed by it, and that one's end begins it |
| Doorbell.NothingAfterStop | desktop/doorbell.js:182-188 | after a stop, until a connection: no socket, no live handler, no timer, no news |
| Doorbell.QuietUntilConnected | desktop/doorbell.js:142-188 | however a doorbell came to have no gateway, a stop inside its own news included: no socket, no live handler, no poll, no ring and no news until a connection, and a retry left armed fires at most once and opens nothing |
| Doorbell.StrayRetry | desktop/doorbell.js:142-154 | the run that leaves a retry armed on a stopped doorbell |
| Doorbell.StrayRetryExactlyWhen | desktop/doorbell.js:142-154 | a retry is left armed on a stopped doorbell exactly when the shell stops it inside the news of a loss |
| Doorbell.FailuresBackOff | desktop/doorbell.js:142-154 | while the socket will not open each failure waits the backoff's next step |
| Doorbell.WaitsGrow | desktop/doorbell.js:147-149 | the waits grow from 1 s to 30 s and stay there |
| Doorbell.BackoffBeginsAgain | desktop/doorbell.js:167-199 | an opening and a new connection begin the backoff again |
| Doorbell.StepKeeps | desktop/doorbell.js:84-200 | every event keeps the doorbell's invariant |
| Doorbell.Bell.constructor | desktop/doorbell.js:74-82 | nothing armed |
| Doorbell.Bell.Read | desktop/doorbell.js:90-104 | one read, or another after the one under way |
| Doorbell.Bell.ReadIsBack | desktop/doorbell.js:97-104 | the next pass of the read loop |
| Doorbell.Bell.RingBell | desktop/doorbell.js:108-114 | one read for a burst |
| Doorbell.Bell.LetGo | desktop/doorbell.js:130-140 | the socket and its handlers |
| Doorbell.Bell.StopAll | desktop/doorbell.js:182-188 | every timer and the socket |
| Doorbell.Bell.Tell | desktop/doorbell.js:84-88 | the news, once a change |
| Doorbell.Bell.GoDown | desktop/doorbell.js:142-154 | lost: the lists polled, a retry armed with its backoff |
| Doorbell.Bell.OpenSocket | desktop/doorbell.js:156-166 | a socket, or down at once |
| Doorbell.Bell.ConnectTo | desktop/doorbell.js:192-199 | stopped first, then read and opened |
| Doorbell.Bell.OnOpen | desktop/doorbell.js:167-172 | up: the backoff and the poll end, and it rings |
| Doorbell.Bell.OnClose | desktop/doorbell.js:178-179 | down |
| Doorbell.Bell.OnRestarting | desktop/doorbell.js:173-177 | the restart is said |
| Doorbell.Bell.RetryTimer | desktop/doorbell.js:150-153 | opened again |
| Doorbell.Bell.RungTimer | desktop/doorbell.js:110-113 | the burst's read |
| Doorbell.Bell.PollTimer | desktop/doorbell.js:116-123 | the poll's read |
| Doorbell.Bell.Take | desktop/doorbell.js:84-200 | whatever comes next, exactly one step of the machine |
| Doorbell.RingThrough | desktop/doorbell.js:73-207 | a doorbell taken through any events has at most one read out, one of a socket or a retry while a gateway is set, and neither handler nor poll nor ring while none is |
| Doorbell.ReadsExactlyWhen | desktop/doorbell.js:90-123 | a read begins exactly when a connection, a poll's tick or a burst's end asks for one and none is under way, or when the one under way is back and another was asked for |
| Doorbell.OpensExactlyWhen | desktop/doorbell.js:150-166 | which events open a socket: a new one, not open yet, alone with live handlers |
| Doorbell.DownLeaves | desktop/doorbell.js:142-154 | what being brought down leaves: the poll, a retry after the backoff's next wait, the loss said unless a restart was; or, stopped in that news, the stray retry alone |
| Doorbell.SocketSays | desktop/doorbell.js:167-179 | what the socket in use brings, and that one let go brings nothing |
| Doorbell.RingsExactlyWhen | desktop/doorbell.js:107-114 | a ring arms one timer for its burst while a gateway is set |
| EndpointKeys.ParseInvertsKey | desktop/endpointRegistry.js:191-207 | every id and logical key come back from their storage key, colons and all |
| EndpointKeys.KeysNeverMeet | desktop/endpointRegistry.js:182-193 | two storage keys are equal exactly when their ids and logical keys are |
| EndpointKeys.ParsedExactlyWhen | desktop/endpointRegistry.js:196-207 | which texts parse, and as what: leading zeros in the length included |
| EndpointKeys.LeadingZeroIsRead | desktop/endpointRegistry.js:196-207 | the input: `ep:01:a:k` is read, though no endpoint's key is written so |
| EndpointKeys.ForgetsOneEndpointOnly | desktop/endpointRegistry.js:237-244 | clearing an endpoint removes exactly the keys that parse to its id; every other endpoint's and the shell's own are as they were |
| EndpointKeys.Store.constructor | desktop/endpointRegistry.js:211-218 | an empty store |
| EndpointKeys.Store.KeyAt | desktop/endpointRegistry.js:214-215 | the key at an index, or none |
| EndpointKeys.Store.GetItem | desktop/endpointRegistry.js:226-227 | what a key holds |
| EndpointKeys.Store.RemoveItem | desktop/endpointRegistry.js:241-242 | one key goes and the indices after it shift |
| EndpointKeys.Store.SnapshotKeys | desktop/endpointRegistry.js:211-218 | every key, before any is removed |
| EndpointKeys.Store.ClearEndpointState | desktop/endpointRegistry.js:239-244 | the keys that parse to the id go, the rest keep their order, although indices shift as it deletes |
| EndpointRegistry.NormalizeRegistry | desktop/endpointRegistry.js:106-120 | the loop reads the first row of each id and an active one that is listed |
| EndpointRegistry.AlwaysAList | desktop/endpointRegistry.js:103-120 | whatever is stored, what is read has distinct ids and an active one that is listed |
| EndpointRegistry.ReadExactlyWhen | desktop/endpointRegistry.js:90-116 | a row is read exactly when it is the first with its id of those that can be one |
| EndpointRegistry.RowIsReadAs | desktop/endpointRegistry.js:90-101 | what a stored row is read as: none without an id; else its texts, remote unless it says `local` |
| EndpointRegistry.ReadsBackExactlyWhen | desktop/endpointRegistry.js:133-135 | a saved list is read back unchanged exactly when it is well formed |
| EndpointRegistry.AddsExactlyWhen | desktop/endpointRegistry.js:150-162 | adding keeps a list well formed exactly when the row has an id; it replaces in place or appends, and becomes active |
| EndpointRegistry.RemovesOneRow | desktop/endpointRegistry.js:167-172 | exactly the row of the id goes, and the active one falls to the first that stays |
| EndpointRegistry.EditsKeepAList | desktop/endpointRegistry.js:150-179 | over every run of edits the list stays well formed, and saving then reading it changes nothing |
| IpText.ParseIPv4 | desktop/gatewayUrl.js:50-62 | the loop reads the four octets or nothing |
| IpText.QuadExactlyWhen | desktop/gatewayUrl.js:49-62 | a text is read exactly when it is the canonical dotted quad of the four octets it names |
| IpText.ParseIPv6 | desktop/gatewayUrl.js:89-126 | the rewriting of the quad and the gap computes the eight groups |
| IpText.FormIsRead | desktop/gatewayUrl.js:89-126 | every text form of an address (full, any gap, a dotted quad at the end) is read as that address |
| IpText.AddressExactlyWhen | desktop/gatewayUrl.js:89-126 | a text is read as an address exactly when, its zone dropped, it is one of the forms that write it; beside those of RFC 4291 a gap may stand for no group |
| IpText.GapForNoGroup | desktop/gatewayUrl.js:89-126 | the input: `1:2:3:4::5:6:7:8` is read as eight groups, its gap standing for none |
| HostClass.OneAnswerForAllSpellings | desktop/gatewayUrl.js:139-167 | all spellings of one IPv6 address, bare, bracketed, dotted or in any case, get one verdict, that of the address |
| HostClass.LoopbackExactlyWhen | desktop/gatewayUrl.js:139-205 | a host is loopback exactly when it is `localhost`, a canonical quad of 127/8 or a form of ::1 |
| HostClass.V4ByBlocks | desktop/gatewayUrl.js:170-191 | which IPv4 addresses are loopback, private and refused, by address block |
| HostClass.V6ByPrefix | desktop/gatewayUrl.js:149-167 | which IPv6 addresses, in every form, are loopback, private, refused and public, by prefix |
| HostClass.NamesByLabels | desktop/gatewayUrl.js:189-208 | which names are loopback, refused, private and public, from their labels |
| HostClass.LabelIs | desktop/gatewayUrl.js:196-198 | what a label is |
| HostClass.OtherNumbersAreRefused | desktop/gatewayUrl.js:70-77 | an address in numbers written any other way than canonically is refused |
| HostClass.NoFormIsRefused | desktop/gatewayUrl.js:147-151 | what has a colon and is no form of an address is refused, and so is nothing at all |
| HostClass.PaddingIsDropped | desktop/gatewayUrl.js:139-146 | white space around a host does not matter |
| PercentText.EncodedComesBack | desktop/deepLinks.js:123-129 | percent-decoding inverts percent-encoding for every text, through UTF-8 |
| PercentText.FormComesBack | desktop/deepLinks.js:173-174 | form-decoding inverts form-encoding for every text |
| PercentText.DecodesExactlyWhen | desktop/deepLinks.js:123-129 | what a text decodes to, exactly: the one it writes, each character itself or its shortest UTF-8 bytes in hexadecimal of either case; and none when it writes none |
| DeepLinks.GatherSegments | desktop/deepLinks.js:159-166 | the loop gathers the decoded segments or stops at the first refusal |
| DeepLinks.GatherGiven | desktop/deepLinks.js:168-188 | the loop gathers the parameters or stops at the first refusal |
| DeepLinks.ParseDeepLink | desktop/deepLinks.js:137-198 | the link's route and hash, or the reason of the first refusal |
| DeepLinks.AcceptedIsAllowed | desktop/deepLinks.js:137-191 | only allowed links are accepted: a known route, at most four clean segments, each parameter of its shape and where its route takes it |
| LinkGrammar.AcceptedExactlyWhen | desktop/deepLinks.js:137-191 | which texts are accepted, and as which link: within the limit, the scheme in any case, no fragment, and spelling an allowed link |
| LinkGrammar.AllowedParts | desktop/deepLinks.js:137-191 | what an allowed link is made of |
| LinkGrammar.ParametersAre | desktop/deepLinks.js:81-118 | what each parameter may be, and on which route; a file stays inside the thread's folder |
| LinkGrammar.SegmentsAre | desktop/deepLinks.js:159-166 | what a segment may be |
| DeepLinks.HashReadsBack | desktop/deepLinks.js:193-197 | every allowed link, written as its hash is, is accepted as that link while it is within the limit |
| DeepLinks.HashIsCanonicalExactlyWhen | desktop/deepLinks.js:193-210 | every accepted link's hash matches the hash grammar, and reading that hash as a link gives the same route and hash exactly when it is within the link's limit |
| DeepLinks.AcceptedLinksNeverThrow | desktop/deepLinks.js:207-210 | every accepted link gives a script that assigns that very hash |
| DeepLinks.NewestLinkIsKept | desktop/deepLinks.js:227-252 | over every run the newest accepted link waits, or was the last handed on as soon as the window could take it, once |
| LongLinks.EncodingOutgrowsTheLimit | desktop/deepLinks.js:58-79 | counterexample: an accepted link within the limit whose own hash is longer than the limit |
| DeepLinks.Inbox.constructor | desktop/deepLinks.js:227-228 | nothing waits |
| DeepLinks.Inbox.Flush | desktop/deepLinks.js:230-236 | what waits is handed on when it can be, once |
| DeepLinks.Inbox.Receive | desktop/deepLinks.js:238-249 | an accepted link replaces the one waiting; a refused one changes nothing |
| Interrupted.CarryPresence | desktop/trayPresence.js:241-266 | the local reassignments compute the fold's step |
| Interrupted.SaysOnlyWhatIsTrue | desktop/trayPresence.js:226-266 | over every run of polls: the rows last read; no work said interrupted twice or while the list last read shows it; at most 20; none of 10 minutes or more |
| Interrupted.SaidWasCut | desktop/trayPresence.js:250-263 | whatever is said as interrupted ran in the last poll that read an earlier start, was unknown to the first that read the next, and has been unknown since |
| Interrupted.StaysSaidExactlyWhen | desktop/trayPresence.js:250-263 | when a poll goes on saying a cut, and when it stops |
| Interrupted.NewlySaidExactlyWhen | desktop/trayPresence.js:250-256 | a new start says every row it knows nothing of, up to the 20 kept |
| Interrupted.CutIsSaidAtOnce | desktop/trayPresence.js:250-256 | the converse of `SaidWasCut`: over every run what a restart cut off is said at the first poll that reads the next start, unless 20 rows before it are |
| Interrupted.NewestAreSaidFirst | desktop/trayPresence.js:250-263 | over every run, on a clock that does not go back, the newest cuts are said first |
| Interrupted.RunKeeps | desktop/trayPresence.js:241-266 | what is interrupted is disjoint from the rows the next start is judged by, in every run |
| Placement.CardClearsTheOrb | desktop/buddyPlacement.js:80-127 | for any orb in its work area: the card never covers it and keeps its gap, a card that is not empty lies in the work area, and the window is the smallest that holds both, its inner rectangles giving back the screen's |
| Placement.WindowInsideExactlyWhen | desktop/buddyPlacement.js:80-127 | the window lies in the work area exactly when a card fits beside the orb or the gap has room under or over it |
| Placement.WindowLeavesALowArea | desktop/buddyPlacement.js:80-127 | the input: in a work area the size of the orb the window reaches out of it |
| Placement.WindowFitsTallAreas | desktop/buddyPlacement.js:80-127 | from 71 points of height on the window always lies in the work area |
| Placement.CardStandsByTheOrb | desktop/buddyPlacement.js:91-117 | which side, which way it opens, how tall, and that it spans the orb beside it |
| Placement.DisplayAt | desktop/buddyPlacement.js:130-143 | the loop finds the display that holds the point, else the first of the nearest |
| Placement.OnItsOwnDisplay | desktop/buddyPlacement.js:130-133 | on displays that do not overlap a point on one is on that one |
| Placement.DropIsSaved | desktop/buddyPlacement.js:187-228 | a drop that does not snap, settled, written and read, names its display and place and keeps every other display's spot |
| Placement.DropIsFoundAgain | desktop/buddyPlacement.js:198-211 | on any later displays the orb is its corner's spot kept inside its display while that is there, inside the work area whenever the orb fits it, the very same spot in one of the same size; and at the default while it is not there |
| Placement.EveryDisplayKeepsItsSpot | desktop/buddyPlacement.js:187-228 | over every run of drops on displays that come and go: each display keeps the spot of the last drop that settled on it, and the orb is at the last drop's display or the default |
| Placement.SnapIsTheDefault | desktop/buddyPlacement.js:216-223 | a drop near the default is the default and forgets no display's spot |
| Placement.SnapsExactlyWhen | desktop/buddyPlacement.js:216-223 | a drop is put back to the default exactly when it is within 96 points of it |
| Placement.DefaultIsUnderTheMenuBar | desktop/buddyPlacement.js:61-64 | where the default is: in the middle of the menu-bar display to half a point, 8 under the top of its work area |
| Placement.MenuBarIs | desktop/buddyPlacement.js:198-202 | the menu-bar display is the primary one while usable, else the first usable one |
| Placement.KeptIsNearest | desktop/buddyPlacement.js:66-73 | kept inside, an orb is moved no further than it must be |
| Placement.ReadHasItsSpot | desktop/buddyPlacement.js:150-173 | what is read names a display only with a spot for it |
| Placement.EarlierSpotIsKept | desktop/buddyPlacement.js:166-171 | the earlier window's spot is where the orb stands while its display is there |

## Left out

- JarIsSafe: assumes no cookie operation fails and every ready line has a token, as a failed write or a tokenless line can leave another cookie in the jar.
- PairNeverCrossesOrigins: takes origins already split into scheme, host and port; `originKey`'s URL parser is not part of this model.
- OneAtATime: a private folder's or a copy's removal always succeeds, so what a failed removal leaves for the next start's sweep is not modelled; nor are the sweep, the Trash and disk images.
- WindowsComeBackOnProof: a found gateway's new sign-ins are the sign-in's own events and the door's asks are not counted; what the one read with the held session answers comes with the event.
- SignInBringsWindowsBack: the end of a call is assumed, which is the store's to bring; `CallsEnd` says that its landings do.
- WakeUpArrives: says which step brings the read, not that the timer or the read's answer ever comes, which is the environment's.
- DropIsFoundAgain: JSON text and fractional coordinates are not modelled; distances are compared by their squares.
- ClassifyHost: letters are folded as ASCII, and the DNS half (`resolveHostTrust`) and the transport policy are not modelled.
- ParseDeepLink: characters are Unicode scalar values, so a lone surrogate in a link is not modelled; the page checks around delivery are the `canDeliver` answer.
- NormalizeRegistry: stored values are trees; JSON's text form and the storage errors are not modelled.
- The count of window-door asks per start: the code does not stop on it (`askWindowDoor` ignores `spendDoorAsk`'s answer), so only its generation checks are modelled.
- `parseReadyLine`, `movedUrl`, `movesOnRestart`, `signOutRequest`: short parsers and tables beside the sign-in protocol.
- The proofs of a gateway's identity, code signatures and digests: an answer an event brings.
- Downloads, disk images, `codesign`, `ditto`, process spawning, sockets and HTTP: outcomes an event brings.
- Views, menus, windows, tray drawing, preloads and their registration: no state of their own to keep.
- `capabilities.js`, `loginItem.js`, `shellRefusal.js`, `gatewayLost.js`, `shellStore.js`, `pushToTalk.js`, `buddyAway.js`: short branch tables and sets with no state.
- The Python harness and the web, mobile and gateway code.
