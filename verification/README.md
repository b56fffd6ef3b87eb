# Hubot steps for Jenkins, modelled in Dafny

This project models the decision logic of the Jenkins Hubot steps plugin and proves
properties of it. The plugin posts build notifications and pipeline messages to a
Hubot chat bot.

What is modelled:

- **Notification types.** `Type.fromResults` turns the previous and current build
  results into an event type (`notifications.dfy`).
- **Site resolution.** `HubotSite.get` resolves the site a job uses. It searches the
  enclosing folders nearest-first, then the global sites, and returns a fresh copy
  (`sites.dfy`). `HubotSite` is a class whose setters change it in place; the search is
  an imperative walk proved equal to a value-level specification (`Resolve`).
- **Build listener.** On build start and completion, every enabled rule of the right
  type posts once per listed room. A failed send marks the build FAILURE under
  fail-on-error (`listener.dfy`).
- **The client.** `HubotService` computes the effective room and turns every exception
  into a code -1 response (`service.dfy`).
- **Step validation.** `verifyCommon` is the validation and fallback cascade shared by
  the steps: step parameter, then `HUBOT_*` environment variable, then error; or step
  parameter, then resolved site (`step_execution.dfy`). The execution is a class; its
  method is proved equal to the specification `VerifySpec`.
- **The steps.** `hubotSend` and `hubotApprove`: status default, send only after
  validation, the `logResponse` abort policy, the approval id default "Proceed", and
  abort before the input gate (`steps.dfy`).
- **Helpers of `Common`.** URL sanitising, root cause, response normalisation, build
  user and cause derivation, token expansion and `logResponse` (`common.dfy`). The
  small JDK string helpers they rely on are in `java_text.dfy`.
- **URL binding.** `EmptyFriendlyURLConverter` (`url_converter.dfy`).

Abstract parameters stand for everything outside the plugin:

- Java `null` is `Option.None`.
- URL syntax is a predicate (`UrlSyntax`).
- The HTTP exchange is a function (`Endpoint`). So are the token-macro expander, the
  localised message bundle and the input gate (`Gate`).
- The clock is a number passed in.

Where the step executions differ between files, the model follows the code that is
called. `ApproveStepExecution` is declared to extend `util/HubotStepExecution.java`,
whose `verifyCommon` takes three arguments. The call at `steps/ApproveStep.java:162`
passes one argument, so both steps are modelled with the one-argument `verifyCommon` of
`HubotAbstractSynchronousNonBlockingStepExecution.java`. That version's fail-on-error
default (true) is also the one the approval tests expect.

## Model

| member | source | states |
|---|---|---|
| Notifications.FromResults | src/main/java/org/thoughtslive/jenkins/plugins/hubot/config/notifications/Type.java:56-74 | an absent current result is an IllegalStateException "Unable to determine notification type" and nothing else is; STARTED is never produced |
| Notifications.ClassificationFollowsCurrent | src/main/java/org/thoughtslive/jenkins/plugins/hubot/config/notifications/Type.java:57-71 | every present result is classified; BACK_TO_NORMAL exactly when SUCCESS follows a present non-SUCCESS result (ABORTED and NOT_BUILT included), otherwise the type named like the current result |
| Notifications.TagsDistinct | src/main/java/org/thoughtslive/jenkins/plugins/hubot/config/notifications/Type.java:13-54 | the seven types have pairwise different names and status message keys |
| Jenkins.Worsen | src/main/java/org/thoughtslive/jenkins/plugins/hubot/listener/BuildListener.java:109 | setting a result yields the worse of the current and the given result, never a better one |
| Jenkins.WorsenIdempotent | src/main/java/org/thoughtslive/jenkins/plugins/hubot/listener/BuildListener.java:108-110 | setting the same result twice equals setting it once |
| Jenkins.FailureOverrides | src/main/java/org/thoughtslive/jenkins/plugins/hubot/listener/BuildListener.java:108-110 | FAILURE marks a running, successful or unstable build failed but keeps ABORTED and NOT_BUILT |
| Common.SanitizeURL | src/main/java/org/thoughtslive/jenkins/plugins/hubot/util/Common.java:38-43 | the result ends with "/", extends the input by at most that "/", and is the input itself when it already ends with "/" |
| Common.SanitizeIdempotent | src/main/java/org/thoughtslive/jenkins/plugins/hubot/util/Common.java:38-43 | sanitising twice equals sanitising once |
| Common.GetRootCause | src/main/java/org/thoughtslive/jenkins/plugins/hubot/util/Common.java:118-123 | the root cause has no cause |
| Common.RootCauseIsLastLink | src/main/java/org/thoughtslive/jenkins/plugins/hubot/util/Common.java:118-123 | the root cause is the last link of the cause chain, and every earlier link has a cause |
| Common.BuildErrorResponse | src/main/java/org/thoughtslive/jenkins/plugins/hubot/util/Common.java:103-111 | unsuccessful, code -1, error = the root cause's message, no status line and no data |
| Common.ErrorResponseOfMessage | src/main/java/org/thoughtslive/jenkins/plugins/hubot/util/Common.java:103-111 | an exception with a message and no cause gives exactly that error text |
| Common.ParseResponse | src/main/java/org/thoughtslive/jenkins/plugins/hubot/util/Common.java:83-95 | copies success (2xx), code and status line; error body only on failure, body only on success; an unreadable error body on failure throws, and nothing else does |
| Common.OriginCause | src/main/java/org/thoughtslive/jenkins/plugins/hubot/util/Common.java:140-147 | the first-cause walk through upstream causes never stops at an upstream cause |
| Common.PrepareBuildUserName | src/main/java/org/thoughtslive/jenkins/plugins/hubot/util/Common.java:132-149 | a non-empty CHANGE_AUTHOR wins; a null cause list otherwise gives "anonymous" |
| Common.UserNameIsOriginUser | src/main/java/org/thoughtslive/jenkins/plugins/hubot/util/Common.java:132-149 | the user is CHANGE_AUTHOR if non-empty, else the name in the originating user cause, else "anonymous" |
| Common.PrepareBuildUserId | src/main/java/org/thoughtslive/jenkins/plugins/hubot/util/Common.java:182-194 | a null cause list gives null |
| Common.UserIdIsOriginUser | src/main/java/org/thoughtslive/jenkins/plugins/hubot/util/Common.java:182-194 | the user id is the id of the originating user cause, null when there is none |
| Common.StripCause | src/main/java/org/thoughtslive/jenkins/plugins/hubot/util/Common.java:172 | the removal keeps null as null and a text as a text |
| Common.FirstLabelErrorFound | src/main/java/org/thoughtslive/jenkins/plugins/hubot/util/Common.java:159-170 | the loop's first throwing cause is the exception reported; none when no cause throws |
| Common.LastCauseDecides | src/main/java/org/thoughtslive/jenkins/plugins/hubot/util/Common.java:159-172 | when no cause throws, the last cause's text with "Cause" removed is the build cause |
| Common.UserCauseAfterOtherThrows | src/main/java/org/thoughtslive/jenkins/plugins/hubot/util/Common.java:162-163 | a user cause in a list whose first cause is not a user cause makes the derivation throw ClassCastException |
| Common.CauseRemovedAnywhere | src/main/java/org/thoughtslive/jenkins/plugins/hubot/util/Common.java:172 | for every text `a` with no "C" and every rest `b`, removing "Cause" from `a` + "Cause" + `b` gives `a` followed by the removal from `b`: an occurrence goes wherever it is, not only as a suffix, and the pass continues after it |
| Common.PrepareBuildCause | src/main/java/org/thoughtslive/jenkins/plugins/hubot/util/Common.java:156-173 | the loop computes `BuildCause`: null for a null or empty list, otherwise as the lemmas above describe |
| Common.PrepareBuildCauseOfList | src/main/java/org/thoughtslive/jenkins/plugins/hubot/util/Common.java:159-172 | the loop over a non-null list, recursing into upstream causes, computes `BuildCauseOfList` |
| Common.TokenNames | src/main/java/org/thoughtslive/jenkins/plugins/hubot/util/Common.java:203-204 | one trimmed name per comma-separated field, in order |
| Common.ExpandedTokens | src/main/java/org/thoughtslive/jenkins/plugins/hubot/util/Common.java:200-215 | keys are exactly the trimmed token names, each bound to the expansion of "${name}" (null on failure); empty for a null or empty list |
| Common.ExpandMacros | src/main/java/org/thoughtslive/jenkins/plugins/hubot/util/Common.java:200-215 | the loop builds exactly `ExpandedTokens` |
| Common.ExpandEach | src/main/java/org/thoughtslive/jenkins/plugins/hubot/util/Common.java:203-212 | the map holds exactly the given names, each bound to its expansion |
| Common.TokenKeysAreTrimmed | src/main/java/org/thoughtslive/jenkins/plugins/hubot/util/Common.java:203-211 | no key starts or ends with a character `trim` removes |
| Common.LogResponse | src/main/java/org/thoughtslive/jenkins/plugins/hubot/util/Common.java:223-238 | returns the response unchanged unless it is unsuccessful under fail-on-error, and then aborts with exactly its error text |
| Service.NewService | src/main/java/org/thoughtslive/jenkins/plugins/hubot/service/HubotService.java:26-35 | a site without URL throws NullPointerException; otherwise the base URL is the sanitised URL |
| Service.EffectiveRoom | src/main/java/org/thoughtslive/jenkins/plugins/hubot/service/HubotService.java:45-51 | a missing room throws NullPointerException, and nothing else does |
| Service.PrefixOnlyUnderFolderNames | src/main/java/org/thoughtslive/jenkins/plugins/hubot/service/HubotService.java:46-50 | prefix.trim() + room.trim() exactly when the site uses folder names and the prefix is non-empty; room.trim() otherwise |
| Service.EffectiveRoomOfTrimmedRoom | src/main/java/org/thoughtslive/jenkins/plugins/hubot/service/HubotService.java:49-50 | without a prefix in play, a trimmed room is used as it is |
| Service.RequestUrl | src/main/java/org/thoughtslive/jenkins/plugins/hubot/service/HubotEndPoints.java:16 | the request URL is the base URL, then the endpoint path "hubot/notify/", then the room: each of the three segments is fixed by position |
| Service.SendMessage | src/main/java/org/thoughtslive/jenkins/plugins/hubot/service/HubotService.java:43-57 | a missing room, a failed exchange or an unreadable error body becomes `buildErrorResponse`; a completed exchange is `parseResponse`d; nothing escapes |
| Service.ResponseIsStatusOrMinusOne | src/main/java/org/thoughtslive/jenkins/plugins/hubot/service/HubotService.java:43-57 | the response is the unsuccessful code -1, or the status of the completed exchange posted for the effective room, successful exactly for 2xx |
| Service.MissingRoomIsMinusOne | src/main/java/org/thoughtslive/jenkins/plugins/hubot/service/HubotService.java:54-56 | a site without a room gets an unsuccessful code -1 response |
| Service.OkReplyGivesCode200 | src/test/java/org/thoughtslive/jenkins/plugins/hubot/service/HubotServiceTest.java:42-52 | an HTTP 200 reply gives a successful response with code 200 |
| Service.RequestTarget | src/main/java/org/thoughtslive/jenkins/plugins/hubot/service/HubotService.java:31 | for every site with a URL a service is made, and a message for any room goes to the URL (with "/" appended unless it ends with one), then "hubot/notify/", then the room |
| UrlConverter.Convert | src/main/java/org/thoughtslive/jenkins/plugins/hubot/config/EmptyFriendlyURLConverter.java:19-29 | null, "" and "null" give null; any other value gives its URL exactly when well-formed, and null (never an exception) otherwise |
| UrlConverter.ConvertRoundTrip | src/main/java/org/thoughtslive/jenkins/plugins/hubot/config/EmptyFriendlyURLConverter.java:24 | converting the string form of a well-formed URL gives the URL back |
| Sites.Cloned | src/main/java/org/thoughtslive/jenkins/plugins/hubot/config/HubotSite.java:181-186 | a copy has every field of the original, notification rules included; the name is normalised by `fixEmpty` |
| Sites.CloneOfNormalisedIsExact | src/main/java/org/thoughtslive/jenkins/plugins/hubot/config/HubotSite.java:72-85 | a site built through the constructor is copied exactly |
| Sites.HubotSite.constructor | src/main/java/org/thoughtslive/jenkins/plugins/hubot/config/HubotSite.java:71-85 | stores every argument, the name after `fixEmpty` |
| Sites.HubotSite.Clone | src/main/java/org/thoughtslive/jenkins/plugins/hubot/config/HubotSite.java:180-186 | a fresh object holding `Cloned` of the original, which is left unchanged |
| Sites.HubotSite.SetRoom | src/main/java/org/thoughtslive/jenkins/plugins/hubot/config/HubotSite.java:61 | changes the room and nothing else |
| Sites.HubotSite.SetRoomPrefix | src/main/java/org/thoughtslive/jenkins/plugins/hubot/config/HubotSite.java:63 | changes the room prefix and nothing else |
| Sites.HubotSite.SetFailOnError | src/main/java/org/thoughtslive/jenkins/plugins/hubot/config/HubotSite.java:65 | changes the fail-on-error flag and nothing else |
| Sites.Pick | src/main/java/org/thoughtslive/jenkins/plugins/hubot/config/HubotSite.java:128-141 | a chosen site is selected (name match, or default flag without a name); only a by-name search can be stopped |
| Sites.FolderCandidatesAt | src/main/java/org/thoughtslive/jenkins/plugins/hubot/config/HubotSite.java:118-152 | folder k's sites are searched after those of all nearer folders and before those of farther ones |
| Sites.ResolvedSiteIsSelected | src/main/java/org/thoughtslive/jenkins/plugins/hubot/config/HubotSite.java:133-141 | a resolved site matches the name case-insensitively when a name is given (default flags ignored), and is a default site otherwise |
| Sites.NearestFolderWins | src/main/java/org/thoughtslive/jenkins/plugins/hubot/config/HubotSite.java:118-152 | once nearer folders chose a site, farther folders and the global sites change nothing |
| Sites.GlobalsOnlyWhenFoldersFindNothing | src/main/java/org/thoughtslive/jenkins/plugins/hubot/config/HubotSite.java:154-172 | global sites are searched only when the folders found nothing and nothing threw, and then they alone decide |
| Sites.ResolveIsOneSearch | src/main/java/org/thoughtslive/jenkins/plugins/hubot/config/HubotSite.java:109-178 | the cascade equals one search over the folder sites, nearest first, followed by the global sites |
| Sites.UnnamedSiteStopsSearch | src/main/java/org/thoughtslive/jenkins/plugins/hubot/config/HubotSite.java:173-177 | an unnamed site met before any match in a by-name search ends it with null, global sites unsearched |
| Sites.FolderSiteRoom | src/main/java/org/thoughtslive/jenkins/plugins/hubot/config/HubotSite.java:129-132 | a folder site's copy has the folder's name as room under `useFolderName`, its stored room otherwise |
| Sites.GlobalSiteRoom | src/main/java/org/thoughtslive/jenkins/plugins/hubot/config/HubotSite.java:156-161 | a global site's copy has the nearest folder's name as room under `useFolderName` when the job is in a folder, its stored room otherwise |
| Sites.Offer | src/main/java/org/thoughtslive/jenkins/plugins/hubot/config/HubotSite.java:133-141 | one loop body advances the search state by one candidate, never overwriting a site already chosen |
| Sites.OfferCopy | src/main/java/org/thoughtslive/jenkins/plugins/hubot/config/HubotSite.java:128-141 | copies a stored site, sets the copy's room, offers it; any site kept is fresh |
| Sites.SearchFolder | src/main/java/org/thoughtslive/jenkins/plugins/hubot/config/HubotSite.java:126-143 | the loop over one folder's sites continues the search over its candidates |
| Sites.SearchGlobals | src/main/java/org/thoughtslive/jenkins/plugins/hubot/config/HubotSite.java:155-171 | the loop over the global sites computes the global search; results are fresh |
| Sites.PickStep | src/main/java/org/thoughtslive/jenkins/plugins/hubot/config/HubotSite.java:118-145 | searching one more folder offers its sites only when the nearer folders decided nothing |
| Sites.DecidedPrefixDecides | src/main/java/org/thoughtslive/jenkins/plugins/hubot/config/HubotSite.java:118-152 | once the folders up to some level decided (a site chosen, or the search stopped), the farther folders change nothing |
| Sites.SearchScope | src/main/java/org/thoughtslive/jenkins/plugins/hubot/config/HubotSite.java:119-145 | one enclosing group: a folder continues the search over its sites' copies and supplies the folder name when none is held yet; any other group changes nothing |
| Sites.SearchFolders | src/main/java/org/thoughtslive/jenkins/plugins/hubot/config/HubotSite.java:117-152 | the walk up the ancestors computes the folder search and the nearest folder's name |
| Sites.Get | src/main/java/org/thoughtslive/jenkins/plugins/hubot/config/HubotSite.java:109-178 | returns null exactly when `Resolve` finds nothing, otherwise a fresh site equal to the resolved one; it has no `modifies` clause, so no stored site changes |
| Sites.DisabledJobResolvesNothing | src/main/java/org/thoughtslive/jenkins/plugins/hubot/config/HubotSite.java:92-107 | without the job property, or with notifications disabled, nothing is resolved |
| Sites.EmptySiteNamesMeansDefault | src/main/java/org/thoughtslive/jenkins/plugins/hubot/config/HubotSite.java:99 | an empty `siteNames` is a search for the default site |
| Sites.GetForJob | src/main/java/org/thoughtslive/jenkins/plugins/hubot/config/HubotSite.java:92-107 | the job-level lookup returns a fresh copy of `ResolveForJob`'s site, or null; it has no `modifies` clause, so no stored site changes |
| Sites.DoValidate | src/main/java/org/thoughtslive/jenkins/plugins/hubot/config/HubotSite.java:201-267 | a missing name is reported first; valid exactly when name, room (or a folder form under `useFolderName`) and a well-formed sanitised URL are present; a folder form's room is the prefix followed by the folder name |
| Listener.Run.SetResult | src/main/java/org/thoughtslive/jenkins/plugins/hubot/listener/BuildListener.java:109 | the build result becomes `Worsen` of the old one |
| Listener.TargetSite | src/main/java/org/thoughtslive/jenkins/plugins/hubot/listener/BuildListener.java:79-84 | a non-empty room replaces the copy's room and clears its prefix, otherwise the copy is the site's clone; URL and flags are kept |
| Listener.BuildMessage | src/main/java/org/thoughtslive/jenkins/plugins/hubot/listener/BuildListener.java:86-97 | building the message throws exactly when the build-cause derivation does |
| Listener.Delivered | src/main/java/org/thoughtslive/jenkins/plugins/hubot/listener/BuildListener.java:103-104 | a request is made exactly when the copy has a room; the send fails exactly when the response is unsuccessful under fail-on-error |
| Listener.SendOn | src/main/java/org/thoughtslive/jenkins/plugins/hubot/listener/BuildListener.java:85-111 | a copy without URL fails with NullPointerException and posts nothing; a posted message is the event's message |
| Listener.AttemptOf | src/main/java/org/thoughtslive/jenkins/plugins/hubot/listener/BuildListener.java:75-113 | one send: no URL fails; under fail-on-error a send that did not fail posted; without it a failed send posted nothing |
| Listener.PostedMessageDescribesEvent | src/main/java/org/thoughtslive/jenkins/plugins/hubot/listener/BuildListener.java:93-97 | the message text is the type's status, the status its name, the step BUILD, with the clock, environment and users |
| Listener.ExplicitRoomIgnoresPrefix | src/main/java/org/thoughtslive/jenkins/plugins/hubot/listener/BuildListener.java:80-84 | a listed room is posted to as given, whatever the site's prefix |
| Listener.SiteRoomKeepsPrefix | src/main/java/org/thoughtslive/jenkins/plugins/hubot/listener/BuildListener.java:79-85 | without a listed room the site's room is used, with the prefix under `useFolderName` |
| Listener.FailOnErrorFollowsResponse | src/main/java/org/thoughtslive/jenkins/plugins/hubot/listener/BuildListener.java:103-110 | under fail-on-error a completed send fails exactly when the response is unsuccessful |
| Listener.RoomTargets | src/main/java/org/thoughtslive/jenkins/plugins/hubot/listener/BuildListener.java:37-43 | an empty room list gives one send to the site's room; otherwise one per comma field, trimmed, in order |
| Listener.OnlyCommasSendsNothing | src/main/java/org/thoughtslive/jenkins/plugins/hubot/listener/BuildListener.java:37-39 | a room list made only of commas is non-empty yet sends nothing |
| Listener.Selects | src/main/java/org/thoughtslive/jenkins/plugins/hubot/listener/BuildListener.java:35-36 | a rule applies exactly when enabled and of the event's type; an enabled rule without a type throws NullPointerException |
| Listener.PlanOf | src/main/java/org/thoughtslive/jenkins/plugins/hubot/listener/BuildListener.java:34-47 | every planned send belongs to an enabled rule of the type; the only exception is a NullPointerException |
| Listener.PlanThrowsOnUntypedRule | src/main/java/org/thoughtslive/jenkins/plugins/hubot/listener/BuildListener.java:36 | the rule loop is cut short exactly when some enabled rule has no type |
| Listener.PlanOfOtherRules | src/main/java/org/thoughtslive/jenkins/plugins/hubot/listener/BuildListener.java:34-36 | disabled rules and rules of other types send nothing |
| Listener.PlanAfterThrow | src/main/java/org/thoughtslive/jenkins/plugins/hubot/listener/BuildListener.java:34-47 | once a rule threw, later rules change nothing |
| Listener.Attempts | src/main/java/org/thoughtslive/jenkins/plugins/hubot/listener/BuildListener.java:38-43 | one send per planned target, in order |
| Listener.ApplyWorsensOnce | src/main/java/org/thoughtslive/jenkins/plugins/hubot/listener/BuildListener.java:105-111 | however many sends fail, the result is FAILURE set once, only under fail-on-error and only if some send failed |
| Listener.Notified | src/main/java/org/thoughtslive/jenkins/plugins/hubot/listener/BuildListener.java:55 | no site or no rules sends nothing |
| Listener.Completed | src/main/java/org/thoughtslive/jenkins/plugins/hubot/listener/BuildListener.java:29-50 | a first build sends nothing; a build without a result throws IllegalStateException before any send |
| Listener.CompletionType | src/main/java/org/thoughtslive/jenkins/plugins/hubot/listener/BuildListener.java:31-32 | a completion is classified exactly when there is a previous build and a current result |
| Listener.CompletionNeverServesStartRules | src/main/java/org/thoughtslive/jenkins/plugins/hubot/listener/BuildListener.java:32-36 | a completion never serves STARTED rules |
| Listener.SendEach | src/main/java/org/thoughtslive/jenkins/plugins/hubot/listener/BuildListener.java:58-64 | the room loop makes the planned requests in order and sets the result by `Apply` |
| Listener.SendNext | src/main/java/org/thoughtslive/jenkins/plugins/hubot/listener/BuildListener.java:59-60 | one iteration extends the requests and the result by one send |
| Listener.SendTo | src/main/java/org/thoughtslive/jenkins/plugins/hubot/listener/BuildListener.java:75-113 | the send makes `AttemptOf`'s request and sets FAILURE exactly when it failed under fail-on-error |
| Listener.SendThrough | src/main/java/org/thoughtslive/jenkins/plugins/hubot/listener/BuildListener.java:85-104 | the body of the `try` computes `SendOn` |
| Listener.Notify | src/main/java/org/thoughtslive/jenkins/plugins/hubot/listener/BuildListener.java:55-67 | the rule loop makes exactly the requests of `PlanOf` and reports its exception |
| Listener.OnStarted | src/main/java/org/thoughtslive/jenkins/plugins/hubot/listener/BuildListener.java:52-69 | the requests, the exception and the new build result are those of the STARTED plan of the site resolved for the job |
| Listener.OnCompleted | src/main/java/org/thoughtslive/jenkins/plugins/hubot/listener/BuildListener.java:27-50 | the requests, the exception and the new build result are those of the completion plan (type from the previous and current results) of the site resolved for the job |
| Execution.ErrorResponse | src/main/java/org/thoughtslive/jenkins/plugins/hubot/util/HubotAbstractSynchronousNonBlockingStepExecution.java:126-128 | a validation failure is an unsuccessful code -1 response carrying exactly the message |
| Execution.Siteless | src/main/java/org/thoughtslive/jenkins/plugins/hubot/util/HubotAbstractSynchronousNonBlockingStepExecution.java:80-108 | each missing value falls back to its `HUBOT_*` variable; no room beats any URL error; empty URL, then malformed URL; the fail-on-error text sets the flag even on error |
| Execution.OnSite | src/main/java/org/thoughtslive/jenkins/plugins/hubot/util/HubotAbstractSynchronousNonBlockingStepExecution.java:109-124 | step room and fail-on-error override the site's; no URL throws NullPointerException; an empty URL, then an empty room, is an error, the room error winning |
| Execution.EmptyMessageRejectedFirst | src/main/java/org/thoughtslive/jenkins/plugins/hubot/util/HubotAbstractSynchronousNonBlockingStepExecution.java:62-70 | an empty message is reported before anything else and changes no field |
| Execution.RoomErrorOverridesUrlError | src/main/java/org/thoughtslive/jenkins/plugins/hubot/util/HubotAbstractSynchronousNonBlockingStepExecution.java:90-101 | without a site, a room missing from step and environment is the error, whatever the URL |
| Execution.UrlErrorsWithRoom | src/main/java/org/thoughtslive/jenkins/plugins/hubot/util/HubotAbstractSynchronousNonBlockingStepExecution.java:90-98 | with a room, an empty URL and then a malformed one are the errors |
| Execution.FailOnErrorParsedEvenOnError | src/main/java/org/thoughtslive/jenkins/plugins/hubot/util/HubotAbstractSynchronousNonBlockingStepExecution.java:102-108 | "false" switches fail-on-error off even when validation fails |
| Execution.ParametersOverrideEnvironment | src/main/java/org/thoughtslive/jenkins/plugins/hubot/util/HubotAbstractSynchronousNonBlockingStepExecution.java:72-98 | the step's room and URL win over the environment; a new service uses that room and the sanitised URL |
| Execution.SiteParametersOverride | src/main/java/org/thoughtslive/jenkins/plugins/hubot/util/HubotAbstractSynchronousNonBlockingStepExecution.java:109-124 | with a site, the step's room and flag replace the site's, on the held site and the execution; no URL throws |
| Execution.InjectedServiceKept | src/main/java/org/thoughtslive/jenkins/plugins/hubot/util/HubotAbstractSynchronousNonBlockingStepExecution.java:145-152 | a service set beforehand is never replaced |
| Execution.RejectionIsErrorResponse | src/main/java/org/thoughtslive/jenkins/plugins/hubot/util/HubotAbstractSynchronousNonBlockingStepExecution.java:126-128 | every rejection is an unsuccessful code -1 response with a message |
| Execution.PassedDerivesBuildData | src/main/java/org/thoughtslive/jenkins/plugins/hubot/util/HubotAbstractSynchronousNonBlockingStepExecution.java:126-136 | a pass leaves a service, a room (non-empty on a site) and the build's user, id and cause |
| Execution.EmptyEnvironmentRoomPasses | src/main/java/org/thoughtslive/jenkins/plugins/hubot/util/HubotAbstractSynchronousNonBlockingStepExecution.java:84-101 | an empty `HUBOT_DEFAULT_ROOM` is not refused without a site |
| Execution.StepExecution.constructor | src/main/java/org/thoughtslive/jenkins/plugins/hubot/util/HubotAbstractSynchronousNonBlockingStepExecution.java:33-45 | fail-on-error starts true, every other field unset |
| Execution.StepExecution.InjectService | src/main/java/org/thoughtslive/jenkins/plugins/hubot/util/HubotAbstractSynchronousNonBlockingStepExecution.java:140-143 | sets the service and nothing else |
| Execution.StepExecution.VerifyCommon | src/main/java/org/thoughtslive/jenkins/plugins/hubot/util/HubotAbstractSynchronousNonBlockingStepExecution.java:56-138 | the new fields and outcome are `VerifySpec`'s for the site resolved from the stored configuration (looked up only without a step URL); a looked-up site is fresh |
| Execution.StepExecution.RunChecks | src/main/java/org/thoughtslive/jenkins/plugins/hubot/util/HubotAbstractSynchronousNonBlockingStepExecution.java:80-136 | validation, service and build data in turn, stopping at the first that does not pass |
| Execution.StepExecution.Fallback | src/main/java/org/thoughtslive/jenkins/plugins/hubot/util/HubotAbstractSynchronousNonBlockingStepExecution.java:80-108 | the siteless branch computes `Siteless` on the fields |
| Execution.StepExecution.Override | src/main/java/org/thoughtslive/jenkins/plugins/hubot/util/HubotAbstractSynchronousNonBlockingStepExecution.java:109-124 | the site branch computes `OnSite`, changing the held site in place |
| Execution.StepExecution.Adopt | src/main/java/org/thoughtslive/jenkins/plugins/hubot/util/HubotAbstractSynchronousNonBlockingStepExecution.java:122-123 | takes room and flag from the site, nothing else changes |
| Execution.StepExecution.SetHubotService | src/main/java/org/thoughtslive/jenkins/plugins/hubot/util/HubotAbstractSynchronousNonBlockingStepExecution.java:145-152 | keeps a set service; otherwise makes one for the held site or a site of URL and room |
| Execution.StepExecution.PrepareBuildData | src/main/java/org/thoughtslive/jenkins/plugins/hubot/util/HubotAbstractSynchronousNonBlockingStepExecution.java:132-134 | sets the build user, id and cause; a throwing cause derivation propagates |
| Steps.Logged | src/main/java/org/thoughtslive/jenkins/plugins/hubot/steps/SendStep.java:164 | the step returns the success flag, or aborts with the error text when unsuccessful under fail-on-error |
| Steps.BaseMessage | src/main/java/org/thoughtslive/jenkins/plugins/hubot/steps/SendStep.java:153-160 | the message carries the step's text, extra data and status, the build's users and cause, the expanded tokens, the step name |
| Steps.RunSend | src/main/java/org/thoughtslive/jenkins/plugins/hubot/steps/SendStep.java:136-165 | the execution ends in `VerifySpec`'s state and the step does what `SendRun` says |
| Steps.SendAfter | src/main/java/org/thoughtslive/jenkins/plugins/hubot/steps/SendStep.java:140-164 | after validation, the message, the reply and the step's result are those of `SendRun` |
| Steps.SendsOnlyAfterValidation | src/main/java/org/thoughtslive/jenkins/plugins/hubot/steps/SendStep.java:138-162 | a message is posted exactly when validation passed |
| Steps.SentMessageDescribesStep | src/main/java/org/thoughtslive/jenkins/plugins/hubot/steps/SendStep.java:139-160 | status defaults to "SUCCESS"; step name SEND; the step's text and tokens, the build's user and cause |
| Steps.SendOutcomeFollowsReply | src/main/java/org/thoughtslive/jenkins/plugins/hubot/steps/SendStep.java:161-164 | the step returns the reply's success flag, or aborts with its error under fail-on-error |
| Steps.RejectedSendReportsValidation | src/main/java/org/thoughtslive/jenkins/plugins/hubot/steps/SendStep.java:138-164 | a rejected step returns false, or aborts with the validation message under fail-on-error |
| Steps.StepId | src/main/java/org/thoughtslive/jenkins/plugins/hubot/steps/ApproveStep.java:176 | "Proceed" for a missing or empty id, otherwise the trimmed id |
| Steps.ApprovalMessage | src/main/java/org/thoughtslive/jenkins/plugins/hubot/steps/ApproveStep.java:178-191 | the approval message: step name APPROVE, the id, submitter, submitter parameter and button text |
| Steps.ApproveStart | src/main/java/org/thoughtslive/jenkins/plugins/hubot/steps/ApproveStep.java:160-220 | a posted message is the approval message and only after a pass; a started gate gets the step's request; a validation exception ends it at once |
| Steps.StartApprove | src/main/java/org/thoughtslive/jenkins/plugins/hubot/steps/ApproveStep.java:160-220 | the execution ends in `VerifySpec`'s state and the step does what `ApproveStart` says |
| Steps.ApproveAfter | src/main/java/org/thoughtslive/jenkins/plugins/hubot/steps/ApproveStep.java:165-219 | after a validation that did not throw, the posted message, the gate request and the outcome are those of `ApproveStart` |
| Steps.PostApproval | src/main/java/org/thoughtslive/jenkins/plugins/hubot/steps/ApproveStep.java:165-195 | the reply is the validation's rejection, or the service's answer to the approval message; that message counts as posted only after a pass and an answer |
| Steps.AwaitInput | src/main/java/org/thoughtslive/jenkins/plugins/hubot/steps/ApproveStep.java:199-219 | the gate gets the step's request (id "Proceed" by default); a failing gate aborts with "Error while sending message: " under fail-on-error and returns false otherwise |
| Steps.ApprovalIdDefaultsToProceed | src/main/java/org/thoughtslive/jenkins/plugins/hubot/steps/ApproveStep.java:201-205 | message and gate share the id, "Proceed" by default |
| Steps.BlankIdIsNotDefaulted | src/main/java/org/thoughtslive/jenkins/plugins/hubot/steps/ApproveStep.java:176 | every non-empty id made only of characters `trim` removes becomes "", not "Proceed" |
| Steps.ApprovalAbortsBeforeGate | src/main/java/org/thoughtslive/jenkins/plugins/hubot/steps/ApproveStep.java:197 | an unsuccessful response under fail-on-error aborts with its error before the gate starts |
| Steps.GateFailureWithoutFailOnError | src/main/java/org/thoughtslive/jenkins/plugins/hubot/steps/ApproveStep.java:199-218 | without fail-on-error the gate always starts; its failure returns false, its success its result |
| Steps.ApprovalRejectedByHubotAborts | src/main/java/org/thoughtslive/jenkins/plugins/hubot/steps/ApproveStep.java:193-197 | a 400 reply with error body "fake error." aborts with that text after posting |
| Steps.ApprovalGateFailureAborts | src/main/java/org/thoughtslive/jenkins/plugins/hubot/steps/ApproveStep.java:213-218 | a failing gate under fail-on-error aborts with "Error while sending message: " and its message |
| Steps.ApprovalWithoutUrlAborts | src/test/java/org/thoughtslive/jenkins/plugins/hubot/steps/ApproveStepTest.java:74-90 | with a room and an empty `HUBOT_URL`, the approval aborts with the URL message, posting nothing |
| Steps.ApprovalWithoutRoomAborts | src/test/java/org/thoughtslive/jenkins/plugins/hubot/steps/ApproveStepTest.java:92-105 | with a URL and no room, the approval aborts with the room message |
| Steps.ApprovalWithEmptyMessageAborts | src/test/java/org/thoughtslive/jenkins/plugins/hubot/steps/ApproveStepTest.java:107-119 | an empty message aborts with the message error |
| Steps.ApprovalFailOnErrorFalseReachesGate | src/test/java/org/thoughtslive/jenkins/plugins/hubot/steps/ApproveStepTest.java:138-150 | with "false", a rejected approval still starts the gate and returns false when it fails |
| Steps.ApprovalErrorReplyAborts | src/test/java/org/thoughtslive/jenkins/plugins/hubot/steps/ApproveStepTest.java:121-136 | with an injected service answering 400 "fake error.", the approval posts and aborts with "fake error." |
| Steps.ApprovalPostsOnceThenGateAborts | src/test/java/org/thoughtslive/jenkins/plugins/hubot/steps/ApproveStepTest.java:152-168 | with a 200 reply, one message is posted, then a failing gate aborts with "Error while sending message: " |

## Left out

- HTTP, JSON and Retrofit (`HubotService.java:28-34`, `HubotEndPoints.java`) are left out: the exchange is the abstract `Endpoint`, and a URL's string form is its `spec`. The Retrofit check that a base URL ends with "/" and the path encoding of the room are not modelled. Nor is Retrofit's `IllegalArgumentException` for a base URL that `java.net.URL` accepts but OkHttp rejects (such as "ftp://bot/"): in the plugin it escapes `verifyCommon` and makes a listener send fail, while `NewService` returns a service.
- UI descriptors, the dropdown builders and the test message of `doValidate` (`HubotSite.java:269-296`) are left out: they are form plumbing, and the test message is a network call. The folder and Jenkins URLs that `doValidate` puts into extra data are left out too.
- Configuration persistence (`GlobalConfig`, `HubotFolderProperty`) is not part of this model: the folder and global site lists are given sequences.
- Token-macro expansion, the input step (`InputStep`), the message bundle and the clock are abstract parameters. What the input step does with the id it is given, such as capitalising it, is not modelled.
- Logging (`Common.log`, the `println` calls and `printStackTrace`) is left out: it has no effect on results.
- `run.getEnvironment(listener)` is modelled as a value; the I/O exceptions it can throw are not.
- `equalsIgnoreCase` folds only ASCII letters. Full Unicode case folding is not modelled.
- Helpful NullPointerException messages of newer JVMs are not modelled: the model's NullPointerException has no message.
- The notification rules list is shared between a site and its `clone` in Java; here it is a value, so aliasing of that list is not captured (it is never mutated in the core).
- The state checks of `Run.setResult` (it refuses to change a completed build) are not modelled; only the worsening order is.
- Jenkins catches exceptions thrown by a run listener; the model reports them as the `thrown` result of `OnStarted`/`OnCompleted`.
- `util/HubotStepExecution.java` (three-argument `verifyCommon`) is not part of this model. `SendStepTest.java` targets constructors that no longer exist and is not modelled.
- The step objects are immutable values here, so the test's check that execution never changes the step's fields holds by construction, with no lemma.
- `Message.toString` and the `Message` declaration, which names fewer fields than the builders set, are not modelled: the message carries the fields the builders set.
- Execution.SiteParametersOverride: states that a site without URL throws NullPointerException, not that no other path throws that exception.
