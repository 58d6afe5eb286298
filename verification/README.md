# Verified model of the Cloudflare Tunnel operator

The operator keeps Cloudflare tunnels and DNS records in step with Kubernetes objects. Two reconcilers
do this with calls that may fail: one for Ingress objects, one for CloudflareTunnel objects. This project
models both, the Cloudflare client they use, the admission webhook and the secret generator, and proves
what they promise over every way their calls can end.

`dafny verify dfyconfig.toml` checks the whole project.

## How the model is built

- **World.** `World.dfy` holds the state outside the operator: stored Ingress and CloudflareTunnel
  objects, child objects, remote tunnels with their configurations, and the DNS zone. Each API call is
  one step. A script of replies decides how each call ends: done and acknowledged, refused, done with its
  reply lost, or answered with `ErrTunnelNotFound`. The reply also chooses new identifiers, the order of a
  listing, and which default tunnel a list returns first. When the script ends every later call fails,
  which is a crash. Each call is recorded with the state it was made in.
- **Reconcilers.** `Protocol.dfy` gives the DNS client and both reconcilers as functions of the world.
  `CloudflareClient.dfy`, `IngressWatcher.dfy` and `TunnelController.dfy` are the imperative forms, with
  the mutex, the map of rules updated in place and the loops over hosts and records. Each method is proved
  to compute its function. The functions carry the theorems.
- **Rule lists.** `Rules.dfy` is the list algorithm with its comparator and sort. `RuleLaws.dfy` and
  `HostLaws.dfy` hold its laws.
- **Ingress protocol.** `ZoneLaws.dfy`, `Recovery.dfy`, `Outcome.dfy` and `Convergence.dfy` treat one
  Ingress: single DNS steps, crash and retry, what success means, when it is possible, and when it is
  settled where retrying ends. Any number of tunnels may be there to choose from.
- **Whole runs.** `Invariant.dfy`, `IngressSafety.dfy`, `TunnelSafety.dfy` and `Runs.dfy` prove a joint
  invariant over any sequence of user actions, cluster changes and reconciles cut short anywhere.
  `IngressFrames.dfy` and `Isolation.dfy` show that ingresses with disjoint hosts leave each other alone,
  `Identity.dfy` keeps the account of the tunnels made for an object, and `Reached.dfy` exhibits runs that
  end in states a careless promise would exclude.
- **Interleavings.** `Interleaving.dfy` splits the locked operations into single calls of any number of
  threads, with `DeleteAllDNS` loops outside the lock. `Alone.dfy` ties it to the sequential functions, and
  `Schedules.dfy` joins it with confluence.
- **Tunnel objects.** For one reconcile of a CloudflareTunnel, `StatusLaws.dfy` treats the status write,
  `Accounting.dfy` which tunnel is used or made, `TunnelFrame.dfy` what stays as it was, `TunnelCalls.dfy` the
  order of the calls, `Halting.dfy` what follows a call that failed (for both reconcilers),
  `TunnelAnswers.dfy` the answer and what has been reported by then, `TunnelSuccess.dfy` when a
  success is possible, and `TunnelOutcome.dfy` what it means.
- **The rest.** `Webhook.dfy` treats the default label, `IngressFields.dfy` the annotations, `Sampling.dfy` the
  secrets.

## Hypotheses

- API reads are fresh, and a reconcile of one object is not interleaved with another of the same object.
- A new tunnel identifier is non-empty and was never issued before. A new record identifier is non-empty
  and not in the zone.
- Only the operator writes tunnel configurations, the zone and the recorded tunnel identifiers during a
  run. Users write specs, annotations and foreign finalizers, and ask for deletion; they do not strip the
  operator's finalizer by hand.
- List calls return every match.
- `Identity.dfy` is about runs in which no call is answered with `ErrTunnelNotFound`, which the client never
  reports. Everything else allows that answer.
- At the start of a run the zone has at most one CNAME per name (section 10.1 of RFC 2181). Foreign
  records, and foreign tunnels, may exist.
- The joint invariant is one of whole reconciles: the tunnel reconciler does not take the Ingress mutex.
  `LateAppendDangles` says exactly when a late DNS step breaks it.

## Findings

- It is settled where crashed and retried reconciles end, and that they then rest, if and only if all the
  tunnels a reconcile can reach would leave the same outcome (`RecoveryExact`). One tunnel that can be
  reached is enough, whatever other candidates there are. Two defaults, about which the webhook only warns,
  break it (`TwoDefaultsReached`).
- A CNAME that already points at the tunnel is left as it is, whoever wrote it. `DeleteAllDNS` selects by
  comment, so such a record outlives the tunnel (`DeleteAllExact`, and a run in `ForeignCnameOutlives`).
- An annotation whose only slash is its first or last character selects the default tunnel
  (`DefaultSelection`).
- The webhook warns about the only default when that object itself is updated (`WarningExact`).
- `ErrTunnelNotFound` would replace a recorded tunnel, if and only if no token is stored for it, an empty one
  counting as none (`MissingReplacesIdentity`). The client wraps its
  errors with `%v` (pkg/external/cloudflare.go:62-68), so the branch cannot be reached through it.
- So with that client no reconcile of a live object can succeed once its recorded tunnel was deleted by someone
  else, if no token is stored for it (`TunnelSuccessExact`).

## Model

| member | source | states |
|---|---|---|
| `RuleLaws.AppendRefines` | internal/controller/ingress_watcher.go:190-225 | on any list read, unsorted or with duplicates, the written list is in normal form and ends in one rule with an empty hostname and path, the catch-all service of the settings and no origin request; each hostname has the rule that "last rule wins, overlay the hosts, force the catch-all" gives it; a hostname that is not listed has a rule if and only if it had one, with its path and service and an origin request that shows today's settings |
| `RuleLaws.RemoveRefines` | internal/controller/ingress_watcher.go:247-277 | the same for withdrawing: listed hostnames lose their rule whoever it belonged to, the others are carried over, the catch-all is forced |
| `Rules.SortedValuesUnique` | internal/controller/ingress_watcher.go:216-225 | a list holds the values of a map in an order the comparator accepts if and only if it is the one list the model writes, so map iteration order and sorting algorithm cannot show |
| `Rules.RuleOrderTotal` | internal/controller/ingress_watcher.go:216-225 | the comparator is antisymmetric and total on different hostnames, and is not a comparison for two empty ones |
| `Rules.RenderNormal` | internal/controller/ingress_watcher.go:209-225 | hostnames strictly increase and are non-empty, followed by exactly one catch-all |
| `Rules.SortedFunc` | internal/controller/ingress_watcher.go:216-225 | taking the rules in arbitrary order gives the unique sorted list |
| `RuleLaws.AppendAbsorbs` | internal/controller/ingress_watcher.go:176-232 | publishing again, even with other settings, writes what the last publication alone would have written; so twice is once |
| `RuleLaws.RemoveAbsorbs` | internal/controller/ingress_watcher.go:234-284 | the same for withdrawing |
| `RuleLaws.UndoAppend` | internal/controller/ingress_watcher.go:176-284 | withdrawing after publishing equals withdrawing from the original list, and restores its normal form if and only if none of the hosts had a rule |
| `RuleLaws.Confluence` | internal/controller/ingress_watcher.go:190-277 | for ingresses with disjoint hosts, any order and repetition of operations with the same last operation per Ingress ends in the identical list |
| `HostLaws.HostListAbstraction` | internal/controller/ingress_watcher.go:327-359 | two ingresses write the same list on every prior list if and only if they have the same non-empty hosts and agree on TLS for them |
| `IngressFields.GetHosts` | internal/controller/ingress_watcher.go:340-355 | one entry per rule, marked TLS exactly when some TLS block names the host |
| `HostLaws.EndpointRoundTrip` | internal/controller/ingress_watcher.go:327-333 | an endpoint can be read back: it shows its address, and TLS with port 443 or plain with port 80 |
| `Domain.OriginRequestRoundTrip` | pkg/domain/origin_request_config.go:11-25 | a rule's origin request carries every setting but the name and the catch-all, and the hostname twice; it can be read back |
| `Text.CompareLexicographic` | internal/controller/ingress_watcher.go:223 | the comparison behind the comparator is the lexicographic order |
| `IngressFields.IgnoredExact` | internal/controller/ingress_watcher.go:379-382 | an Ingress is published exactly when the annotation is absent, "0", or "false" in any mix of case |
| `IngressFields.AnnotationRoundTrip` | internal/controller/ingress_watcher.go:361-377 | a non-empty value parses to a key if and only if it is that key printed with slash-free parts; it parses at all if and only if it has one slash |
| `IngressFields.DefaultSelection` | internal/controller/ingress_watcher.go:145-162 | exactly which annotation values lead to the default tunnel |
| `Domain.CommentNamesOneTunnel` | pkg/external/cloudflare.go:107-119 | the comment encoding is injective and can be read back |
| `Domain.TargetInjective` | pkg/domain/entity.go:20-22 | a CNAME target names one tunnel |
| `CloudflareClient.Client.GetDNS` | pkg/external/cloudflare.go:134-148 | nothing is written; the zero record is returned if and only if the name has no CNAME, otherwise its CNAME with the identifier it is stored under |
| `ZoneLaws.GetDNSFinds` | pkg/external/cloudflare.go:134-148 | the zero record means no CNAME of that name exists; otherwise the record is the CNAME of that name |
| `CloudflareClient.Client.AddDNS` | pkg/external/cloudflare.go:112-132 | a name without a CNAME gets the managed record or stays as it was, a success means it got it, and no other name changes |
| `ZoneLaws.AddMoves` | pkg/external/cloudflare.go:112-132 | adding for a name without a CNAME moves that name to the managed record, or leaves the zone as it was |
| `CloudflareClient.Client.UpdateDNS` | pkg/external/cloudflare.go:150-171 | the CNAME under the identifier becomes the managed record or stays as it was, and no other name changes; an unknown identifier is an error that changes nothing |
| `ZoneLaws.UpdateMoves` | pkg/external/cloudflare.go:150-171 | updating a name's CNAME moves that name to the managed record and no other |
| `CloudflareClient.Client.DeleteDNS` | pkg/external/cloudflare.go:173-178 | a success leaves the name of the record without a CNAME, and no other name changes; an unknown identifier is an error that changes nothing |
| `ZoneLaws.DeleteMoves` | pkg/external/cloudflare.go:173-178 | deleting a name's CNAME leaves that name without one and every other name as it was |
| `CloudflareClient.Client.DeleteAllDNS` | pkg/external/cloudflare.go:180-207 | the loop, stopping at the first failure; a success removes exactly the CNAMEs with the tunnel's comment |
| `ZoneLaws.DeleteAllExact` | pkg/external/cloudflare.go:180-207 | after a success a record is gone if and only if it was a CNAME with the tunnel's comment |
| `Reached.ForeignCnameOutlives` | pkg/external/cloudflare.go:180-207 | a run in which a healthy CNAME of someone else, at its goal for publishing, still points at the tunnel after the tunnel was deleted |
| `IngressWatcher.IngressReconciler.AppendCloudflareTunnelConfig` | internal/controller/ingress_watcher.go:176-232 | computes the protocol's step; a success changes one configuration, only in its rules, which end in the catch-all of the settings, carry the hostnames that are not listed over, and follow the reference update of every hostname |
| `IngressWatcher.IngressReconciler.RemoveCloudflareTunnelConfig` | internal/controller/ingress_watcher.go:234-284 | the same for withdrawing |
| `IngressWatcher.IngressReconciler.AppendDNSRecord` | internal/controller/ingress_watcher.go:286-306 | one name moves to its goal or stays, and no other name changes; a success means that the name has a proxied CNAME with the tunnel's target, and if it had that before nothing is changed |
| `IngressWatcher.IngressReconciler.RemoveDNSRecord` | internal/controller/ingress_watcher.go:308-325 | a success leaves the name without a CNAME; no other name changes |
| `ZoneLaws.AppendDNSEffect` | internal/controller/ingress_watcher.go:286-306 | the effect of a publishing step on every name, under every fault; a success leaves a proxied CNAME with the tunnel's target, it has made no write if and only if that was there before, and otherwise it leaves the operator's own record, lifetime and comment included |
| `ZoneLaws.RemoveDNSEffect` | internal/controller/ingress_watcher.go:308-325 | the effect of a withdrawing step on every name, under every fault; an absent name causes no write |
| `IngressWatcher.IngressReconciler.GetCloudflareTunnel` | internal/controller/ingress_watcher.go:145-174 | nothing is written; what is found is a tunnel the name can mean, and "no default" is answered only when the default is asked for and no tunnel is labelled |
| `IngressWatcher.IngressReconciler.FinalizeIngress` | internal/controller/ingress_watcher.go:384-421 | a success means that no default exists, or a tunnel the Ingress can mean is being deleted or has been cleared of its hosts; no object is changed and the joint invariant is kept |
| `IngressWatcher.IngressReconciler.Reconcile` | internal/controller/ingress_watcher.go:49-143 | computes the protocol's reconcile, and keeps the joint invariant |
| `Recovery.ReconcileEffect` | internal/controller/ingress_watcher.go:49-143 | under every fault and any number of tunnels to choose from: no tunnel is reached and at most the finalizer is added, or each part of the state is as it was or at the goal of one eligible tunnel; a success reaches every goal, or no default exists |
| `Recovery.EachEffect` | internal/controller/ingress_watcher.go:124-138 | the host loop, duplicates included: each name untouched or at its goal, all at their goals on success |
| `Recovery.CrashRecovery` | internal/controller/ingress_watcher.go:114-140 | when all reachable tunnels would leave the same outcome: any two histories of attempts, cut short at any calls, effective or not, that end in a success end with the same objects, rule lists and name-to-record view |
| `Recovery.OneMoreIsQuiet` | internal/controller/ingress_watcher.go:114-140 | after such a history one more reconcile changes nothing and issues no DNS write, however it is answered |
| `Convergence.RecoveryExact` | internal/controller/ingress_watcher.go:114-162 | successful histories end alike if and only if no two reachable tunnels would leave different outcomes, and the same condition decides whether further reconciles change nothing |
| `Convergence.SuccessExact` | internal/controller/ingress_watcher.go:49-143 | some replies make a reconcile succeed if and only if the object is gone, or nothing is left to finalize, or no default exists, or a tunnel the Ingress can mean is ready for it |
| `Convergence.SuccessIsPossible` | internal/controller/ingress_watcher.go:49-143 | for each tunnel that can serve a live Ingress there are replies under which a reconcile completes the work on that tunnel |
| `Reached.TwoDefaultsReached` | internal/controller/ingress_watcher.go:149-162 | a run from an empty cluster that leads to two default tunnels and an Ingress for which histories end differently and reconciles do not come to rest |
| `Outcome.PublishOutcome` | internal/controller/ingress_watcher.go:114-140 | success has published the Ingress through one of the tunnels it can mean: each host has exactly one rule, pointing at its endpoint, and a proxied CNAME with the tunnel's target, which is the one it had if it had one; the list ends in the catch-all and carries other hostnames over; everything else is framed. If no default exists only the finalizer is added |
| `Outcome.IgnoreOutcome` | internal/controller/ingress_watcher.go:117-128 | the same for an ignored Ingress: none of its hosts keeps a rule or a CNAME on one of the tunnels it can mean; the catch-all and the other hostnames as above; everything else is framed |
| `Outcome.FinalizeOutcome` | internal/controller/ingress_watcher.go:61-73 | success of the deletion path drops the finalizer; the Ingress has been withdrawn from a live tunnel it can mean, or nothing else has changed because no default exists or such a tunnel is being deleted |
| `IngressSafety.ReconcileIngressSafe` | internal/controller/ingress_watcher.go:49-143 | a whole reconcile keeps the joint invariant under every fault and makes only permitted calls |
| `IngressSafety.LateAppendDangles` | internal/controller/ingress_watcher.go:286-306 | a successful DNS step keeps "no dangling CNAME" if and only if its tunnel exists or it had nothing to write |
| `TunnelSafety.ReconcileTunnelSafe` | internal/controller/cloudflaretunnel_controller.go:76-176 | a whole tunnel reconcile keeps the joint invariant under every fault and makes only permitted calls |
| `TunnelSafety.DeleteAllSafe` | pkg/external/cloudflare.go:180-207 | once it succeeds no CNAME the operator wrote names the tunnel |
| `Runs.NoDanglingCname` | internal/controller/cloudflaretunnel_controller.go:92-109 | in every reachable state a CNAME with a tunnel's comment has that tunnel's target, and the tunnel exists |
| `Runs.FinalizerProtocol` | internal/controller/cloudflaretunnel_controller.go:92-117 | every call of every run was permitted when made: writes and creations only under a stored finalizer, a tunnel only after its records, an Ingress finalizer only after what it protects; and right before a tunnel finalizer was dropped, the same reconcile got acknowledgements for a complete listing of the records, the deletion of each, and the deletion of the tunnel |
| `Runs.StatusSoundness` | internal/controller/cloudflaretunnel_controller.go:646-746 | in every reachable state conditions have unique types and are never both Available and Degraded |
| `Runs.DefaultLookup` | internal/controller/ingress_watcher.go:149-162 | in every reachable state an answered lookup reports none if and only if no tunnel is marked, and what it returns is a stored tunnel that is marked |
| `Isolation.StaysServed` | internal/controller/ingress_watcher.go:114-140 | a host that has its rule and a proxied CNAME to the tunnel keeps both, over any run of crashed or complete reconciles of ingresses without that host and of tunnels other than a deleted one that owns it |
| `Isolation.PublicationSurvives` | internal/controller/ingress_watcher.go:114-140 | so a successful publication survives whatever ingresses with disjoint hosts do, while its tunnel is not deleted |
| `IngressFrames.IngressFrame` | internal/controller/ingress_watcher.go:49-143 | a reconcile, however it is answered, changes no object but its Ingress, and the rule lists and the zone only on the way of one plan for its hosts, on one tunnel, records only once the rule list is written |
| `Halting.IngressStops` | internal/controller/ingress_watcher.go:49-143 | under every fault: an Ingress reconcile makes no call after one that failed, and succeeds only if none did |
| `Interleaving.Serialisable` | internal/controller/ingress_watcher.go:183-283 | under every interleaving of calls and every fault the stored configurations are the fold of the effective rewrites in lock order, and no acknowledged rewrite is lost |
| `Interleaving.CnamesStayUnique` | internal/controller/ingress_watcher.go:286-325 | under every interleaving of append, remove and DeleteAllDNS calls a name keeps at most one CNAME |
| `Alone.RewriteAlone` | internal/controller/ingress_watcher.go:176-284 | a thread that is not interrupted leaves the state, and reports the success, of the sequential rewrite |
| `Alone.PublishAlone` | internal/controller/ingress_watcher.go:286-306 | the same for a publishing DNS step |
| `Alone.WithdrawAlone` | internal/controller/ingress_watcher.go:308-325 | the same for a withdrawing DNS step |
| `Alone.SweepAlone` | pkg/external/cloudflare.go:180-207 | the same for DeleteAllDNS |
| `Schedules.ScheduleIndependence` | internal/controller/ingress_watcher.go:183-283 | for ingresses with disjoint hosts, two schedules in which the same rewrites took effect leave the identical configuration |
| `TunnelController.CloudflareTunnelReconciler.ReconcileTunnel` | internal/controller/cloudflaretunnel_controller.go:178-232 | a recorded tunnel is handed on and none created while a token is stored or the token call does not report ErrTunnelNotFound; otherwise at most one is created, under a new identifier and the name in the settings or else the object's, and it is the one handed on; with it goes the stored token of the recorded tunnel, or if there is none the acknowledged reply of the last call, which asked for the token of that very tunnel; existing tunnels, objects and records are untouched |
| `TunnelController.CloudflareTunnelReconciler.UpdateStatus` | internal/controller/cloudflaretunnel_controller.go:646-746 | computes the protocol's status write; with an identifier it succeeds if and only if its three reads and its write are acknowledged, and then has stored conditions that tell the truth and asks to be requeued if and only if no replica is available |
| `TunnelController.CloudflareTunnelReconciler.Reconcile` | internal/controller/cloudflaretunnel_controller.go:76-176 | computes the protocol's reconcile, and keeps the joint invariant; whatever its calls answer, it leaves settings, labels and the finalizers of others on its object, adding or dropping only the operator's finalizer |
| `StatusLaws.SetConditionEffect` | internal/controller/cloudflaretunnel_controller.go:647-656 | setting a condition changes the one of its type or adds it at the end; all others stay as they are and in their places, and types stay unique |
| `StatusLaws.StatusWrite` | internal/controller/cloudflaretunnel_controller.go:646-746 | a write has Available true exactly when nothing is missing and a replica is available, Degraded true exactly when something is missing, which its message names; it succeeds if and only if the three reads and the write are acknowledged, and then asks to be requeued exactly when no replica is available; nothing is written without a tunnel identifier |
| `Accounting.EnsureTunnelAccount` | internal/controller/cloudflaretunnel_controller.go:198-231 | the same as a lemma on the function: a stored token alone rules out a creation and is handed on; ErrTunnelNotFound matters only as the answer to the token call; a token that is not the stored one is the reply of the last call, made for the tunnel that is handed on; new tunnels get the right name |
| `Accounting.ReconcileAccount` | internal/controller/cloudflaretunnel_controller.go:119-141 | one reconcile creates at most one tunnel, and records that one or none |
| `Identity.TunnelAccounting` | internal/controller/cloudflaretunnel_controller.go:119-141 | over every run, from the appearance of an object on: the creating calls of its reconciles that took effect are as many as one if an identifier is recorded plus those whose identifier no later effective status write stored |
| `Identity.IdentityIsPermanent` | internal/controller/cloudflaretunnel_controller.go:198-218 | over every run a recorded identifier never changes while the object is stored, its deletion included |
| `Accounting.MissingReplacesIdentity` | internal/controller/cloudflaretunnel_controller.go:198-221 | some replies make a reconcile replace the identifier of a live object if and only if no token, or an empty one, is stored for it |
| `TunnelOutcome.LiveOutcome` | internal/controller/cloudflaretunnel_controller.go:111-175 | success leaves a recorded, existing tunnel under the right name, each of the five children applied, a secret that holds the stored token or the one last read for that tunnel, truthful conditions, the operator's finalizer beside all others, and everything users wrote |
| `TunnelFrame.LiveFrame` | internal/controller/cloudflaretunnel_controller.go:111-175 | under every fault: a live object stays stored with its settings, its labels other than the default one, and the finalizers it had, to which at most the operator's is added; other objects, their children and the zone are as they were |
| `TunnelCalls.ReconcileInOrder` | internal/controller/cloudflaretunnel_controller.go:119-175 | under every fault: a new identifier is stored only while the secret holds the token that was read for it, and a new tunnel gets the object's name; a success has applied all five children |
| `TunnelAnswers.AnswerExact` | internal/controller/cloudflaretunnel_controller.go:76-176 | under every fault: a reconcile succeeds if and only if each of its calls did; it asks to be requeued if and only if the object is live, its last call stored a status and no replica is available; an object that is gone is a success that changes nothing |
| `Halting.TunnelHalts` | internal/controller/cloudflaretunnel_controller.go:76-176 | under every fault: nothing but the reads and the write of a status report follows a call that failed, and in a deletion nothing at all |
| `TunnelAnswers.LiveReports` | internal/controller/cloudflaretunnel_controller.go:119-175 | whether it succeeds or not, a reconcile whose reads and status writes are acknowledged leaves conditions that tell the truth about the state it leaves, unless no identifier is recorded, when none is changed |
| `TunnelSuccess.TunnelSuccessExact` | internal/controller/cloudflaretunnel_controller.go:76-176 | some replies without ErrTunnelNotFound make a reconcile succeed if and only if the object is gone, being deleted or new, or its recorded tunnel exists or has its token stored; with ErrTunnelNotFound some always do |
| `TunnelOutcome.DeletionOutcome` | internal/controller/cloudflaretunnel_controller.go:92-109 | success of the deletion path has removed exactly the tunnel's records, the tunnel and the finalizer, and touched no other object; the object goes if that was its last finalizer and is otherwise left with the others |
| `TunnelFrame.DeletionFrame` | internal/controller/cloudflaretunnel_controller.go:92-109 | under every fault: an object that is being deleted keeps the finalizers of others and all that users wrote, is dropped only if there are no others, and is left alone without the operator's finalizer |
| `Webhook.AdmittedTunnel.Default` | internal/webhook/v1beta1/cloudflaretunnel_webhook.go:41-53 | the label becomes "true" exactly when Spec.Default is set, every other label is kept, absent labels are handled |
| `Webhook.ValidateDefault` | internal/webhook/v1beta1/cloudflaretunnel_webhook.go:91-110 | nothing is written; an answered check warns if and only if the object is a default and some stored tunnel is labelled as one; only a default can be refused |
| `Webhook.AdmissionsAgree` | internal/webhook/v1beta1/cloudflaretunnel_webhook.go:47-50 | over every sequence of admissions the label agrees with Spec.Default |
| `Webhook.WarningExact` | internal/webhook/v1beta1/cloudflaretunnel_webhook.go:91-110 | exactly when a warning is given, that every admission taking the number of defaults above one gets it, and exactly when it is a false alarm |
| `Sampling.SecureString` | pkg/utils/random/random.go:37-48 | the loop maps each byte to a character of the alphabet; an error of the generator is passed on |
| `Sampling.PreimagesExact` | pkg/utils/random/random.go:43-46 | the counted vectors are exactly those mapped to the string |
| `Sampling.SamplingBound` | pkg/utils/random/random.go:37-48 | every string of length L is the image of between floor(256/n)^L and ceil(256/n)^L byte vectors |
| `Sampling.CountsAddUp` | pkg/utils/random/random.go:37-48 | the counts over all strings of length L sum to 256^L |

## Left out

- The Cloudflare HTTP client, the Kubernetes client, caches, leader election and `cmd/main.go`: foreign code and I/O, represented by the world's calls.
- Bodies of `reconcileDeployment`, `reconcileService`, `reconcileServiceMonitor`, `reconcilePDB` and `reconcileSecret`: object builders; each is one call that may fail and after which the object exists. The skip-when-equal tests are not modelled.
- Empty hostnames in DNS lookups: the model matches the empty name exactly; what the API client does with an empty filter is not in the repository. Claims about records are meant for non-empty names.
- A record whose `Proxied` pointer is nil: `Healthy` would dereference it; the model's flag is always present, as on every CNAME the operator writes.
- Text of JSON comments for identifiers that need escaping (section 7 of RFC 8259): the model's comment puts the identifier between a fixed head and tail.
- Parsing and printing of IP addresses: an address is unparsable or carries its printed form.
- Timeouts in `ToOriginRequest` as 64-bit durations: a 32-bit number of seconds in nanoseconds fits, so the model uses unbounded integers.
- A list result that is empty but has a continuation token (internal/webhook/v1beta1/cloudflaretunnel_webhook.go:105): every listing in the model is complete.
- `strings.ToLower` beyond the letters A to Z: no other character becomes a letter of "false", the only text it is compared with.
- Condition timestamps and generations, log output, error text, labels other than the default label, and owner references.
- Path and wildcard routing inside cloudflared: not in the repository.
- Liveness of deletion and collection of stale hosts: the code does not promise either; hosts dropped from a spec stay behind.
- `InsecureString`, the dummy generator, generated code, charts and end-to-end suites.
- Interleaving: a thread performs one locked operation, and tunnels are neither created nor deleted while threads are at work; `LateAppendDangles` treats the step after a deletion.
- Cross-controller runs at the granularity of single calls: the invariant of `Runs` is one of whole reconciles, since `DeleteAllDNS` does not take the mutex.
