# A verified model of the egress router's control plane

The egress router is fed by a *subscription manager*, which turns subscription feeds
into a router config; by an *activation script*, which moves that config in front of the
router and back; by a *catalog client*, which builds a shadow candidate from another
source; by a *CI delivery* that fast-forwards the checkout it deploys from; and it is fed
traffic by an *interception script* that first validates what it puts into nft rules.
This project models the logic of these five in Dafny and proves what they promise.
`dafny verify dfyconfig.toml` checks everything.

## How the model is laid out

- **Text layer.** `Decimal`, `Text`, `Base64`, `FeedBody`: numerals, Go's string helpers,
  the base64 of sections 3.2, 4 and 5 of RFC 4648 as Go decodes it (line breaks skipped,
  trailing bits not checked), and feed bodies. `Base64Range` holds the alphabets and says
  which texts a variant accepts; `FeedLayout` builds feeds from lines, laid out in any way,
  and proves that they are read back. `NodeUri` is the URI parser written as a
  typed function; `NodeParser` is the same parser as the program runs it, filling
  string-keyed objects, proved to return exactly that. `NodeMeaning` says what a URI record
  means, when it is acceptable and what each refusal says of it, as relations that call
  nothing of the parser, and proves that the parser agrees; `NodeItem` writes out the
  members of an outbound. `NodeRange` and `NodeIdentity`
  characterise the results. One model serves both copies of the parser.
- **Generation.** `Names` makes tags and `NameFacts` says what becomes of a name in them;
  `Generation` says when a config can be generated and
  which; `Builder` is the nested merge loop, proved to compute it or to return an error
  that is true of the input; `GenerationFacts` proves what every generated config has and
  which lines its entries are; `GenerationExact` when there is one, in plain terms;
  `Slices` redoes the two places that share Go slices on a heap with backing arrays and
  capacities.
- **Transactions.** `Transaction` is a step system: any number of adds, refreshes, list
  reads and health reads, one step per lock operation, file operation or health field,
  each step free to fail and the process free to die between any two. Every update carries
  the result its caller is answered with, and its health record goes by that. Beside it an
  observer keeps a log that steers nothing: a turn is entered when an update acquires the
  lock and is decided by the rename of the config or by an error return.
  `TransactionInvariant` proves what every step keeps, `TransactionGuarantees` what follows
  for whole runs; `TransactionAnswers` ties each update to one turn, decided as the update
  is answered, and keeps the order in which requests came and answers went, and
  `TransactionRequests` says what that means to those who ask. `TransactionCauses` follows one
  request through the events of a run and proves that an update fails only for a cause found
  there; `TransactionReads` does the same for the requests that read. `Manager` is the same update as
  sequential code on a class with the manager's files and health fields, held to the same
  serial functions. `RefreshLoop` is the background loop with its channel and timer.
- **Catalog client.** `Shadow` is the second merge and its equivalence with the first;
  `Freshness` the snapshot predicate; `OutputPath` the ancestor walk over a file tree with
  links; `Publication` one whole run.
- **Activation.** `Deploy` is the activation script on a class with the snapshot files.
  A *tape* decides, command by command, what fails, what answers, which background
  refresh gets in between, and whether the script is interrupted or killed; `trace`
  records what the files held after every change. `DeployTape` says of a tape alone how far
  it lets an action get: which attempt of a probing loop is answered, and which commands
  around it have to work. That a background refresh publishes
  only contents the manager has validated is an assumption here;
  `TransactionGuarantees.OutputIsVetted` proves it of the manager.
- **Delivery and interception.** `CiDeploy`, `Tproxy`.

The main results, hardest first: updates are serializable and health tells the truth in
every interleaving; the config file is at every instant the first one or a validated
generation of a list persisted no later, crashes and failed rollbacks included; the
activation script never loses the config that was active, and swaps or restores both
snapshots except in one window that is exhibited; nothing fails without a cause outside the
program, neither an update nor an action nor a delivery; the URI parser accepts and reads
exactly what the record means, and its range is exact; the two merges agree up to tags; a
feed gives the lines it was put together from, plain or in base64.

Strings are byte strings, one `char` a byte. Recognising repeated nodes by the JSON of an
outbound without its tag is modelled as equality of that object; the two agree when all
texts are valid UTF-8, which is assumed. Object names are assumed to identify commits.
State after a rollback is compared as a decoded list: where no state file existed, the
rollback writes `null`, which reads back as the empty list.

Where documentation and code differ, the code is modelled: `README.md:102-105` describes
`make rollback` as transactional, but a signal that arrives while `previous` is being put
in place makes the trap restore `active` after `previous` has been replaced, and the old
`previous` is gone. `Deploy.SignalLosesPrevious` shows it for any two contents.
`DeployTape.LosesPrevious` is the exact condition, read off the tape alone: the rollback gets as
far as the `mv` that puts `previous` in place, a signal arrives during that `mv`, and the
trap gets as far as putting `active` back. `Deploy.Host.Run` proves for every outcome,
also when the restoration fails or the script is killed, that the old `previous` is in
neither snapshot if and only if this happens (and the two snapshots differed before).

## Model

| member | source | states |
|---|---|---|
| `Decimal.PrintOfValue` | telemt-egress-tproxy.sh:21-34 | printing the value of a canonical numeral gives the numeral back |
| `Decimal.ValueOfPrint` | subscription-manager/main.go:184 | reading a printed number gives the number back |
| `Decimal.PrintAppendsDigit` | subscription-manager/main.go:184 | numerals are written in base ten, the most significant digit first |
| `Text.CompactOfConcat` | subscription-manager/main.go:149 | removing white space from a text is removing it from its parts, also with multi-byte white space, unless the cut splits a character |
| `Text.SplitOfJoin` | subscription-manager/main.go:205-207 | splitting undoes joining whenever no part holds the separator |
| `Base64Range.SextetIsPosition` | subscription-manager/main.go:163-171 | the value of a letter is its position in the alphabet of table 1 or 2 of RFC 4648 |
| `Base64Range.GroupIsNumber` | subscription-manager/main.go:163-171 | three bytes are written as the four 6-bit digits of the number they form |
| `Base64Range.LastGroupIsNumber` | subscription-manager/main.go:163-171 | one or two last bytes are filled up with zero bits, and with padding in the padded variants only |
| `Base64Range.AcceptedText` | subscription-manager/main.go:163-171 | a variant accepts exactly letters of its alphabet, no single one left over, with the padding it wants |
| `Base64Range.SurplusBitsAreIgnored` | subscription-manager/main.go:163-171 | texts that differ only in the surplus bits of the last letter are read alike |
| `Base64Range.LineBreaksAreSkipped` | subscription-manager/main.go:163-171 | a line break anywhere changes nothing |
| `Base64.DecodeOfEncode` | subscription-manager/main.go:163-171 | each of the four variants decodes what it encoded |
| `Base64.DecodeIsUnambiguous` | subscription-manager/main.go:163-171 | variants that accept the same text read the same bytes from it |
| `Base64.DecodeAnyIsAny` | subscription-manager/main.go:163-171 | the order of the fallback never matters |
| `Base64.DecodeBase64` | catalog-client/internal/nodeuri/parse.go:13-21 | the loop returns what any accepting variant reads, and fails only if none accepts |
| `FeedBody.DecodeBody` | subscription-manager/main.go:136-161 | the two cleaning loops compute the node lines of a body, trimmed; `FeedLayout` says which lines those are |
| `FeedBody.PlainBody` | subscription-manager/main.go:145-148 | a body is plain exactly when a line that is no comment mentions a URI |
| `FeedBody.EncodedBody` | subscription-manager/main.go:149-160 | however encoded text is broken up, indented and interleaved with comments, the lines of the encoded text are read |
| `FeedBody.EncodingIsTransparent` | subscription-manager/main.go:136-161 | encoding a feed that mentions a URI changes nothing for the reader |
| `FeedLayout.PlainFeedReads` | subscription-manager/main.go:136-148 | a feed built from lines with any white space around them, comments and blank lines between them, gives exactly those lines when one has `://` in it |
| `FeedLayout.EncodedFeedReads` | subscription-manager/main.go:149-160 | so does its encoding in any variant, with white space anywhere, broken into lines and with remarks in between |
| `FeedLayout.NeitherGivesNothing` | subscription-manager/main.go:149-153 | a body that names no URI and is base64 in no variant has no lines |
| `FeedLayout.CompactDropsSpace` | subscription-manager/main.go:149 | white space of any of the Unicode kinds is dropped wherever it stands |
| `FeedLayout.CompactKeepsTheRest` | subscription-manager/main.go:149 | and nothing else is dropped |
| `NodeParser.ParseURI` | subscription-manager/main.go:262-368 | filling the item member by member gives the outbound of the node the typed parser returns, with the same errors; what that node and those errors are is in the rows on `NodeMeaning` |
| `NodeParser.TlsFrom` | subscription-manager/main.go:196-230 | the TLS object built step by step is that of the typed TLS settings |
| `NodeParser.TransportFrom` | catalog-client/internal/nodeuri/parse.go:68-96 | the same for the transport, with its two errors |
| `NodeMeaning.ParseMeans` | subscription-manager/main.go:262-368 | a URI record is read as a node if and only if it is acceptable and means that node: protocol by the five spellings in any case, credentials, flow alias, cipher in the clear or in base64, TLS absent or by default, insecure by either option, fingerprint default, transport |
| `NodeMeaning.ParseAccepts` | subscription-manager/main.go:262-368 | it is accepted if and only if every guard holds of the record |
| `NodeMeaning.ErrorIsTrue` | subscription-manager/main.go:262-368 | a refused record has the fault that its error names |
| `NodeItem.ItemIsShown` | subscription-manager/main.go:300-367 | the outbound of a node, member by member and object by object, with nothing else in it |
| `NodeRange.AcceptedIsWellFormed` | subscription-manager/main.go:262-368 | every accepted node has a port in range, credentials, a supported method or flow, and TLS, reality and transport only where they belong |
| `NodeRange.PrintedIsAccepted` | catalog-client/internal/nodeuri/parse.go:98-204 | every well-formed node has a printed URI record that parses back to it |
| `NodeRange.ExactRange` | subscription-manager/main.go:262-368 | a node is accepted from some URI if and only if it is well formed |
| `NodeRange.EncodedUriReadsBack` | subscription-manager/main.go:327-344 | shadowsocks credentials read back from any of the four encodings |
| `NodeIdentity.BodyIsInjective` | subscription-manager/main.go:515-526 | equal outbounds without tags are equal nodes, so deduplication merges nothing that differs |
| `Names.TagDeterminesIndex` | subscription-manager/main.go:173-185 | equal tags have equal indices, whatever sanitising and truncation do |
| `Names.DifferentSubscriptionsCanCollide` | subscription-manager/main.go:500 | tags determine no more than that: two subscriptions with different sanitised names can collide |
| `Names.TagIsSafe` | subscription-manager/main.go:173-185 | tags consist of letters, digits, dashes and underscores, whatever a feed says |
| `NameFacts.SafeBytes` | subscription-manager/main.go:173 | the safe bytes are letters, digits, underscore and dash |
| `NameFacts.SanitizeReplacesRun` | subscription-manager/main.go:173 | a run of unsafe bytes becomes one dash, and safe bytes stay |
| `NameFacts.ShortNameIsCore` | subscription-manager/main.go:175-184 | a node's name is what stands between the outer dashes, cut to 36 bytes, or "node" |
| `NameFacts.FragmentReads` | subscription-manager/main.go:593-603 | an escaped fragment is read as the bytes it escapes, any other one as it is |
| `NameFacts.TagReads` | subscription-manager/main.go:500 | the tag in terms of these |
| `NameFacts.TwoWordTag` | subscription-manager/main.go:500 | a subscription of two words and a node without a name: the words joined by a dash |
| `Builder.Build` | subscription-manager/main.go:452-548 | the loops compute exactly the specified config, node count, warnings and skipped count, or an error that is true of the input; what is specified is in the rows on `GenerationFacts` and `GenerationExact` |
| `Builder.Collect` | subscription-manager/main.go:489-531 | the merge loop tracks tags, fingerprints, outbounds and warnings of every line read so far |
| `GenerationFacts.KeptIsDistinct` | subscription-manager/main.go:515-526 | no node is kept twice and every parsed node is kept |
| `GenerationFacts.FirstsAreFirst` | subscription-manager/main.go:489-527 | what is kept is the first occurrence of each node, in order |
| `GenerationFacts.EntriesAreOrdered` | subscription-manager/main.go:489-531 | entries come in provider-then-index order |
| `GenerationFacts.EntriesAreTheLines` | subscription-manager/main.go:489-511 | the entries are exactly the lines that parse, each with its node and with the tag of its subscription, fragment and number; the warnings are exactly the others, with their errors |
| `GenerationFacts.WarningsAreOrdered` | subscription-manager/main.go:502-508 | warnings come in the order of the lines |
| `GenerationFacts.TagsAreDistinct` | subscription-manager/main.go:465-476 | all nonempty tags of a generated config differ and every generated outbound has one |
| `GenerationFacts.SelectorsResolve` | subscription-manager/main.go:532-542 | an outbound whose references all resolved in the base has only resolving references afterwards |
| `GenerationFacts.GeneratedReferencesResolve` | subscription-manager/main.go:532-547 | every generated reference resolves |
| `GenerationFacts.ConfigFrame` | subscription-manager/main.go:536-548 | the base keeps everything except that the two selectors get the generated tags in front and the generated outbounds follow |
| `GenerationFacts.CollisionNeedsEqualIndex` | subscription-manager/main.go:499-514 | nodes of one provider never collide |
| `GenerationFacts.CollisionOrigin` | subscription-manager/main.go:511-514 | tags are free of collisions if and only if no tag is a base tag and no two equally numbered lines of different providers share one |
| `GenerationFacts.ReportIsExact` | subscription-manager/main.go:477-531 | lines are parsed plus skipped, warnings are the first twenty, nodes the distinct parsed nodes, none only without subscriptions |
| `GenerationFacts.AddingAppends` | subscription-manager/main.go:440-447 | a freshly named subscription keeps all earlier generated nodes and tags as a prefix |
| `GenerationExact.GeneratesExactly` | subscription-manager/main.go:461-531 | there is a config if and only if the base has distinctly tagged objects, the names are not empty and stay apart when sanitised, every feed has a line that parses, and no parsed line has a tag of the base or of another |
| `GenerationExact.ReplacedClosesUp` | subscription-manager/main.go:440-447 | an added subscription comes last, and the place of its name is closed up |
| `GenerationExact.OthersOfConcat` | subscription-manager/main.go:441-446 | all others keep their order |
| `Slices.PrependToSelectors` | subscription-manager/main.go:532-542 | selectors that append to one shared slice of tags never overwrite each other, nor what the base held |
| `Slices.ReplaceSubscription` | subscription-manager/main.go:439-448 | building the filtered list in place leaves the saved copy and the decoded list alone |
| `TransactionInvariant.RunKeeps` | subscription-manager/main.go:407-450 | locks, turns, files, health and answered reads stay consistent over every run |
| `TransactionGuarantees.UpdatesAreSerial` | subscription-manager/main.go:407-450 | unless a rollback write fails, list and config evolve as if the updates committed ran one by one in lock order from the files the process started with, and every list read shows only decided turns; which updates are committed is in the row on `TransactionCauses.FailsOnlyWithCause` |
| `TransactionGuarantees.NoAddIsLost` | subscription-manager/main.go:440-447 | a committed add stays in the serial list until a later one replaces its name |
| `TransactionGuarantees.NothingElseAppears` | subscription-manager/main.go:440-447 | nothing gets into the serial list but by a committed add |
| `TransactionGuarantees.NamesStayDistinct` | subscription-manager/main.go:441-447 | no sequence of updates leaves two subscriptions of one name |
| `TransactionGuarantees.FailureChangesNothing` | subscription-manager/main.go:572-589 | leaving a failed update out changes neither list nor config |
| `TransactionGuarantees.FilesAgree` | subscription-manager/main.go:575-590 | after any success the config is the generation of the current list |
| `TransactionGuarantees.HealthSaysLastTurn` | subscription-manager/main.go:413-434 | ready exactly when the last recorded update succeeded, with both counts from the same last success |
| `TransactionGuarantees.HealthIsTrue` | subscription-manager/main.go:613-621 | in every run each health answer describes the turns recorded when it was given |
| `TransactionGuarantees.OutputIsVetted` | subscription-manager/main.go:572-589 | at every instant, crashes and failed rollbacks included, the config is the first one or a validated generation of a list persisted no later |
| `TransactionGuarantees.OutputIsSound` | subscription-manager/main.go:107-134 | with the manager's own generation, a reader of the config file never sees one with ambiguous tags, except the first |
| `TransactionGuarantees.SuccessHeals` | subscription-manager/main.go:576-577 | an update that publishes makes the config the generation of the list on disk, whatever went before |
| `TransactionAnswers.RunKeepsOrder` | subscription-manager/main.go:407-450 | over every run each update has one turn, decided as its caller is answered, and the last turn is the lock holder's; turns and list reads follow the answers given before they were asked for |
| `TransactionRequests.AnswersAreDecisions` | subscription-manager/main.go:413-434 | in every run an update that has returned was answered with success exactly when its one turn was committed |
| `TransactionRequests.AnsweredAddIsListed` | subscription-manager/main.go:622-634 | a list asked for after an add was answered with success shows the subscription, unless a later success had replaced the name |
| `TransactionRequests.TurnsFollowAnswers` | subscription-manager/main.go:408-409 | an update asked for after another was answered takes its turn after it |
| `TransactionRequests.CrashKeepsAdds` | subscription-manager/main.go:575-589 | after a crash the list on disk is the serial one, or that with only the update in progress applied |
| `TransactionCauses.FailsOnlyWithCause` | subscription-manager/main.go:407-591 | in every run an update that has returned failed if and only if one of its own operations did, the list was garbled when it read it, nothing could be generated from that list and what it was given, or the checker refused the config |
| `TransactionCauses.FaultIsOwnStep` | subscription-manager/main.go:407-591 | a failed operation is one of the request's own steps since the process started |
| `TransactionCauses.SucceedsWithoutCause` | subscription-manager/main.go:572-590 | with none of its own steps failing, a readable list and an accepted config, an update succeeds whatever else is going on |
| `TransactionReads.ListsAreAnswered` | subscription-manager/main.go:622-634 | a list request that has returned was shown a list if and only if its own read went well |
| `TransactionReads.HealthIsAnswered` | subscription-manager/main.go:613-621 | a health request that has returned was told the health |
| `TransactionReads.OnlyAddsWriteTheList` | subscription-manager/main.go:575-589 | a refresh never touches the state file, and requests that read touch no file |
| `TransactionGuarantees.NeverStuck` | subscription-manager/main.go:408-416 | the two mutexes never deadlock |
| `TransactionGuarantees.EveryStepIsProgress` | subscription-manager/main.go:407-450 | every step of a request brings it nearer to its answer |
| `Manager.Manager.WriteState` | subscription-manager/main.go:107-134 | the state file changes whole or not at all, and no temporary file is left |
| `Manager.Manager.Publish` | subscription-manager/main.go:575-589 | which files change on success, on each failure, and when the rollback fails too |
| `Manager.Manager.BuildState` | subscription-manager/main.go:452-591 | what is published was generated and validated; a failure restores the list where it can |
| `Manager.Manager.Update` | subscription-manager/main.go:407-450 | the exact condition of success, and what each error says; the update is the next turn of the serial order, only a failed rollback write breaks that order, and a refresh leaves the state file alone |
| `Manager.Manager.ListNames` | subscription-manager/main.go:622-634 | the names listed are those of the serial list |
| `Manager.Manager.GetHealth` | subscription-manager/main.go:613-621 | ready exactly when the latest update succeeded |
| `RefreshLoop.OneToken` | subscription-manager/main.go:693-710 | while the loop waits exactly one of build, completion, armed timer and fired timer is there to wake it |
| `RefreshLoop.SendNeverBlocks` | subscription-manager/main.go:693-694 | at most one background build is in flight and its completion is always accepted, also after the loop has ended |
| `RefreshLoop.BuildsKeepApart` | subscription-manager/main.go:705-708 | a build starts only when none is in flight and a whole interval after the last one ended |
| `RefreshLoop.NeverAsleep` | subscription-manager/main.go:699-710 | until it leaves, the loop is woken within an interval |
| `RefreshLoop.EveryStepNearsLaunch` | subscription-manager/main.go:693-710 | while the loop runs, every step but the passing of time and leaving brings the next build one nearer, and the last one starts it |
| `Shadow.Merge` | catalog-client/internal/shadow/shadow.go:193-238 | the client's loops compute the shadow config, or name the node or tag that is at fault |
| `Shadow.ShadowBuildsExactly` | catalog-client/internal/shadow/shadow.go:193-220 | the merge succeeds if and only if the base can be extended, every URI parses and no numbered tag is taken |
| `Shadow.SamePositionsKept` | catalog-client/internal/shadow/shadow.go:211-230 | both merges keep the same positions of one list of URIs, and the n-th position gets the n-th shadow tag |
| `Shadow.ShadowAgreesWithManager` | catalog-client/internal/shadow/shadow.go:193-238 | both configs are equal up to the tags of the outbounds added |
| `Freshness.CheckSnapshot` | catalog-client/internal/shadow/shadow.go:97-112 | the early-exit loop decides validity |
| `Freshness.ValidityIsAnInterval` | catalog-client/internal/shadow/shadow.go:97-112 | the times at which a snapshot is valid form one interval, given exactly |
| `Freshness.ValidInBetween` | catalog-client/internal/shadow/shadow.go:182-262 | validity at both checks gives validity at all times between |
| `OutputPath.CheckOutput` | catalog-client/internal/shadow/shadow.go:117-156 | the walk ends at the root and accepts exactly the paths with nothing but real directories above them |
| `OutputPath.AcceptedExactly` | catalog-client/internal/shadow/shadow.go:126-154 | accepted are exactly the places below real directories that hold a regular file other than the base, or nothing |
| `OutputPath.AcceptedResolvesToItself` | catalog-client/internal/shadow/shadow.go:130-149 | an accepted path resolves through the link structure to itself and holds a regular file or nothing |
| `OutputPath.NewSiblingKeepsAccepted` | catalog-client/internal/shadow/shadow.go:243-265 | creating the temporary file beside the output cannot make the second path check fail |
| `OutputPath.BaseIsElsewhere` | catalog-client/internal/shadow/shadow.go:150-154 | an accepted path is not the base file, whatever links lead to the base |
| `Publication.Disk.Run` | catalog-client/internal/shadow/shadow.go:168-275 | the exact condition of success, and each failure is true of the request; after a failure base and output read as before, with perhaps a leftover temporary file; success leaves the base as it was and publishes the validated shadow config from a snapshot valid throughout |
| `Publication.PublicationKeepsBase` | catalog-client/internal/shadow/shadow.go:263-271 | after publication the base path still leads to the same file |
| `Deploy.Host.Snapshot` | scripts/deploy.sh:35-38 | a snapshot file is replaced whole with the source's contents or not at all |
| `Deploy.Host.RouterReady` | scripts/deploy.sh:39-52 | ready exactly if one of at most thirty attempts gets a healthy answer, at its own tick and with every command before it undisturbed |
| `Deploy.Host.ManagerReady` | scripts/deploy.sh:69-75 | ready exactly if one of at most sixty attempts gets an answer, at its own tick and undisturbed |
| `Deploy.Host.Restore` | scripts/deploy.sh:91-100 | a restoration is verified exactly if the backup could be put in place, loaded and checked and the cleaning up was not cut; the recovery file outlives a failed one |
| `Deploy.Host.Finish` | scripts/deploy.sh:106-112 | the end of a rollback succeeds, loses the old previous snapshot or keeps it exactly as the ticks of its commands and of the trap say |
| `Deploy.Host.Activate` | scripts/deploy.sh:101-113 | what the snapshots and the router hold at every way out of the guarded part |
| `Deploy.Host.Run` | scripts/deploy.sh:54-113 | for each outcome of an action: refusal changes nothing, success has loaded and checked what is active, restoration brings back what was, and the config that was active is never lost; success exactly on the tapes of `DeployTape.Generates` and `DeployTape.RollsBack`, loss of what a rollback was to bring back exactly on those of `DeployTape.LosesPrevious`, whatever the outcome |
| `Deploy.Host.RollBackTwice` | scripts/deploy.sh:54-58 | two successful rollbacks are the identity on both snapshots |
| `Deploy.Host.Session` | scripts/deploy.sh:5-14 | over any sequence of actions, at every instant each file holds initial or validated contents |
| `Deploy.Host.RollBack` | scripts/deploy.sh:54-58 | the same for a rollback alone |
| `Deploy.Host.Produce` | scripts/deploy.sh:59-90 | and for the actions that generate |
| `DeployTape.ManagerExactly` | scripts/deploy.sh:69-75 | the manager's loop ends well if and only if an attempt below the sixtieth is answered undisturbed |
| `DeployTape.RouterExactly` | scripts/deploy.sh:39-52 | the router's check does if and only if an attempt below the thirtieth is, every probe before it having worked |
| `DeployTape.GeneratesExactly` | scripts/deploy.sh:59-105 | the tapes on which an action that generates succeeds, by the attempts that are answered and the commands around them |
| `DeployTape.RollsBackExactly` | scripts/deploy.sh:54-112 | the same for a rollback |
| `DeployTape.LosesExactly` | scripts/deploy.sh:91-109 | and for the loss of the previous snapshot |
| `DeployTape.UndisturbedGenerates` | scripts/deploy.sh:59-90 | if everything works and answers at once and the request publishes, deploy and refresh succeed with or without a name, an add exactly with one |
| `DeployTape.UndisturbedRollsBack` | scripts/deploy.sh:54-58 | and so does a rollback |
| `DeployTape.UncutKeepsPrevious` | scripts/deploy.sh:101-109 | without a signal the previous snapshot is not lost |
| `Deploy.SignalLosesPrevious` | scripts/deploy.sh:106-109 | a signal in the window after the swap loses the previous snapshot, from the recovery file too |
| `CiDeploy.AncestorsAntisymmetric` | makefiles/ci-deploy.mk:20 | no two commits are ancestors of each other |
| `CiDeploy.AncestorsAreReached` | makefiles/ci-deploy.mk:20 | ancestors are what parents lead to in any number of steps |
| `CiDeploy.ObjectNamesAreHex` | makefiles/ci-deploy.mk:12-13 | an object name is forty lower-case hexadecimal digits |
| `CiDeploy.ForwardMeets` | makefiles/ci-deploy.mk:20-21 | the fast-forward ends at the target exactly when HEAD is its ancestor; otherwise it fails or leaves HEAD where it is |
| `CiDeploy.Checkout.Deliver` | makefiles/ci-deploy.mk:12-26 | HEAD moves exactly when the tested commit is the fetched one and descends from HEAD; ahead, diverged and stale checkouts are refused unmoved |
| `CiDeploy.ActivationsMatch` | makefiles/ci-deploy.mk:15-26 | with deliveries and pushes interleaved, images are activated only with HEAD, the tested and the fetched commit equal |
| `CiDeploy.HeadsOnlyAdvance` | makefiles/ci-deploy.mk:20-21 | HEAD moves along an ancestor chain and never returns to a commit it has left |
| `CiDeploy.EndsOnlyWithCause` | makefiles/ci-deploy.mk:15-26 | a delivery that has ended activated its images if and only if none of its commands failed, what it fetched was the tested commit, and HEAD could be forwarded to it |
| `Tproxy.CheckAddress` | telemt-egress-tproxy.sh:14-28 | accepted exactly when the string is the canonical form of four octets |
| `Tproxy.AddressesPrintApart` | telemt-egress-tproxy.sh:14-28 | each accepted string stands for one address only |
| `Tproxy.OctetsAreDecOctets` | telemt-egress-tproxy.sh:21-28 | the accepted octets are those of section 3.2.2 of RFC 3986 |
| `Tproxy.CheckUid` | telemt-egress-tproxy.sh:29-34 | accepted exactly when the string is the canonical decimal of a number up to 4294967294 |

## Left out

- HTTP, gRPC, TLS, dialing, tokens and request decoding: a fetch or snapshot request is an arbitrary result, fixed during one update.
- The real checker, Docker, git transport, nft and ss: arbitrary success, failure or a predicate on contents.
- The inside of `net/url`, `encoding/json` and `regexp`: the model starts from a split URI record, decoded objects and a direct definition of the sanitised name. The forms of numbers and strings in JSON text are not modelled.
- `strconv.Atoi`: its overflow error is not modelled, because a number that long is refused as a port anyway.
- The time of the last attempt and of the last success, other than whether there was one; logging, warning wording, file modes and ownership, CLI flags.
- Names of temporary files are taken to be unused before; leftovers of a killed process are not tracked further.
- Interleavings of a single file operation: writing a temporary file is one step that leaves it whole or garbled, and a rename is atomic.
- Power loss below the file system, where a rename may be undone.
- scripts/init.sh: its seeding is the starting point, and it is not atomic under a kill. scripts/images.py and scripts/snapshot-router.py: the order of their steps follows from reading one path.
- The environment checks of the activation script (lines 14-34) and of the delivery (lines 8-11), the interface-name test of the interception script and its readiness loop: no property beyond one reading of the code.
- Operators who run git by hand during a delivery, or write the snapshot files by hand during an action.
- SuccessHeals: that a refresh is asked for again after a crash is up to the background loop or an operator; what is proved is what a successful one achieves.
- NeverAsleep: assumes that a build ends; a fetch that never ends is bounded by the HTTP client's timeout, which is not part of this model.
