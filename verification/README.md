# Bamboo in Dafny

A model of the core of Bamboo, a framework for chained Byzantine-fault-tolerant protocols, with proofs about it:
the block forest and its commit path, the HotStuff replica, the protocol as global steps, the vote, timeout and
view-change collectors with the view clock, and two independent pieces, the key-value store's conflict test and
the benchmark's rate limiter. `dafny verify dfyconfig.toml` checks everything.

## How it is put together

- `Forest.dfy`, `ForestRuns.dfy`, `ForestQueries.dfy`: the doubly indexed forest as a value, and whole runs of it.
  `LevelledForest.dfy` holds the mutable classes, proved to implement those values.
- `Commits.dfy`, `Chains.dfy`, `ChainRuns.dfy`: the commit loop, the prune walk and what a run of commits delivers.
  `BlockChain.dfy` holds the mutable class.
- `Collectors.dfy`, `Quorum.dfy`, `Pacemaker.dfy`, `QuorumSets.dfy`: the three threshold collectors, the clock and the
  counting facts.
- `Protocol.dfy`, `Agreement.dfy`: n replicas, faulty ones voting as they like, as a step machine, with safety over
  every run.
- `Rules.dfy`, `Bridge.dfy`: the rules a replica evaluates on its stored blocks, the view order they keep, and that they
  are the rules of the step machine.
- `Turns.dfy`, `Systems.dfy`: the elementary steps the handlers are made of, replicas that take them on their own forests
  as one system, and its simulation by the step machine.
- `ReplicaInvariants.dfy`, `Replica.dfy`: the replica with its mutually recursive handlers. Each handler keeps `Valid`
  (view order, index agreement, buffer keys, justified views, rising delivery, votes above the committed view) and
  only advances. Termination uses the measure (largest view held - view handled, is that view buffered, handler rank).
  A replica can go down only on a forest in which a level that holds a block starts with a placeholder.
- `ReplicaAgreement.dfy`: what two replicas have delivered lies on one branch.
- `ReplicaWitnesses.dfy`, `HeedlessVotes.dfy`: replicas that lose a block, vote twice in a view or go down, and a run that
  disagrees because of a vote on a certificate that was only buffered.
- `Database.dfy`, `Limiter.dfy`: the store and the rate limiter.

## Hypotheses

- Levels (L): each id has one level, known to the ghost function `lev`; a block's view and the view of its certificate
  are the levels of the block and its parent, and the parent is lower (`Fits`). blockchain/leveled_forrest.go:12-14 and
  151-152 ask for this. A vertex at level 0 needs no parent, as lines 169-172 allow.
- Unique levels (U): at most one container per level (`OnePerLevel`), assumed by blockchain/leveled_forrest.go:62. It is
  used only where a statement names it.
- The step machine assumes n <= 3*ByzNo+1, at most ByzNo faulty replicas, certificates for the parent carried by blocks,
  certificates processed with their blocks stored, and honest votes in strictly increasing views (`remembers`). The last
  one is not enforced by hotstuff/hotstuff.go:398-410; fasthostuff/fhs.go:406 writes it out. `VotesTwice` is a replica
  that votes twice in a view, and `DisagreementWithoutMemory` shows that agreement then fails without any faulty voter.
  The system of `Systems.dfy` states the same hypotheses as guards on the steps of the handlers (`Allowed`). One of them
  is not kept by the handlers either: a vote heeds the certificate its block carries (`Heeds`, the lock is at or above the
  certified block's parent). hotstuff/hotstuff.go:85 only buffers a certificate whose ancestors are missing, and line 107
  votes all the same. `DigestedIsHeeded` and `HeedlessExactly` say when the handlers do heed, and
  `DisagreementWithoutHeed` is a run in which one heedless vote makes honest replicas deliver conflicting blocks.
- Signatures and hashes are ideal. Verification is an arbitrary predicate per replica, election one leader per view.

## Where code and documentation disagree

The model follows the code.

- blockchain/leveled_forrest.go:186-189 speaks of an error when an id is known at another level; there is none, neither
  for a vertex (line 158) nor for its parent (line 181), and the validity check looks at stored vertices only.
  `KeepsAgreementExactly` says exactly which new vertices keep the indexes in agreement; the three `CheckMisses` lemmas
  are reachable forests and vertices that pass the check and do not.
- blockchain/leveled_forrest.go:150 says that a vertex at the pruning level is not added; line 154 adds it.
- blockchain/leveled_forrest.go:112-116 says that unknown ids have no children; the code dereferences a nil pointer.
- blockchain/leveled_forrest.go:63-64 dereferences the first container of a level. If the level is empty or starts with
  a placeholder this panics: outcome `Panics` for a commit, the flag `crashed` for a replica. `CrashCondition` says
  exactly when, `Handle` that a replica goes down only then, and `GoesDown` is one that does.
- pacemaker/pacemaker_test.go:82-84 expects a certificate together with `false`; the code returns none.
- hotstuff/hotstuff.go:64-69 only logs a block whose signature does not verify and goes on, so the model has no check.
- hotstuff/hotstuff.go:126-130 deletes a buffered block after processing it even if that only buffered it again. `VoteOn`
  says exactly when the block is processed and when it is lost; `LosesSuccessor` is a replica that loses one.

## Model

| member | source | states |
|---|---|---|
| Agreement.Agreement | hotstuff/hotstuff.go:398-444 | in every run of the step model, any two blocks committed by honest replicas lie on one branch |
| Agreement.CommitIsFinal | hotstuff/hotstuff.go:412-426 | in every run, every certified block at or above a committed view is the committed block or descends from it |
| Agreement.CertifiedDescends | hotstuff/hotstuff.go:398-444 | the inductive core: under the run invariant, certified blocks at or above the bottom of a certified three-chain descend from it |
| Agreement.RunInv | hotstuff/hotstuff.go:357-444 | every run keeps: honest votes were cast under the rules, two votes of one replica respect the earlier lock, commits are backed by a certified three-chain |
| Agreement.OneCertifiedPerView | blockchain/quorum.go:57-95 | no two different blocks of one view are both certified |
| Agreement.CommittedIsCertified | hotstuff/hotstuff.go:412-426 | the block that a three-chain commits is itself certified |
| Agreement.DisagreementBeyondTheBound | blockchain/quorum.go:84-90 | the bound on n is tight: for every ByzNo, with n = 3*ByzNo+2 some run certifies two blocks of one view and commits on two branches |
| Agreement.DisagreementWithoutMemory | hotstuff/hotstuff.go:398-410 | without the memory of votes cast, for every ByzNo and n = 3*ByzNo+1 with no faulty replica, some run makes a replica commit two blocks of one view |
| Systems.ReplicasAgree | hotstuff/hotstuff.go:357-444 | in every run of replicas taking the steps of the handlers on their own forests, any two delivered blocks lie on one branch |
| Systems.RunSimulates | hotstuff/hotstuff.go:357-444 | every such run is matched by a run of the step machine: locks, last votes, votes and deliveries correspond |
| Systems.ActSimulates | hotstuff/hotstuff.go:357-444 | every step of a replica is a step of the machine or none at all |
| Systems.LearnMatches | hotstuff/hotstuff.go:357-396 | processing a certificate on stored blocks is the ProcessQC step, and everything it delivers is the block that step commits or an ancestor of it |
| Systems.VoteIsEnabled | hotstuff/hotstuff.go:398-410 | a vote the local rule approves is an enabled HonestVote step that leaves the lock as it is |
| Systems.SystemReplays | hotstuff/hotstuff.go:58-166 | the progress of a replica in the system is what its own steps lead to |
| Systems.DigestedIsHeeded | hotstuff/hotstuff.go:357-396 | a certificate digested with its block and that block's parent stored is heeded by the lock |
| Systems.HeedlessExactly | hotstuff/hotstuff.go:84-121 | a vote on a digested certificate is heedless exactly if the certified block's parent is above the lock, and then that parent is not stored |
| HeedlessVotes.DisagreementWithoutHeed | hotstuff/hotstuff.go:85-107 | with one of four replicas faulty and all else in place, one vote on a certificate that was only buffered leads to two honest replicas delivering blocks on different branches |
| ReplicaAgreement.HandlersAgree | hotstuff/hotstuff.go:357-444 | any two blocks that two replica objects taking part in one run have delivered lie on one branch |
| Turns.PerformKeeps | hotstuff/hotstuff.go:349-444 | every elementary step keeps index agreement and the order of views |
| QuorumSets.CorrectReplicaInBoth | blockchain/quorum.go:84-90 | two vote sets of 2*ByzNo+1 over at most 3*ByzNo+1 replicas share a correct one |
| QuorumSets.Overlap | blockchain/quorum.go:84-95 | two sets of replicas overlap in at least the excess of their sizes over n |
| QuorumSets.PacemakerQuorums | pacemaker/timeoutController.go:41-47 | floor(2n/3)+1 is n - floor((n-1)/3), and two sender sets of that size overlap in at least floor((n-1)/3)+1 nodes |
| Bridge.VotingRuleMatches | hotstuff/hotstuff.go:398-410 | with the parent stored, the local voting rule approves exactly what the step model allows |
| Bridge.LockMatches | hotstuff/hotstuff.go:428-444 | a lock update that succeeds is the lock of the step model |
| Bridge.CommitRuleMatches | hotstuff/hotstuff.go:412-426 | with the blocks stored, the local commit rule fires exactly on a three-chain and picks its grandparent |
| Bridge.CertificateIsProtocolStep | hotstuff/hotstuff.go:357-396 | an applied certificate moves the lock as the ProcessQC step does, and the committed view only to the grandparent of a three-chain |
| ForestRuns.PrunedIsRestrictedAppendOnly | blockchain/leveled_forrest.go:52-202 | for any interleaving of additions and prunings the forest is the append-only forest of the same additions cut off below the highest pruned level |
| ForestRuns.ReachableGood | blockchain/leveled_forrest.go:113-202 | index agreement in every reachable forest: each container once in its level list and nowhere else, none below the lowest level, child lists exact |
| ForestRuns.RunStores | blockchain/leveled_forrest.go:148-166 | a reachable forest holds, under each id, the first addition if its level is kept and nothing otherwise |
| ForestRuns.AppendOnlyStores | blockchain/leveled_forrest.go:153-166 | without pruning the first vertex added under an id is the one kept |
| ForestRuns.AddAppends | blockchain/leveled_forrest.go:158-202 | an addition only appends to the level lists and the child lists, so what is first at a level stays first |
| ForestRuns.KnownIds | blockchain/leveled_forrest.go:27-41 | an id has a container exactly when it is stored, or is referenced at a level that is kept |
| ForestRuns.RestrictAdd | blockchain/leveled_forrest.go:153-184 | pruning after an addition is the addition after pruning |
| ForestRuns.OrderIndependence | blockchain/leveled_forrest.go:153-202 | the set of additions and the final pruning level decide the forest up to list order, whatever the order, repetitions and moments of pruning |
| ForestRuns.SameStoreEquivalent | blockchain/leveled_forrest.go:153-202 | two good forests with the same stored blocks and lowest level have the same placeholders, child sets and level sets |
| ForestRuns.ReAddIsNoOp | blockchain/leveled_forrest.go:148-161 | adding again under an id seen before changes nothing, also after pruning |
| Forests.AddGood | blockchain/leveled_forrest.go:153-202 | an addition keeps the two indexes and the child lists in agreement |
| Forests.AddVertexAdds | blockchain/leveled_forrest.go:153-184 | what a new vertex changes, container by container |
| Forests.RestrictGood | blockchain/leveled_forrest.go:72-86 | pruning keeps the indexes and child lists in agreement |
| ForestQueries.ChildrenMeaning | blockchain/blockchain.go:102-109 | the children of a known id are the stored blocks naming it as parent, each once, at strictly higher levels |
| ForestQueries.FittingVertexPasses | blockchain/leveled_forrest.go:206-286 | a vertex that agrees with the levels passes the validity check in every reachable forest |
| ForestQueries.KeepsAgreementExactly | blockchain/leveled_forrest.go:151-202 | a new vertex keeps the indexes in agreement, for some level assignment, if and only if nothing in the forest gives it or its parent another level |
| ForestQueries.SittingWellPasses | blockchain/leveled_forrest.go:206-286 | what keeps them in agreement also passes the validity check |
| ForestQueries.CheckIsExactUpToUnseen | blockchain/leveled_forrest.go:206-286 | above the lowest level, a new vertex keeps the indexes in agreement if and only if it passes the check and what the check does not look at agrees too |
| ForestQueries.CheckOfKnown | blockchain/leveled_forrest.go:240-264 | a vertex under a stored id passes the check if and only if its view is the stored one and, above the lowest level, so is its parent reference |
| ForestQueries.CheckMissesParentPlaceholder | blockchain/leveled_forrest.go:181 | a reachable forest and a passing vertex whose parent has a placeholder at another level: no level assignment fits afterwards |
| ForestQueries.CheckMissesPrunedReference | blockchain/leveled_forrest.go:173-182 | a reachable pruned forest and a passing vertex that is stored without the stored child naming it |
| ForestQueries.PassingVertexKeepsLevels | blockchain/leveled_forrest.go:148-158 | a passing vertex ends up at its own level if and only if no placeholder for it sits at another one |
| ForestQueries.CheckMissesPlaceholder | blockchain/leveled_forrest.go:186-202 | a reachable forest and a vertex that passes the check and is stored at the wrong level |
| LevelledForests.LevelledForest.constructor | blockchain/leveled_forrest.go:43-49 | a new forest is the empty forest |
| LevelledForests.LevelledForest.GetOrCreateVertexContainer | blockchain/leveled_forrest.go:190-202 | returns the container of the id, indexing a new one at its level exactly if the id was unknown |
| LevelledForests.LevelledForest.RegisterWithParent | blockchain/leveled_forrest.go:168-184 | implements the registration on forest values, with its two level checks |
| LevelledForests.LevelledForest.AddVertex | blockchain/leveled_forrest.go:153-166 | a vertex below the lowest level or already stored changes nothing; any other is stored in its container, and linked to its parent's, with nothing else changed; keeps every container object and all invariants |
| LevelledForests.LevelledForest.GetVertex | blockchain/leveled_forrest.go:103-109 | the stored block under an id, if any |
| LevelledForests.LevelledForest.GetChildren | blockchain/leveled_forrest.go:113-117 | an iterator at the start of the child list of a known id; nothing for an unknown one, where the source dereferences nil |
| LevelledForests.LevelledForest.FindCommittedLevels | blockchain/leveled_forrest.go:57-71 | the prune walk marks the levels of the walk on forest values, and dereferences nil exactly where that is undefined |
| LevelledForests.LevelledForest.PruneLevel | blockchain/leveled_forrest.go:72-85 | one level goes from both indexes; its blocks are reported if it is above 1 and unmarked; its containers are counted |
| LevelledForests.LevelledForest.PruneLevels | blockchain/leveled_forrest.go:72-85 | the loop leaves exactly the containers from the level up, and returns, each once, exactly the blocks above level 1 of the unmarked levels it empties, and the count |
| LevelledForests.LevelledForest.PruneUpToLevel | blockchain/leveled_forrest.go:52-88 | refuses exactly to move down; dereferences nil exactly where the walk does, with the forest untouched; otherwise cuts it off below the level and returns, each once, exactly the blocks of unmarked levels above 1, and the number of containers that are gone, keeping all invariants |
| LevelledForests.VertexIterator.constructor | blockchain/vertex.go:51-57 | the iterator starts before the first full container |
| LevelledForests.VertexIterator.PreLoad | blockchain/vertex.go:27-37 | moves to the next full container, passing over empty ones only |
| LevelledForests.VertexIterator.NextVertex | blockchain/vertex.go:40-44 | hands out the look-ahead block and extends what was handed out by it |
| LevelledForests.VertexIterator.HasNext | blockchain/vertex.go:47-49 | once false, exactly the blocks of all full containers were handed out in order |
| Commits.CommittedPathMeaning | blockchain/blockchain.go:78-92 | the commit loop yields exactly the stored ancestors above the lowest level, newest first, parent-linked, with falling views |
| Commits.ForkedMeaning | blockchain/leveled_forrest.go:72-85 | a stored block is reported as forked exactly when its level is pruned, above 1 and unmarked |
| Commits.ForkedOnce | blockchain/leveled_forrest.go:72-85 | no block is reported as forked twice by one pruning |
| Commits.ForkedIs | blockchain/leveled_forrest.go:72-85 | the forked list holds exactly the blocks of unmarked levels above 1 in the range, each once |
| Commits.WalkMarksAncestors | blockchain/leveled_forrest.go:61-71 | with one container a level the prune walk never dereferences an empty container and marks exactly the levels of stored ancestors |
| Commits.FrontedWalks | blockchain/leveled_forrest.go:61-64 | the walk never dereferences an empty container if no level above 1 that holds a block starts with a placeholder, which is weaker than unique levels |
| Commits.CommitForkSplit | blockchain/blockchain.go:71-100 | commit/fork split: each stored block above view 1, above the lowest level and up to the committed view is in exactly one list; at the lowest level it is forked exactly when it is no ancestor |
| Commits.PruneConserves | blockchain/leveled_forrest.go:72-87 | pruning removes exactly as many containers as it reports |
| Chains.NeverRefused | blockchain/blockchain.go:93-96 | the pruning error branch of a commit is unreachable |
| Chains.CommitKeepsGood | blockchain/blockchain.go:71-100 | a commit keeps the forest invariants and never lowers the lowest level |
| Chains.CommitFinalizes | blockchain/blockchain.go:71-100 | what a commit comes to in terms of stored blocks: the batch, the forked blocks, what stays stored, the counters and the votes |
| Chains.CommitDropsVotes | blockchain/blockchain.go:81-84 | a commit deletes the votes of exactly the blocks it delivers |
| Chains.CommitCountsIntervals | blockchain/blockchain.go:86 | the intervals counted are the distances from the delivered views to the current one |
| Chains.PathReaches | blockchain/blockchain.go:79-92 | if the stored ancestors reach the lowest level, the batch ends right above the block there |
| ChainRuns.DeliveryRises | blockchain/blockchain.go:76-99 | over any run every delivered block has a larger view than all earlier ones, so none is delivered twice, and the lowest level is the last delivered view |
| ChainRuns.DeliveryIsOneChain | blockchain/blockchain.go:76-99 | if every target descends from the last delivered block through stored blocks, everything delivered is one parent-linked chain |
| ChainRuns.ForkedIsNeverDelivered | blockchain/blockchain.go:71-100 | over whole runs with unique levels: no block is both delivered and reported as forked if and only if every commit joins the last delivered block or that one has view 1 or less |
| ChainRuns.LastIsForked | blockchain/leveled_forrest.go:61-85 | a commit reports the last delivered block as forked exactly if it is above view 1 and no ancestor of the target |
| ChainRuns.RunSettles | blockchain/blockchain.go:71-100 | over any run the last delivered block is stored and reported forks lie below the lowest level |
| ChainRuns.ForkedOnceInAll | blockchain/blockchain.go:71-100 | over any run no block is reported as forked twice |
| ChainRuns.JoiningIsHarmless | blockchain/blockchain.go:71-100 | in particular, joining commits never mix the two |
| ChainRuns.DeliveredThenForked | blockchain/leveled_forrest.go:61-85 | a run with unique levels in which a delivered block is later reported as forked, because the target did not join |
| ChainRuns.PlaceholderPanics | blockchain/leveled_forrest.go:61-64 | without unique levels a commit can dereference a placeholder |
| ChainRuns.Conservation | blockchain/blockchain.go:71-100 | over any run containers created = live + pruned, blocks counted as committed = blocks delivered, highest committed view = lowest level |
| BlockChains.BlockChain.constructor | blockchain/blockchain.go:21-26 | a new chain is the empty chain |
| BlockChains.BlockChain.AddBlock | blockchain/blockchain.go:32-35 | implements the addition on chain values |
| BlockChains.BlockChain.AddVote | blockchain/blockchain.go:37-39 | collects the vote; a certificate comes out exactly when the collector reports, and lists its voters with their signatures |
| BlockChains.BlockChain.GetParentBlock | blockchain/blockchain.go:49-60 | the parent if the block and its parent are stored |
| BlockChains.BlockChain.WalkCommitted | blockchain/blockchain.go:78-92 | the commit loop returns the stored ancestors above the lowest level, the votes left and the intervals |
| BlockChains.BlockChain.CommitVertex | blockchain/blockchain.go:76-99 | the loop, the counters and the pruning of a stored block; where the prune walk dereferences nil the forest is untouched |
| BlockChains.BlockChain.CommitBlock | blockchain/blockchain.go:71-100 | implements the commit on chain values, unknown blocks and nil dereferences included; a commit delivers exactly the stored ancestors above the old lowest level, parent-linked, reports forks each once and with unique levels exactly the other blocks, keeps what is stored from the committed view on and drops the votes of the batch |
| BlockChains.BlockChain.GetChildrenBlocks | blockchain/blockchain.go:102-109 | the blocks of the full containers among the children of a known id, in order; nothing for an unknown id |
| Collectors.FirstCrossing | pacemaker/timeoutController.go:22-47 | over any sequence of messages and deletions a message reports exactly when it brings the distinct senders to the threshold, and the report covers exactly those |
| Collectors.ReportsOnce | pacemaker/viewChangeController.go:23-48 | between two deletions of a key at most one message reports |
| Collectors.RunKeeps | blockchain/quorum.go:57-67 | what is kept: all senders below the threshold, exactly the threshold from then on |
| Collectors.KeptIsLatest | blockchain/quorum.go:57-67 | up to the crossing the message kept for a sender is its last one since the key was deleted |
| Quorums.Quorum.Add | blockchain/quorum.go:57-82 | implements the collector; the certificate names view and block and lists its voters with their signatures |
| Quorums.GetSigs | blockchain/quorum.go:97-110 | every voter once, aligned with the signature of that voter |
| Quorums.CertificateSize | blockchain/quorum.go:57-95 | a certificate has exactly 2*ByzNo+1 signers, those who voted since the last deletion |
| Pacemakers.TimeoutController.AddTmo | pacemaker/timeoutController.go:22-39 | implements the collector; a certificate for the view exactly when it reports |
| Pacemakers.ViewChangeController.AddVmo | pacemaker/viewChangeController.go:23-40 | implements the collector; a certificate for the view exactly when it reports |
| Pacemakers.Pacemaker.constructor | pacemaker/pacemaker.go:20-26 | a new clock is at view 0 with nothing announced |
| Pacemakers.Pacemaker.ProcessRemoteTmo | pacemaker/pacemaker.go:28-33 | a stale message is not counted; any other goes to the collector |
| Pacemakers.Pacemaker.ProcessRemoteVmo | pacemaker/pacemaker.go:35-40 | a stale message is not counted; any other goes to the collector |
| Pacemakers.Pacemaker.AdvanceView | pacemaker/pacemaker.go:42-50 | moves past the view unless it lies behind; announced views increase strictly and the last is the current one |
| Pacemakers.AdvanceEvents | pacemaker/pacemaker.go:42-50 | announced views stay strictly increasing and end in the current view, which never falls |
| Pacemakers.TmoMeaning | hotstuff/hotstuff.go:168-177 | a stale timeout changes nothing; any other is counted, and the view is left and the next announced exactly if it brings the senders to the threshold |
| Pacemakers.VmoMeaning | hotstuff/hotstuff.go:193-198 | the same for a view-change message at the leader of the next view |
| Rules.CertificateKeepsOrder | hotstuff/hotstuff.go:349-444 | an applied certificate keeps last committed view < lock < highest certificate and lowers none of them |
| Rules.CertificateMeaning | hotstuff/hotstuff.go:357-396 | a verified certificate is buffered exactly if it is past view 2 and its block or that block's parent is not stored; applied, it sets lock and highest certificate, and commits exactly if it ends three stored consecutive views: then the batch is exactly the stored ancestors above the old lowest level, linked, and with unique levels the forked list is the rest |
| Rules.VerdictMeaning | hotstuff/hotstuff.go:398-410 | past view 2 a block is approved, rejected or undecided exactly as its parent is stored at or above the lock, stored below it, or not reachable |
| Rules.NextPreferredIsOrdered | hotstuff/hotstuff.go:412-444 | the new lock lies below the highest certificate and above the block that the certificate commits |
| Rules.ApprovedParentIsAboveCommitted | hotstuff/hotstuff.go:398-410 | above view 2 only blocks whose parent is strictly above the last committed view are approved |
| Rules.ProposalIsApproved | hotstuff/hotstuff.go:269-289 | an honest proposal of an early view, or whose certified parent is stored, passes the voting rule of its proposer |
| Rules.CrashCondition | hotstuff/hotstuff.go:380-389 | processing a certificate ends in a nil dereference exactly when the commit rule fires and the prune walk meets an empty container; never if no level that holds a block starts with a placeholder, in particular with unique levels |
| Rules.StuckIsUnfronted | blockchain/leveled_forrest.go:61-64 | a forest on which a replica went down has a level that holds a block and starts with a placeholder |
| ReplicaInvariants.CertificateIsDigested | hotstuff/hotstuff.go:357-396 | whether applied or buffered, once processed all that the certificate calls for by the stored blocks has happened: the lock is at least at the certified block's parent, and the block its three-chain commits is committed |
| ReplicaInvariants.DigestedEarlier | hotstuff/hotstuff.go:357-396 | the same judged by an earlier forest: what has been pruned since lies below the lock |
| ReplicaInvariants.CertificateDelivers | hotstuff/hotstuff.go:385-392 | a certificate keeps the delivered views strictly rising up to the lowest level |
| ReplicaInvariants.CertificateRetains | hotstuff/hotstuff.go:357-396 | stored blocks never change and go only by pruning |
| ReplicaInvariants.AdvanceBacked | pacemaker/pacemaker.go:42-50 | a view left on valid grounds keeps every entered view justified |
| Replicas.HotStuff.constructor | hotstuff/hotstuff.go:37-56 | a new replica meets every invariant |
| Replicas.HotStuff.UpdateHighQC | hotstuff/hotstuff.go:349-355 | the highest certificate is the higher one, all invariants kept |
| Replicas.HotStuff.UpdatePreferredView | hotstuff/hotstuff.go:428-444 | fails exactly past view 2 with the block or its parent not stored; the lock then stays, and otherwise becomes the larger of itself and the parent's view, early views leaving it |
| Replicas.HotStuff.ApplyCertificate | hotstuff/hotstuff.go:369-395 | a certificate with missing blocks is buffered and nothing else changes; any other sets lock and highest certificate, and delivers exactly the batch and the forked blocks its commit calls for, all in terms of stored blocks; or the replica goes down where the rules say |
| Replicas.HotStuff.ProcessCertificate | hotstuff/hotstuff.go:357-396 | a certificate neither the replica's own nor verified changes nothing; any other is applied exactly if early or its block and parent are stored, with the effect on lock, highest certificate, delivered batch and forked blocks stated by stored blocks, and is buffered otherwise, or takes the replica down exactly as the rules say; all invariants kept |
| Replicas.HotStuff.CommitByRule | hotstuff/hotstuff.go:380-395 | commits and delivers what the commit rule gives, if anything |
| Replicas.HotStuff.ProcessBlock | hotstuff/hotstuff.go:58-133 | terminates; queues a later block and does nothing else; otherwise the certificate is digested, a block of the right leader stored, and voted for exactly as the voting rule says at some state on the way; the view is left if its VMO is there; all invariants kept unless the forest is stuck. With nothing else waiting, exactly the steps of the block's turn are taken, it crashes exactly if its certificate does, and a buffered successor is lost |
| Replicas.HotStuff.ProcessReceived | hotstuff/hotstuff.go:76-133 | the part for a view already reached, with the same effects |
| Replicas.HotStuff.LeaveAndCertify | hotstuff/hotstuff.go:76-86 | leaves the view if its VMO is there and digests the carried certificate, judged by the forest before; without a VMO it takes just the certificate's steps and crashes exactly if the certificate does |
| Replicas.HotStuff.LeaveView | hotstuff/hotstuff.go:76-77 | records the block and leaves its view if the VMO is there; otherwise nothing else changes |
| Replicas.HotStuff.ProcessCarriedQC | hotstuff/hotstuff.go:78-86 | raises the highest certificate in any case, processes it unless the proposal is its own, and crashes exactly if that does |
| Replicas.HotStuff.StoreAndVote | hotstuff/hotstuff.go:92-133 | a block of another leader changes nothing; any other is stored until pruned and judged by the voting rule; undisturbed, it takes exactly the steps of storing and, if approved, voting |
| Replicas.HotStuff.VoteAndContinue | hotstuff/hotstuff.go:97-132 | a certificate that waited for the block is digested, then the voting rule decides the fate of the block |
| Replicas.HotStuff.VoteOn | hotstuff/hotstuff.go:107-132 | past view 2 votes exactly if the parent is stored at or above the lock, rejects exactly if it is stored below, fails exactly if it is not; otherwise nothing changes; the successor then in the buffer is processed if and only if the clock has passed the view once the vote is cast, and dropped unprocessed otherwise |
| Replicas.HotStuff.TakeUpSuccessor | hotstuff/hotstuff.go:126-130 | the same for the state at the call: processed exactly if the clock has passed the view, else gone with nothing else changed |
| Replicas.HotStuff.TakeUpBuffered | hotstuff/hotstuff.go:227-231 | a block buffered for the view is processed, judged and gone from the buffer if the view is reached, and otherwise stays buffered; without one nothing happens |
| ReplicaWitnesses.LosesSuccessor | hotstuff/hotstuff.go:126-130 | a new replica that, given two blocks, has lost the second: not buffered, not received, not stored |
| ReplicaWitnesses.VotesTwice | hotstuff/hotstuff.go:398-410 | a new replica that has voted for two different blocks of one view |
| ReplicaWitnesses.GoesDown | blockchain/leveled_forrest.go:61-64 | a new replica that five well-formed blocks and a timeout take down |
| Replicas.HotStuff.ProcessBufferedQC | hotstuff/hotstuff.go:98-105 | digests the certificate, forgets it, and announces the view change at the next leader |
| Replicas.HotStuff.CastVote | hotstuff/hotstuff.go:116-125 | unless the replica collects it itself, exactly the vote for the block's view and id under its own name goes to the leader of the next view; otherwise it is counted; it is recorded under the lock of the moment |
| Replicas.HotStuff.ProcessVote | hotstuff/hotstuff.go:135-166 | ignored, only counted, buffered as a certificate of the voters collected, or digested and announced with the highest certificate: each exactly in its case; terminates |
| Replicas.HotStuff.ProcessLocalVmo | hotstuff/hotstuff.go:254-263 | broadcasts a VMO with the highest certificate and counts, keeps or acts on it as on any other; terminates |
| Replicas.HotStuff.ProcessRemoteVmo | hotstuff/hotstuff.go:190-220 | at the next leader only counted; elsewhere kept, and if the view is reached, a block still buffered for it is processed and judged and its view left, as it is if its block had arrived; terminates |
| Replicas.HotStuff.FollowVmo | hotstuff/hotstuff.go:200-219 | the part for replicas that do not lead the next view |
| Replicas.HotStuff.ProcessReachedVmo | hotstuff/hotstuff.go:211-218 | takes up a block still buffered for the view, leaves a view whose block is there, and the next one too if its VMO and block are there |
| Replicas.HotStuff.ProcessVMOAndBlock | hotstuff/hotstuff.go:222-250 | without a VMO nothing happens; with one, a block still buffered for a reached view is processed and judged, its slot emptied and the view left; with both, the view is left, both are consumed and the VMO is posted to the next leader; terminates |
| Replicas.HotStuff.CollectVmo | hotstuff/hotstuff.go:193-198 | counts the VMO unless stale; the view is left exactly if that brings the senders to the threshold |
| Replicas.HotStuff.CollectTmo | hotstuff/hotstuff.go:171-176 | counts the timeout unless stale; the view is left exactly if that brings the senders to the threshold |
| Replicas.HotStuff.ProcessRemoteTmo | hotstuff/hotstuff.go:168-177 | digests the certificate, then counts the timeout |
| Replicas.HotStuff.ProcessLocalTmo | hotstuff/hotstuff.go:179-188 | broadcasts a timeout with the highest certificate and counts it, which moves the clock when it completes a quorum |
| Replicas.HotStuff.AdvanceView | pacemaker/pacemaker.go:42-50 | can only be called with grounds for leaving the view; keeps every entered view justified |
| Replicas.HotStuff.StartClock | hotstuff/hotstuff.go:60-62 | enters view 1 unless a view has been entered, all invariants kept |
| Replicas.HotStuff.AddVote | hotstuff/hotstuff.go:151-156 | the vote is collected; a certificate comes out exactly when the collector reports |
| Replicas.HotStuff.StoreBlock | hotstuff/hotstuff.go:95 | the block is stored until pruned, all invariants kept |
| Replicas.HotStuff.TakeBoth | hotstuff/hotstuff.go:244-247 | consumes VMO and block of a view and leaves it |
| Replicas.HotStuff.MakeProposal | hotstuff/hotstuff.go:269-289 | its own block of the given view and id, carrying the highest certificate and naming the certified block as parent; well-formed if the view is above the certificate's |
| Replicas.HotStuff.ProposeBlock | replica/replica.go:277-295 | exactly that block is broadcast, and queued or processed like any block; the leader of a reached view that finds the parent stored, the id new and nothing else waiting does not crash and votes for it |
| Replicas.HotStuff.Handle | replica/replica.go:350-380 | one turn of the event loop: always ends, keeps every invariant and only advances, unless the forest is stuck, which unique levels exclude; a block is queued, or stored and judged with its certificate digested, and every other event has its stated effect |
| Replicas.HotStuff.AnnounceCertificate | hotstuff/hotstuff.go:163-164 | a certificate of the replica's own is digested and the highest certificate announced |
| Replicas.EventLoop.Receive | replica/replica.go:120-152 | a vote, timeout or view-change message of a view below the current one is dropped on arrival, everything else queued in order |
| Replicas.EventLoop.Turn | replica/replica.go:356-379 | the oldest event is processed, also if it has become stale in the queue |
| Turns.TurnStores | hotstuff/hotstuff.go:78-125 | a block's turn whose certificate commits nothing adds exactly that block to the forest, and without a certificate to process leaves the lock |
| Databases.NoConflictReorders | db/db.go:165-185 | batches without conflict can be swapped on any database: same data, version, history and replies |
| Databases.ConflictIsExact | db/db.go:165-185 | batches conflict if and only if on some database swapping them is observable |
| Databases.ConflictBatch | db/db.go:175-185 | the scan answers whether some pair conflicts |
| Databases.HistoryIsWrites | db/db.go:124-135 | the version counts the writes, the history lists them in order and ends in the current value |
| Databases.GetAfter | db/db.go:104-135 | after a batch a key holds the last value written to it |
| Databases.Database.ExecuteCommand | db/db.go:104-115 | writes the value unless nil and returns the previous one |
| Databases.Database.PutValue | db/db.go:124-135 | the write on store values |
| Limiters.ReleasesAreSpaced | benchmark/rate.go:26-52 | the j-th return comes at least (j-i) intervals less the slack after the i-th, for any call times |
| Limiters.WindowBound | benchmark/rate.go:26-52 | a window of length T holds at most (T-slack)/interval + 1 returns |
| Limiters.DelaysAreShort | benchmark/rate.go:37-51 | a call returns at once or at most an interval after the return before it |
| Limiters.ReleaseIs | benchmark/rate.go:26-52 | over any calls, each return is at the larger of the call time and an interval after the last return less the credit banked, and what the call leaves of the interval is the new credit, at most the slack |
| Limiters.PauseIsCredited | benchmark/rate.go:37-51 | after a pause worth the slack, calls return at once until the credit is used up |
| Limiters.NewIs | benchmark/rate.go:18-23 | interval and slack are the truncated quotients of a second and of minus ten seconds by the rate |
| Limiters.NewLimits | benchmark/rate.go:18-23 | the bounds apply for every positive rate; the interval is positive exactly for rates from 1 to 10^9 |
| Limiters.Limiter.constructor | benchmark/rate.go:18-23 | interval and slack as truncating quotients |
| Limiters.Limiter.Wait | benchmark/rate.go:26-52 | one call on limiter values: the first returns at once, any later one at the larger of the call time and an interval after the last return less the credit |

## Left out

- streamlet, lbft, tchs and fasthostuff: not modelled; their locks or rules do not support the statements made here.
- Attack simulation (forkRule, silence, IsByz, Mali, forkNum): faulty replicas are arbitrary voters in the step machine.
- crypto, election, transport, socket, node, HTTP, client, server, configuration, logging, statistics: I/O or plumbing.
- mempool: short list operations that would only add easy members.
- Goroutines, mutexes and channel capacity: a handler is one atomic step, a channel an unbounded sequence.
- Machine integers: views and counters are unbounded and not negative; 64-bit wrap-around is not modelled.
- Block payload, height, timestamps, block signatures and the CommitFromThis mark: carried along by the source, read by no rule modelled.
- GetBlockByView, GetGrandParentBlock, GetNumberOfChildren, GetVerticesAtLevel: easy lookups.
- Chain growth and interval averages: quotients of counters whose values are modelled.
- Liveness: nothing is claimed about progress beyond the termination of every handler call.
- Replicas.HotStuff: holds block chain and pacemaker as values, so sharing of those objects is not captured; the classes BlockChain and Pacemaker are proved to implement the same values. A VMO is a value too, so the in-place change of its sender (hotstuff/hotstuff.go:239) is seen only in the message posted on.
- Replicas.HotStuff.Handle: says of a replica that has crashed only that its forest is stuck; a leader is taken to propose above its highest certificate (L).
- Replicas.HotStuff.ProposeBlock: a new view at or below the highest certificate, whose proposal would break L, is not processed further.
- Replicas.EventLoop.Receive: local timers and new views arrive through the same queue as messages.
- Systems.ReplicasAgree: takes the guards of `Allowed` as given; the handlers guarantee the rules, not genuine certificates, memory or heeded certificates.
- BlockChains.BlockChain.CommitBlock: where the source panics it returns a value instead of unwinding.
- BlockChains.BlockChain.WalkCommitted: updates local variables and writes fields once at the end, where the source writes them each turn.
- LevelledForests.VertexIterator.PreLoad: writes its fields once at the end, where the source writes them each turn.
- LevelledForests.LevelledForest.GetChildren: returns None where the source dereferences nil on an unknown id.
- Limiters.Limiter.Wait: takes the time of the call as a parameter and sleeps exactly as long as asked.
