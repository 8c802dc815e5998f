/**
 One replica as a state machine on values. Each function below is one arm of the main loop; Step dispatches on
 the input. Where the source iterates over a map, the outcome is a parameter constrained by a relation that every
 iteration order satisfies (Merge, Enumerates), so statements about all choices cover all orders.
 */
module Replica {
  import opened Types

  datatype Slot = Slot(
    request: Option<string>, digest: Digest, preprepare: Option<SignedPrePrepare>,
    prepares: map<NodeId, SignedPrepare>, commits: map<NodeId, SignedCommit>,
    prepared: bool, committed: bool)

  const EMPTY_SLOT := Slot(None, ZERO_DIGEST, None, map[], map[], false, false)

  datatype ViewChangeInfo = ViewChangeInfo(
    messages: map<NodeId, SignedViewChange>, inProgress: bool, view: int)

  // The new view a leader built last and keeps for resending. Its votes are not kept: the source shares the map of
  // collected messages with it, so a resent new view shows the votes of that moment.
  datatype StoredNewView = StoredNewView(view: int, prePrepares: map<SlotId, FullPrePrepare>)

  // newView is None until the node first builds one. caughtUp holds what each peer last reported, and 0 for a peer
  // that has yet to acknowledge the new view.
  datatype NodeState = NodeState(
    view: int, sequenceNumber: int, issued: int,
    log: map<SlotId, Slot>, requests: set<Digest>,
    change: ViewChangeInfo,
    lastCheckpoint: CheckpointProof, pending: map<SlotId, CheckpointProof>,
    newView: Option<StoredNewView>, caughtUp: map<NodeId, int>,
    down: bool)

  const INITIAL_CHECKPOINT := CheckpointProof(SlotId(0, 0), [], map[])
  const INITIAL_CHANGE := ViewChangeInfo(map[], false, 0)

  function AllPeersAt(cfg: Config, id: NodeId, number: int): map<NodeId, int> {
    map p | p in cfg.nodes && cfg.IsPeer(id, p) :: number
  }

  function Initial(cfg: Config, id: NodeId): NodeState {
    NodeState(0, 1, 1, map[], {}, INITIAL_CHANGE, INITIAL_CHECKPOINT, map[], None, AllPeersAt(cfg, id, 1), false)
  }

  datatype Delivery = Delivery(number: SlotId, request: Option<string>)

  // What a step does to the outside: messages broadcast, and values written to the client channels.
  datatype Outcome = Outcome(
    state: NodeState, sent: set<Msg>, delivered: Option<Delivery>,
    snapshotRequest: Option<SlotId>, appliedSnapshot: Option<Snapshot>)

  function Quiet(s: NodeState): Outcome { Outcome(s, {}, None, None, None) }
  function Send(s: NodeState, sent: set<Msg>): Outcome { Outcome(s, sent, None, None, None) }

  // Helpers

  function SlotAt(log: map<SlotId, Slot>, k: SlotId): Slot {
    if k in log then log[k] else EMPTY_SLOT
  }

  function IssuedSlot(full: FullPrePrepare): Slot {
    Slot(Some(full.request), full.Digest(), Some(full.signed), map[], map[], false, false)
  }

  predicate IsPrimary(cfg: Config, id: NodeId, s: NodeState)
    requires |cfg.nodes| >= 1
  {
    cfg.LeaderFor(s.view) == id
  }

  predicate IsPrepared(cfg: Config, slot: Slot) {
    slot.preprepare.Some? && |slot.prepares| >= cfg.PreparedQuorum()
  }

  predicate IsCommitted(cfg: Config, slot: Slot) {
    |slot.commits| >= cfg.PreparedQuorum()
  }

  // Normal case

  // A client request is given a number: the node is the primary, outside a view change, and has not seen it.
  predicate Allocates(cfg: Config, id: NodeId, s: NodeState, request: string)
    requires |cfg.nodes| >= 1
  {
    !s.change.inProgress && cfg.digest(request) !in s.requests && IsPrimary(cfg, id, s)
  }

  function NextFull(cfg: Config, id: NodeId, s: NodeState, request: string): FullPrePrepare {
    FullPrePrepare(
      SignedPrePrepare(PrePrepare(SlotId(s.view, s.issued + 1), cfg.digest(request)), By(id)), request)
  }

  function HandleClientRequest(cfg: Config, id: NodeId, s: NodeState, request: string): Outcome
    requires |cfg.nodes| >= 1
  {
    if s.change.inProgress || cfg.digest(request) in s.requests then Quiet(s)
    else
      var s1 := s.(requests := s.requests + {cfg.digest(request)});
      if IsPrimary(cfg, id, s) then
        var full := NextFull(cfg, id, s, request);
        Send(s1.(issued := s.issued + 1, log := s.log[full.Number() := IssuedSlot(full)]), {MPrePrepare(full)})
      else Send(s1, {MClientRequest(request)})
  }

  // The checks a backup makes before it looks at its log.
  predicate Admissible(cfg: Config, id: NodeId, s: NodeState, full: FullPrePrepare)
    requires |cfg.nodes| >= 1
  {
    && !s.change.inProgress
    && !IsPrimary(cfg, id, s)
    && cfg.Signer(id, full.signed.signature).Some?
    && (full.Number().view == s.view ==> cfg.Signer(id, full.signed.signature) == Some(cfg.LeaderFor(s.view)))
    && !full.IsHeartbeat()
    && full.Number().view == s.view
    && s.lastCheckpoint.number.seqNo < full.Number().seqNo <= s.lastCheckpoint.number.seqNo + CHECKPOINT * 3
    && full.Digest() == cfg.digest(full.request)
  }

  predicate Accepts(cfg: Config, id: NodeId, s: NodeState, full: FullPrePrepare)
    requires |cfg.nodes| >= 1
  {
    Admissible(cfg, id, s, full) && SlotAt(s.log, full.Number()).request.None?
  }

  function PrepareFor(id: NodeId, full: FullPrePrepare): SignedPrepare {
    SignedPrepare(Prepare(full.Number(), full.Digest(), id), By(id))
  }

  function AcceptInto(id: NodeId, slot: Slot, full: FullPrePrepare): Slot {
    slot.(request := Some(full.request), digest := full.Digest(), preprepare := Some(full.signed),
          prepares := slot.prepares[id := PrepareFor(id, full)])
  }

  function HandlePrePrepare(cfg: Config, id: NodeId, s: NodeState, full: FullPrePrepare): Outcome
    requires |cfg.nodes| >= 1
  {
    if !Accepts(cfg, id, s, full) then Quiet(s)
    else
      var k := full.Number();
      Send(s.(issued := if k.seqNo > s.issued then k.seqNo else s.issued,
              log := s.log[k := AcceptInto(id, SlotAt(s.log, k), full)]),
           {MPrepare(PrepareFor(id, full))})
  }

  // A digest that differs from the slot's is only logged by the source: the message counts all the same.
  function PrepareInto(slot: Slot, message: SignedPrepare): Slot {
    slot.(prepares := slot.prepares[message.message.node := message])
  }

  function CommitFor(id: NodeId, p: Prepare): SignedCommit {
    SignedCommit(Commit(p.number, p.digest, id), By(id))
  }

  function HandlePrepare(cfg: Config, id: NodeId, s: NodeState, message: SignedPrepare): Outcome {
    if s.change.inProgress || cfg.Signer(id, message.signature) != Some(message.message.node) then Quiet(s)
    else
      var k := message.message.number;
      var slot := PrepareInto(SlotAt(s.log, k), message);
      if IsPrepared(cfg, slot) then
        var commit := CommitFor(id, message.message);
        Send(s.(log := s.log[k := slot.(prepared := true, commits := slot.commits[id := commit])]),
             {MCommit(commit)})
      else Quiet(s.(log := s.log[k := slot]))
  }

  function CommitInto(slot: Slot, message: SignedCommit): Slot {
    slot.(commits := slot.commits[message.message.node := message])
  }

  function HandleCommit(cfg: Config, id: NodeId, s: NodeState, message: SignedCommit): Outcome {
    var k := message.message.number;
    if s.change.inProgress || cfg.Signer(id, message.signature) != Some(message.message.node)
       || k.Before(s.lastCheckpoint.number) then Quiet(s)
    else
      var slot := CommitInto(SlotAt(s.log, k), message);
      if !slot.committed && IsCommitted(cfg, slot) then
        var number := if k.seqNo > s.sequenceNumber then k.seqNo else s.sequenceNumber;
        Outcome(
          s.(log := s.log[k := slot.(committed := true)], sequenceNumber := number),
          {}, Some(Delivery(k, slot.request)),
          if number % CHECKPOINT == 0 then Some(SlotId(s.view, number)) else None, None)
      else Quiet(s.(log := s.log[k := slot]))
  }

  // Checkpoints

  function Flushed(pending: map<SlotId, CheckpointProof>, number: SlotId): set<SlotId> {
    set k | k in pending && k.BeforeOrEqual(number)
  }

  // The log loses the slots whose numbers are flushed pending checkpoints, not every slot up to the checkpoint.
  function Checkpointed(s: NodeState, c: CheckpointProof): Outcome {
    if c.number.Before(s.lastCheckpoint.number) then Quiet(s)
    else
      var flushed := Flushed(s.pending, c.number);
      var s1 := s.(lastCheckpoint := c, pending := s.pending - flushed, log := s.log - flushed);
      if s.sequenceNumber < c.number.seqNo then
        Outcome(s1.(sequenceNumber := c.number.seqNo), {}, None, None, Some(c.snapshot))
      else Quiet(s1)
  }

  predicate IsStable(cfg: Config, s: NodeState, number: SlotId) {
    || number.BeforeOrEqual(s.lastCheckpoint.number)
    || (number in s.pending && |s.pending[number].proof| >= cfg.CheckpointQuorum())
  }

  function Endorse(s: NodeState, message: SignedCheckpoint): NodeState {
    var c := message.message;
    var record := if c.number in s.pending then s.pending[c.number] else CheckpointProof(c.number, c.snapshot, map[]);
    s.(pending := s.pending[c.number := record.(proof := record.proof[c.node := message])])
  }

  function AddCheckpoint(cfg: Config, s: NodeState, message: SignedCheckpoint): Outcome {
    var number := message.message.number;
    if IsStable(cfg, s, number) then Quiet(s)
    else
      var s1 := Endorse(s, message);
      if IsStable(cfg, s1, number) then Checkpointed(s1, s1.pending[number]) else Quiet(s1)
  }

  function HandleCheckpoint(cfg: Config, id: NodeId, s: NodeState, message: SignedCheckpoint): Outcome {
    if cfg.Signer(id, message.signature) != Some(message.message.node) then Quiet(s)
    else AddCheckpoint(cfg, s, message)
  }

  function HandleCheckpointProof(cfg: Config, id: NodeId, s: NodeState, message: SignedCheckpointProof): Outcome {
    if cfg.Signer(id, message.signature) != Some(message.message.node) then Quiet(s)
    else Checkpointed(s, message.message.proof)
  }

  function HandleRecvSnapshot(cfg: Config, id: NodeId, s: NodeState, number: SlotId, state: Snapshot): Outcome {
    var own := SignedCheckpoint(Checkpoint(number, state, id), By(id));
    AddCheckpoint(cfg, s, own).(sent := {MCheckpoint(own)})
  }

  // View changes

  function CurrentView(s: NodeState): int {
    if s.change.inProgress then s.change.view else s.view
  }

  predicate HasProof(cfg: Config, s: NodeState, k: SlotId) {
    k in s.log && s.lastCheckpoint.number.Before(k) && IsPrepared(cfg, s.log[k])
  }

  function ProofOf(k: SlotId, slot: Slot): PreparedProof
    requires slot.preprepare.Some? && slot.request.Some?
  {
    PreparedProof(k, slot.request.value, slot.preprepare.value, slot.digest, slot.prepares)
  }

  // Reading the request of a prepared slot needs the slot invariant; without it the source would fault.
  function ProofsSinceCheckpoint(cfg: Config, s: NodeState): map<SlotId, PreparedProof> {
    map k | k in s.log && HasProof(cfg, s, k) && s.log[k].request.Some? :: ProofOf(k, s.log[k])
  }

  function ViewChangeFor(cfg: Config, id: NodeId, s: NodeState, view: int): SignedViewChange {
    SignedViewChange(
      ViewChange(view, s.lastCheckpoint.number, s.lastCheckpoint.proof, ProofsSinceCheckpoint(cfg, s), id), By(id))
  }

  predicate StartsViewChange(s: NodeState, view: int) {
    !s.down && s.change.view <= view && !(s.change.inProgress && s.change.view == view)
  }

  function StartViewChange(cfg: Config, id: NodeId, s: NodeState, view: int): Outcome {
    if !StartsViewChange(s, view) then Quiet(s)
    else
      Send(s.(change := s.change.(inProgress := true, view := view)), {MViewChange(ViewChangeFor(cfg, id, s, view))})
  }

  function EnterNewView(s: NodeState, view: int): NodeState {
    var low := s.lastCheckpoint.number.seqNo;
    s.(change := s.change.(inProgress := false), view := view, sequenceNumber := if low > 1 then low else 1)
  }

  function Above(messages: map<NodeId, SignedViewChange>, current: int): set<NodeId> {
    set j | j in messages && messages[j].message.view > current
  }

  function Voters(messages: map<NodeId, SignedViewChange>, view: int): set<NodeId> {
    set j | j in messages && messages[j].message.view == view
  }

  ghost predicate IsLowestAbove(messages: map<NodeId, SignedViewChange>, current: int, low: int) {
    && (exists j :: j in Above(messages, current) && messages[j].message.view == low)
    && (forall j :: j in Above(messages, current) ==> low <= messages[j].message.view)
  }

  lemma {:induction false} FindLowest(messages: map<NodeId, SignedViewChange>, from: set<NodeId>) returns (j: NodeId)
    requires from <= messages.Keys && from != {}
    ensures j in from && forall i :: i in from ==> messages[j].message.view <= messages[i].message.view
    decreases |from|
  {
    j :| j in from;
    if from != {j} {
      var i := FindLowest(messages, from - {j});
      j := if messages[i].message.view <= messages[j].message.view then i else j;
    }
  }

  lemma LowestAboveExists(messages: map<NodeId, SignedViewChange>, current: int)
    requires Above(messages, current) != {}
    ensures exists low :: IsLowestAbove(messages, current, low)
  {
    var j := FindLowest(messages, Above(messages, current));
    assert IsLowestAbove(messages, current, messages[j].message.view);
  }

  ghost function LowestAbove(messages: map<NodeId, SignedViewChange>, current: int): (low: int)
    requires Above(messages, current) != {}
    ensures IsLowestAbove(messages, current, low)
  {
    LowestAboveExists(messages, current);
    var low :| IsLowestAbove(messages, current, low);
    low
  }

  // The merge of the prepared proofs in the collected view-change messages

  datatype RequestView = RequestView(request: string, digest: Digest, view: int)
  datatype Merge = Merge(chosen: map<int, RequestView>, minS: int, maxS: int)

  predicate ProofIn(messages: map<NodeId, SignedViewChange>, j: NodeId, k: SlotId) {
    j in messages && k in messages[j].message.proofs
  }

  function RequestViewOf(messages: map<NodeId, SignedViewChange>, j: NodeId, k: SlotId): RequestView
    requires ProofIn(messages, j, k)
  {
    var p := messages[j].message.proofs[k];
    RequestView(p.request, p.digest, k.view)
  }

  ghost predicate Selects(messages: map<NodeId, SignedViewChange>, chosen: map<int, RequestView>) {
    && (forall j, k :: ProofIn(messages, j, k) ==> k.seqNo in chosen && k.view <= chosen[k.seqNo].view)
    && (forall n :: n in chosen ==>
          exists j, k :: ProofIn(messages, j, k) && k.seqNo == n && chosen[n] == RequestViewOf(messages, j, k))
  }

  ghost predicate IsMaxCheckpoint(low: int, messages: map<NodeId, SignedViewChange>, minS: int) {
    && low <= minS
    && (forall j :: j in messages ==> messages[j].message.checkpoint.seqNo <= minS)
    && (minS == low || exists j :: j in messages && messages[j].message.checkpoint.seqNo == minS)
  }

  ghost predicate IsMaxProof(low: int, chosen: map<int, RequestView>, maxS: int) {
    && low <= maxS
    && (forall n :: n in chosen ==> n <= maxS)
    && (maxS == low || maxS in chosen)
  }

  ghost predicate IsMerge(low: int, messages: map<NodeId, SignedViewChange>, merge: Merge) {
    && Selects(messages, merge.chosen)
    && IsMaxCheckpoint(low, messages, merge.minS)
    && IsMaxProof(low, merge.chosen, merge.maxS)
  }

  function Reissued(cfg: Config, id: NodeId, view: int, merge: Merge, n: int): FullPrePrepare {
    if n in merge.chosen then
      FullPrePrepare(
        SignedPrePrepare(PrePrepare(SlotId(view, n), merge.chosen[n].digest), By(id)), merge.chosen[n].request)
    else
      FullPrePrepare(SignedPrePrepare(PrePrepare(SlotId(view, n), cfg.digest("")), By(id)), "")
  }

  function ReissuedNumbers(view: int, merge: Merge): set<SlotId> {
    if merge.minS < merge.maxS then set n | merge.minS <= n <= merge.maxS :: SlotId(view, n) else {}
  }

  function NewViewPrePrepares(cfg: Config, id: NodeId, view: int, merge: Merge): map<SlotId, FullPrePrepare> {
    map k | k in ReissuedNumbers(view, merge) :: Reissued(cfg, id, view, merge, k.seqNo)
  }

  function IssuedSlots(pps: map<SlotId, FullPrePrepare>): map<SlotId, Slot> {
    map k | k in pps :: IssuedSlot(pps[k])
  }

  function NewViewFor(cfg: Config, id: NodeId, s: NodeState, view: int, merge: Merge): SignedNewView {
    SignedNewView(NewView(view, s.change.messages, NewViewPrePrepares(cfg, id, view, merge), id), By(id))
  }

  function BecomeLeader(cfg: Config, id: NodeId, s: NodeState, view: int, merge: Merge): Outcome {
    var pps := NewViewPrePrepares(cfg, id, view, merge);
    var s1 := s.(log := s.log + IssuedSlots(pps),
                 issued := if merge.maxS > s.issued then merge.maxS else s.issued,
                 newView := Some(StoredNewView(view, pps)), caughtUp := AllPeersAt(cfg, id, 0));
    Send(EnterNewView(s1, view), {MNewView(NewViewFor(cfg, id, s, view, merge))})
  }

  function Record(s: NodeState, message: SignedViewChange): NodeState {
    s.(change := s.change.(messages := s.change.messages[message.message.node := message]))
  }

  predicate ValidSender(cfg: Config, id: NodeId, message: SignedViewChange) {
    cfg.Signer(id, message.signature) == Some(message.message.node)
  }

  predicate Joins(cfg: Config, s: NodeState, view: int) {
    view > CurrentView(s) && |Above(s.change.messages, CurrentView(s))| >= cfg.JoinQuorum()
  }

  // The guard of the leader branch, evaluated after the message has been recorded.
  predicate Elected(cfg: Config, id: NodeId, s: NodeState, view: int)
    requires |cfg.nodes| >= 1
  {
    && s.change.inProgress
    && cfg.LeaderFor(view) == id
    && |Voters(s.change.messages, view)| >= cfg.NewViewQuorum()
  }

  // Handling this message makes the node enter a view as its leader.
  predicate LeaderEntry(cfg: Config, id: NodeId, s: NodeState, message: SignedViewChange)
    requires |cfg.nodes| >= 1
  {
    var s1 := Record(s, message);
    ValidSender(cfg, id, message) && !Joins(cfg, s1, message.message.view) && Elected(cfg, id, s1, message.message.view)
  }

  ghost function HandleViewChange(
    cfg: Config, id: NodeId, s: NodeState, message: SignedViewChange, merge: Merge): Outcome
    requires |cfg.nodes| >= 1
  {
    if !ValidSender(cfg, id, message) then Quiet(s)
    else
      var s1 := Record(s, message);
      var view := message.message.view;
      if Joins(cfg, s1, view) then
        assert message.message.node in Above(s1.change.messages, CurrentView(s1));
        StartViewChange(cfg, id, s1, LowestAbove(s1.change.messages, CurrentView(s1)))
      else if Elected(cfg, id, s1, view) then BecomeLeader(cfg, id, s1, view, merge)
      else Quiet(s1)
  }

  // A set O is worked through in some order of its keys.
  ghost predicate Enumerates<T(!new)>(order: seq<T>, keys: set<T>) {
    && (forall i, j :: 0 <= i < j < |order| ==> order[i] != order[j])
    && (forall k :: k in order <==> k in keys)
  }

  function AcceptAll(
    cfg: Config, id: NodeId, s: NodeState, pps: map<SlotId, FullPrePrepare>, order: seq<SlotId>): (o: Outcome)
    requires |cfg.nodes| >= 1
    requires forall k :: k in order ==> k in pps
    ensures o.delivered == None && o.snapshotRequest == None && o.appliedSnapshot == None
  {
    if order == [] then Quiet(s)
    else
      var before := AcceptAll(cfg, id, s, pps, order[..|order| - 1]);
      var full := pps[order[|order| - 1]];
      if full.Number().seqNo > before.state.sequenceNumber then
        var o := HandlePrePrepare(cfg, id, before.state, full);
        Send(o.state, before.sent + o.sent)
      else before
  }

  // The signature and sender of a new-view message are not checked.
  predicate EntersByNewView(s: NodeState, message: SignedNewView) {
    (s.change.inProgress && message.message.view == s.change.view) || message.message.view > CurrentView(s)
  }

  function HandleNewView(
    cfg: Config, id: NodeId, s: NodeState, message: SignedNewView, order: seq<SlotId>): Outcome
    requires |cfg.nodes| >= 1
    requires forall k :: k in order ==> k in message.message.prePrepares
  {
    if EntersByNewView(s, message) then
      AcceptAll(cfg, id, EnterNewView(s, message.message.view), message.message.prePrepares, order)
    else Quiet(s)
  }

  // Heartbeats

  // None stands for the fault the source runs into when the slot to resend is not in the log.
  function HeartbeatMessage(cfg: Config, id: NodeId, s: NodeState, peerSequence: int): Option<Msg> {
    if s.sequenceNumber == peerSequence then
      Some(MPrePrepare(FullPrePrepare(SignedPrePrepare(HEARTBEAT, By(id)), "")))
    else if peerSequence < s.lastCheckpoint.number.seqNo then
      Some(MCheckpointProof(SignedCheckpointProof(CheckpointProofMessage(s.lastCheckpoint, id), By(id))))
    else
      var slot := SlotAt(s.log, SlotId(s.view, peerSequence + 1));
      if slot.preprepare.Some? && slot.request.Some? then
        Some(MPrePrepare(FullPrePrepare(slot.preprepare.value, slot.request.value)))
      else None
  }

  // The new view to resend, with the votes collected by now; before the first one, an empty one for view 0.
  function ResentNewView(id: NodeId, s: NodeState): SignedNewView {
    match s.newView
    case Some(v) => SignedNewView(NewView(v.view, s.change.messages, v.prePrepares, id), By(id))
    case None => SignedNewView(NewView(0, map[], map[], id), By(id))
  }

  function CaughtUpTo(s: NodeState, p: NodeId): int {
    if p in s.caughtUp then s.caughtUp[p] else 0
  }

  function HeartbeatFor(cfg: Config, id: NodeId, s: NodeState, p: NodeId): Option<Msg> {
    if CaughtUpTo(s, p) == 0 then Some(MNewView(ResentNewView(id, s)))
    else HeartbeatMessage(cfg, id, s, CaughtUpTo(s, p))
  }

  function SendHeartbeat(cfg: Config, id: NodeId, s: NodeState): set<Msg> {
    set p | p in cfg.nodes && cfg.IsPeer(id, p) && HeartbeatFor(cfg, id, s, p).Some? ::
      HeartbeatFor(cfg, id, s, p).value
  }

  function HandleHeartbeatTimeout(cfg: Config, id: NodeId, s: NodeState): Outcome
    requires |cfg.nodes| >= 1
  {
    if s.change.inProgress || s.down then Quiet(s)
    else if !IsPrimary(cfg, id, s) then StartViewChange(cfg, id, s, s.view + 1)
    else Send(s, SendHeartbeat(cfg, id, s))
  }

  // A peer answers a heartbeat: with 1 if that was a new view, else with the sequence number it is at.
  function HandleReply(cfg: Config, id: NodeId, s: NodeState, peer: NodeId, reached: int): NodeState {
    if cfg.IsPeer(id, peer) then s.(caughtUp := s.caughtUp[peer := reached]) else s
  }

  // The main loop

  datatype Input =
    | Receive(msg: Msg)
    | Propose(request: string)
    | SnapshotReply(number: SlotId, state: Snapshot)
    | RequestTimeout
    | HeartbeatTimeout
    | HeartbeatReply(peer: NodeId, reached: int)
    | SetDown(down: bool)

  // Resolves the two places where the source's map order matters.
  datatype Choice = Choice(merge: Merge, order: seq<SlotId>)

  ghost predicate ChoiceOk(cfg: Config, id: NodeId, s: NodeState, input: Input, choice: Choice) {
    && (input.Receive? && input.msg.MViewChange? ==>
          IsMerge(s.lastCheckpoint.number.seqNo, Record(s, input.msg.viewChange).change.messages, choice.merge))
    && (input.Receive? && input.msg.MNewView? ==>
          Enumerates(choice.order, input.msg.newView.message.prePrepares.Keys))
  }

  ghost function HandleMessage(cfg: Config, id: NodeId, s: NodeState, msg: Msg, choice: Choice): Outcome
    requires |cfg.nodes| >= 1
    requires ChoiceOk(cfg, id, s, Receive(msg), choice)
  {
    match msg
    case MClientRequest(r) => HandleClientRequest(cfg, id, s, r)
    case MPrePrepare(full) => HandlePrePrepare(cfg, id, s, full)
    case MPrepare(p) => HandlePrepare(cfg, id, s, p)
    case MCommit(c) => HandleCommit(cfg, id, s, c)
    case MCheckpoint(c) => HandleCheckpoint(cfg, id, s, c)
    case MCheckpointProof(p) => HandleCheckpointProof(cfg, id, s, p)
    case MViewChange(m) => HandleViewChange(cfg, id, s, m, choice.merge)
    case MNewView(m) => HandleNewView(cfg, id, s, m, choice.order)
  }

  ghost function Step(cfg: Config, id: NodeId, s: NodeState, input: Input, choice: Choice): Outcome
    requires |cfg.nodes| >= 1
    requires ChoiceOk(cfg, id, s, input, choice)
  {
    match input
    case Receive(msg) => HandleMessage(cfg, id, s, msg, choice)
    case Propose(r) => HandleClientRequest(cfg, id, s, r)
    case SnapshotReply(number, state) => HandleRecvSnapshot(cfg, id, s, number, state)
    case RequestTimeout => StartViewChange(cfg, id, s, s.view + 1)
    case HeartbeatTimeout => HandleHeartbeatTimeout(cfg, id, s)
    case HeartbeatReply(peer, reached) => Quiet(HandleReply(cfg, id, s, peer, reached))
    case SetDown(down) => Quiet(s.(down := down))
  }
}
