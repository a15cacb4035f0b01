/**
 The tables that decide what the peer may be told: sequence state, inbound work,
 delivery plans with their drafts, and the carrier outbox
 (packages/bridge-simulator/src/journal.ts).  Each function is one durable
 transaction or a part of one: `Throw` rolls the whole transaction back.
 */
module WireTables {
  import opened Wrappers
  import opened Sequences

  datatype WorkState = Journaled | ReplyReady | DeliveryReady | NoReply

  datatype Work = Work(
    digest: string, kind: string, correlation: string, context: string,
    state: WorkState, reply: Option<string>, deliveryId: Option<string>)

  datatype PlanState = Pending | Queued

  datatype Plan = Plan(
    rsid: string, inboundSeq: Option<nat>, state: PlanState, terminalOrdinal: nat, terminalSeq: Option<nat>)

  datatype Slot = Slot(rsid: string, num: nat)

  datatype DraftKey = DraftKey(deliveryId: string, ordinal: nat)

  datatype Phase = UnregisterPending | UnregisterConfirmed

  datatype Unregister = Unregister(reason: string, phase: Phase)

  /** A carrier in the outbox names the delivery `rsid/invocationId` it belongs to. */
  datatype Carrier = Carrier(deliveryId: string, json: string)

  datatype Wire = Wire(
    seqs: map<string, SeqState>,
    work: map<Slot, Work>,
    plans: map<string, Plan>,
    drafts: map<DraftKey, string>,
    outbox: map<Slot, Carrier>,
    unregisters: map<string, Unregister>)

  function Load(w: Wire, rsid: string): (s: SeqState) {
    if rsid in w.seqs then w.seqs[rsid] else INITIAL
  }

  // ----- Acknowledgement -----

  predicate Blocks(w: Wire, rsid: string, num: nat) {
    Slot(rsid, num) in w.work && (w.work[Slot(rsid, num)].state.Journaled? || w.work[Slot(rsid, num)].state.ReplyReady?)
  }

  /** The first blocked sequence number from `n` on, or `last + 1`. */
  function FirstBlocked(w: Wire, rsid: string, n: nat, last: nat): (m: nat)
    requires n <= last + 1
    ensures n <= m <= last + 1
    ensures forall i :: n <= i < m ==> !Blocks(w, rsid, i)
    ensures m <= last ==> Blocks(w, rsid, m)
    decreases last + 1 - n
  {
    if n == last + 1 || Blocks(w, rsid, n) then n else FirstBlocked(w, rsid, n + 1, last)
  }

  /** `acknowledgeableRxSeq`: everything received before the first unfinished work. */
  function Acknowledgeable(w: Wire, rsid: string): (ack: nat)
    ensures ack <= Load(w, rsid).lastRx
    ensures forall i :: 1 <= i <= ack ==> !Blocks(w, rsid, i)
    ensures ack < Load(w, rsid).lastRx ==> Blocks(w, rsid, ack + 1)
  {
    FirstBlocked(w, rsid, 1, Load(w, rsid).lastRx) - 1
  }

  // ----- Sequence storage and clean-up -----

  /** Plans whose terminal frame is acknowledged and that keep no carrier. */
  predicate IsRetired(w: Wire, rsid: string, ack: nat, d: string) {
    && d in w.plans
    && w.plans[d].rsid == rsid && w.plans[d].state.Queued?
    && w.plans[d].terminalSeq.Some? && w.plans[d].terminalSeq.value <= ack
    && Slot(rsid, w.plans[d].terminalSeq.value) !in w.outbox
  }

  /** Removes the plans named by `gone` with their drafts and the inbound work bound to them. */
  function RemovePlans(w: Wire, rsid: string, gone: set<string>): (next: Wire) {
    w.(work := map k | k in w.work
               && !(k.rsid == rsid && w.work[k].deliveryId.Some? && w.work[k].deliveryId.value in gone) :: w.work[k],
       plans := w.plans - gone,
       drafts := map k | k in w.drafts && k.deliveryId !in gone :: w.drafts[k])
  }

  function RetiredPlans(w: Wire, rsid: string, ack: nat): (gone: set<string>) {
    set d | d in w.plans && IsRetired(w, rsid, ack, d)
  }

  function StoreSeq(w: Wire, rsid: string, s: SeqState): (next: Wire) {
    RemovePlans(w.(seqs := w.seqs[rsid := s]), rsid, RetiredPlans(w, rsid, s.lastPeerAck))
  }

  // ----- Inbound work -----

  predicate Superseded(w: Wire, k: Slot, later: Slot) {
    && k in w.work && later in w.work
    && k.rsid == later.rsid && k.num < later.num
    && w.work[k].kind == w.work[later].kind && w.work[k].correlation == w.work[later].correlation
    && (w.work[k].state.Journaled? || w.work[k].state.ReplyReady?)
  }

  function Silence(x: Work): (y: Work) {
    x.(state := NoReply, reply := None, deliveryId := None)
  }

  function Supersede(w: Wire, later: Slot): (next: Wire) {
    w.(work := map k | k in w.work :: if Superseded(w, k, later) then Silence(w.work[k]) else w.work[k])
  }

  function StoreReply(w: Wire, k: Slot, reply: string, supersede: bool): (next: Result<Wire>) {
    if k !in w.work then Throw
    else
      var x := w.work[k];
      match x.state
      case NoReply => Success(w)
      case ReplyReady => if x.reply == Some(reply) then Success(w) else Throw
      case DeliveryReady => Throw
      case Journaled =>
        var base := if supersede then Supersede(w, k) else w;
        Success(base.(work := base.work[k := x.(state := ReplyReady, reply := Some(reply))]))
  }

  function CompleteNoReply(w: Wire, k: Slot): (next: Result<Wire>) {
    if k !in w.work then Throw
    else if w.work[k].state.NoReply? then Success(w)
    else if !w.work[k].state.Journaled? then Throw
    else Success(w.(work := w.work[k := w.work[k].(state := NoReply)]))
  }

  predicate Cancels(w: Wire, rsid: string, invocationId: string, k: Slot) {
    k in w.work && k.rsid == rsid && w.work[k].kind == "invoke" && w.work[k].correlation == invocationId
    && w.work[k].state.Journaled?
  }

  /** A cancellation before dispatch leaves nothing to answer on the invoke rows. */
  function CancelJournaled(w: Wire, rsid: string, invocationId: string): (next: Wire) {
    w.(work := map k | k in w.work ::
      if Cancels(w, rsid, invocationId, k) then w.work[k].(state := NoReply) else w.work[k])
  }

  datatype Arrival = NotTaken | New | Again

  predicate SameWork(x: Work, e: Envelope, correlation: string, context: string) {
    x.digest == e.digest && x.kind == e.kind && x.correlation == correlation && x.context == context
  }

  /** The wire half of `#acceptInboundWork`: a gap or a protocol fault takes nothing. */
  function Arrive(w: Wire, e: Envelope, correlation: string, context: string, state: WorkState,
                  reply: Option<string>, supersede: bool): (next: Result<(Wire, Arrival)>)
  {
    if correlation == "" || reply.Some? != state.ReplyReady? || state.DeliveryReady? then Throw
    else
      var k := Slot(e.rsid, e.num);
      match AcceptInbound(Load(w, e.rsid), e)
      case InGap => Success((w, NotTaken))
      case InFault(_) => Success((w, NotTaken))
      case InAccepted(s) =>
        var stored := StoreSeq(w, e.rsid, s);
        if k in stored.work then Throw
        else
          var added := stored.(work := stored.work[k := Work(e.digest, e.kind, correlation, context, state, reply, None)]);
          Success((if state.ReplyReady? && supersede then Supersede(added, k) else added, New))
      case InDuplicate(s) =>
        var stored := StoreSeq(w, e.rsid, s);
        if k !in stored.work then Success((stored, Again))
        else if !SameWork(stored.work[k], e, correlation, context) then Throw
        else if reply.None? then Success((stored, Again))
        else if stored.work[k].state.Journaled? then
          var replied :- StoreReply(stored, k, reply.value, supersede);
          Success((replied, Again))
        else if stored.work[k].reply != reply then Throw
        else Success((stored, Again))
  }

  // ----- Delivery plans -----

  function BindDelivery(w: Wire, k: Slot, d: string): (next: Result<Wire>) {
    if k !in w.work then Throw
    else if w.work[k].state.DeliveryReady? then (if w.work[k].deliveryId == Some(d) then Success(w) else Throw)
    else if !w.work[k].state.ReplyReady? || w.work[k].reply.None? then Throw
    else Success(w.(work := w.work[k := w.work[k].(state := DeliveryReady, deliveryId := Some(d))]))
  }

  function BindOptional(w: Wire, rsid: string, inboundSeq: Option<nat>, d: string): (next: Result<Wire>) {
    if inboundSeq.Some? then BindDelivery(w, Slot(rsid, inboundSeq.value), d) else Success(w)
  }

  /** The first `n` drafts of a delivery as table rows. */
  function InsertDrafts(drafts: map<DraftKey, string>, d: string, texts: seq<string>, n: nat)
    : (next: map<DraftKey, string>)
    requires n <= |texts|
  {
    if n == 0 then drafts else InsertDrafts(drafts, d, texts, n - 1)[DraftKey(d, n - 1) := texts[n - 1]]
  }

  function StageDelivery(w: Wire, rsid: string, d: string, texts: seq<string>, inboundSeq: Option<nat>)
    : (next: Result<Wire>)
  {
    if texts == [] || inboundSeq == Some(0) then Throw
    else if d in w.plans then
      if w.plans[d].rsid != rsid || w.plans[d].terminalOrdinal != |texts| - 1 || w.plans[d].inboundSeq != inboundSeq
      then Throw
      else BindOptional(w, rsid, inboundSeq, d)
    else if inboundSeq.Some? && exists p :: p in w.plans && w.plans[p].rsid == rsid && w.plans[p].inboundSeq == inboundSeq
    then Throw
    else
      BindOptional(w.(plans := w.plans[d := Plan(rsid, inboundSeq, Pending, |texts| - 1, None)],
                      drafts := InsertDrafts(w.drafts, d, texts, |texts|)),
                   rsid, inboundSeq, d)
  }

  predicate IsNextDraft(w: Wire, rsid: string, k: DraftKey, text: string) {
    && k.deliveryId in w.plans && w.plans[k.deliveryId].rsid == rsid && w.plans[k.deliveryId].state.Pending?
    && k in w.drafts && w.drafts[k] == text
    && forall o :: 0 <= o < k.ordinal ==> DraftKey(k.deliveryId, o) !in w.drafts
  }

  /** Gives one draft its sequence number and consumes it in the same transaction. */
  function ConsumeDraft(w: Wire, rsid: string, s: SeqState, num: nat, k: DraftKey, text: string,
                        carrier: Option<Carrier>): (next: Result<Wire>)
  {
    if !IsNextDraft(w, rsid, k, text) then Throw
    else
      var p := w.plans[k.deliveryId];
      var isTerminal := k.ordinal == p.terminalOrdinal;
      if !isTerminal && carrier.Some? then Throw
      else
        var stored := StoreSeq(w, rsid, s);
        var sent := stored.(drafts := stored.drafts - {k});
        if !isTerminal then Success(sent)
        else if carrier.Some? && Slot(rsid, num) in sent.outbox then Throw
        else Success(sent.(
          outbox := if carrier.Some? then sent.outbox[Slot(rsid, num) := carrier.value] else sent.outbox,
          plans := sent.plans[k.deliveryId := p.(state := Queued, terminalSeq := Some(num))]))
  }

  /** `queueOutbound`: one data frame at a time, from a staged draft or from the volatile queue. */
  function QueueOutbound(w: Wire, rsid: string, text: string, draft: Option<DraftKey>, carrier: Option<Carrier>)
    : (next: Result<(Wire, nat)>)
  {
    var s := Load(w, rsid);
    if s.outbox != [] then Throw
    else
      var q := QueueData(s, text);
      if q.None? then Throw
      else
        var (st, num) := q.value;
        if draft.Some? then
          var next :- ConsumeDraft(w, rsid, st, num, draft.value, text, carrier);
          Success((next, num))
        else if carrier.Some? then Throw
        else Success((StoreSeq(w, rsid, st), num))
  }

  function AcknowledgeOutbound(w: Wire, rsid: string, ack: nat): (next: Result<Wire>) {
    var s := ApplyAck(Load(w, rsid), ack);
    if s.None? then Throw else Success(StoreSeq(w, rsid, s.value))
  }

  function PlansAt(w: Wire, rsid: string, num: nat): (ids: set<string>) {
    set d | d in w.plans && w.plans[d].rsid == rsid && w.plans[d].terminalSeq == Some(num)
  }

  /** Clean-up of one carrier; the driver offers only carriers the peer has acknowledged. */
  function MarkCleaned(w: Wire, rsid: string, num: nat): (next: Result<Wire>) {
    var k := Slot(rsid, num);
    var ids := PlansAt(w, rsid, num);
    if ids == {} && k !in w.outbox then Throw
    else
      var named := if ids != {} then ids else {w.outbox[k].deliveryId};
      Success(RemovePlans(w.(outbox := w.outbox - {k}), rsid, named).(
        plans := w.plans - ids,
        drafts := map x | x in w.drafts && x.deliveryId !in ids :: w.drafts[x]))
  }

  // ----- Unregistration -----

  function IntendUnregister(w: Wire, rsid: string, reason: string): (next: Result<Wire>) {
    if rsid == "" then Throw
    else if rsid in w.unregisters then (if w.unregisters[rsid].reason == reason then Success(w) else Throw)
    else Success(w.(unregisters := w.unregisters[rsid := Unregister(reason, UnregisterPending)]))
  }

  function PlansOf(w: Wire, rsid: string): (ids: set<string>) {
    set d | d in w.plans && w.plans[d].rsid == rsid
  }

  function ConfirmUnregister(w: Wire, rsid: string): (next: Wire) {
    if rsid !in w.unregisters || w.unregisters[rsid].phase.UnregisterConfirmed? then w
    else
      Wire(w.seqs - {rsid},
           map k | k in w.work && k.rsid != rsid :: w.work[k],
           w.plans - PlansOf(w, rsid),
           map k | k in w.drafts && k.deliveryId !in PlansOf(w, rsid) :: w.drafts[k],
           map k | k in w.outbox && k.rsid != rsid :: w.outbox[k],
           w.unregisters[rsid := w.unregisters[rsid].(phase := UnregisterConfirmed)])
  }

  function CompleteUnregister(w: Wire, rsid: string): (next: Wire) {
    if rsid in w.unregisters && w.unregisters[rsid].phase.UnregisterConfirmed?
    then w.(unregisters := w.unregisters - {rsid}) else w
  }
}
