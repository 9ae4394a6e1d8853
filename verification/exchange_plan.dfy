/**
 The record exchange of two devices, reduced to which PairIDs are filed where.  Every record the two
 devices ever file for each other is determined by its PairID and the one issue made under it.
 */
module ExchangePlans {
  import opened Octets

  /** What the responder fixes when it issues a record under a PairID. */
  datatype Issue = Issue(binding: Bytes32, marker: Text, at: u64)

  datatype Grant = Grant(marker: Text, at: u64)

  datatype Side = Side(pending: set<Bytes>, active: set<Bytes>, revoked: set<Bytes>) {
    function All(): set<Bytes> { pending + active + revoked }
  }

  /** A record message on its way to the initiator: responder-signed, fully signed, or the acknowledgement. */
  datatype Note = Offer(id: Bytes) | Whole(id: Bytes) | Done

  datatype InitiatorRun =
    | Resting
    | Started(now: u64, reconnect: bool, id: Bytes, staticKey: Bytes32)
    | Asking(now: u64, reconnect: bool, id: Bytes, binding: Bytes32, inbox: seq<Note>)
    | Waiting(now: u64, id: Bytes, binding: Bytes32, whole: Bytes, inbox: seq<Note>)

  datatype ResponderRun =
    | Listening
    | Serving(now: u64, reconnect: bool, id: Bytes, binding: Bytes32, active: Option<Bytes>, pending: Option<Bytes>)
    | Expecting(now: u64, id: Bytes, binding: Bytes32, inbox: seq<Note>)

  /** The two stores, the two runs, and what has been used so far. */
  datatype Plan = Plan(
    i: Side,
    r: Side,
    irun: InitiatorRun,
    rrun: ResponderRun,
    issued: map<Bytes, Issue>,
    usedIds: set<Bytes>,
    usedBindings: set<Bytes32>,
    grants: seq<Grant>)

  const EMPTY_SIDE := Side({}, {}, {})
  const EMPTY_PLAN := Plan(EMPTY_SIDE, EMPTY_SIDE, Resting, Listening, map[], {}, {}, [])

  /**
   One step.  Searches may come back with any matching file, so their results are part of the step;
   so are the fresh values a step draws and the broker's answer.
   */
  datatype Action =
    | Start(now: u64, active: Option<Bytes>, pending: Option<Bytes>, recovery: Bytes, freshId: Bytes, staticKey: Bytes32)
    | Meet(now: u64, active: Option<Bytes>, pending: Option<Bytes>, recovery: Bytes,
           staticKey: Bytes32, hash: Bytes32, binding: Bytes32)
    | Serve(answer: Option<Text>)
    | Receive(local: Option<Bytes>)
    | Settle
    | Finish
    | DropInitiator
    | DropResponder
    | RevokeAtInitiator(now: u64, id: Bytes)
    | RevokeAtResponder(now: u64, id: Bytes)
    | CutSettle(left: set<Bytes>)
    | CutFinish(left: set<Bytes>)

  // ---- Searches ----

  /** A search finds a file exactly if there is one. */
  predicate MayFind(files: set<Bytes>, found: Option<Bytes>) {
    if found.Some? then found.value in files else files == {}
  }

  predicate Permits(a: Plan, x: Action) {
    match x
    case Start(_, active, pending, recovery, freshId, _) =>
      && MayFind(a.i.active, active) && MayFind(a.i.pending, pending)
      && (active.None? && pending.Some? ==> recovery in a.i.pending)
      && freshId !in a.usedIds
    case Meet(_, active, pending, recovery, _, _, binding) =>
      && MayFind(a.r.active, active) && MayFind(a.r.pending, pending)
      && (active.None? && pending.Some? && a.irun.Started? && a.irun.reconnect ==> recovery in a.r.pending)
      && binding !in a.usedBindings
    case Receive(local) => MayFind(a.i.pending, local)
    case CutSettle(left) => left <= a.r.pending
    case CutFinish(left) => left <= a.i.pending
    case _ => true
  }

  // ---- Steps ----

  /** Messages reach the initiator only while it is still in the same session. */
  function ToInitiator(run: InitiatorRun, binding: Bytes32, notes: seq<Note>): InitiatorRun {
    if (run.Asking? || run.Waiting?) && run.binding == binding then run.(inbox := run.inbox + notes) else run
  }

  function ToResponder(run: ResponderRun, binding: Bytes32, note: Note): ResponderRun {
    if run.Expecting? && run.binding == binding then run.(inbox := run.inbox + [note]) else run
  }

  function StartStep(a: Plan, now: u64, active: Option<Bytes>, pending: Option<Bytes>, recovery: Bytes,
                     freshId: Bytes, staticKey: Bytes32): Result<Plan>
  {
    if !a.irun.Resting? then Err
    else if active.Some? || pending.Some? then
      var id := if active.Some? then active.value else recovery;
      Ok(a.(irun := Started(now, true, id, staticKey)))
    else Ok(a.(irun := Started(now, false, freshId, staticKey), usedIds := a.usedIds + {freshId}))
  }

  function MeetStep(a: Plan, now: u64, active: Option<Bytes>, pending: Option<Bytes>, recovery: Bytes,
                    binding: Bytes32): Result<Plan>
  {
    if !a.rrun.Listening? || !a.irun.Started? then Err
    else
      var run := a.irun;
      var reconnect := active.Some? || (pending.Some? && run.reconnect);
      var id := if active.Some? then active.value else recovery;
      if reconnect != run.reconnect || (reconnect && id != run.id) then Err
      else Ok(a.(irun := Asking(run.now, run.reconnect, run.id, binding, []),
                 rrun := Serving(now, run.reconnect, run.id, binding, active, pending),
                 usedBindings := a.usedBindings + {binding}))
  }

  function Offers(a: Plan, id: Bytes): Plan
    requires a.rrun.Serving?
  {
    a.(rrun := Expecting(a.rrun.now, a.rrun.id, a.rrun.binding, []),
       irun := ToInitiator(a.irun, a.rrun.binding, [Offer(id)]))
  }

  function Issues(a: Plan, issue: Issue): Plan
    requires a.rrun.Serving?
  {
    a.(r := a.r.(pending := a.r.pending + {a.rrun.id}), issued := a.issued[a.rrun.id := issue])
  }

  function ServeStep(a: Plan, answer: Option<Text>): Result<Plan> {
    if !a.rrun.Serving? then Err
    else
      var run := a.rrun;
      if run.active.Some? then
        if run.active.value !in a.r.active then Err
        else Ok(a.(rrun := Listening, irun := ToInitiator(a.irun, run.binding, [Whole(run.active.value), Done])))
      else if run.pending.Some? && run.reconnect then Ok(Offers(a, run.pending.value))
      else if run.id in a.r.pending then Err
      else if run.pending.Some? then
        if run.pending.value !in a.issued then Err
        else
          var older := a.issued[run.pending.value];
          Ok(Offers(Issues(a, Issue(run.binding, older.marker, older.at)), run.id))
      else if answer.None? then Err
      else
        var granted := a.(grants := a.grants + [Grant(answer.value, run.now)]);
        Ok(Offers(Issues(granted, Issue(run.binding, answer.value, run.now)), run.id))
  }

  function ReceiveStep(a: Plan, local: Option<Bytes>): Result<Plan> {
    if !a.irun.Asking? || a.irun.inbox == [] then Err
    else
      var run, rest := a.irun, a.irun.inbox[1..];
      match run.inbox[0]
      case Whole(id) =>
        if run.reconnect then Ok(a.(irun := Waiting(run.now, run.id, run.binding, id, rest))) else Err
      case Offer(id) =>
        if local.Some? && local.value != id then Err
        else if local.None? && (id !in a.issued || a.issued[id].binding != run.binding || id in a.i.pending) then Err
        else Ok(a.(i := if local.Some? then a.i else a.i.(pending := a.i.pending + {id}),
                   irun := Waiting(run.now, run.id, run.binding, id, rest),
                   rrun := ToResponder(a.rrun, run.binding, Whole(id))))
      case Done => Err
  }

  predicate CanSettle(a: Plan) {
    && a.rrun.Expecting? && a.rrun.inbox != [] && a.rrun.inbox[0].Whole?
    && a.rrun.inbox[0].id !in a.r.revoked
  }

  function SettleStep(a: Plan): Result<Plan> {
    if !CanSettle(a) then Err
    else Ok(a.(r := a.r.(active := a.r.active + {a.rrun.inbox[0].id}, pending := {}),
               rrun := Listening,
               irun := ToInitiator(a.irun, a.rrun.binding, [Done])))
  }

  /** The sweep is cut short after the record became active: some pending files are left, nothing is sent. */
  function CutSettleStep(a: Plan, left: set<Bytes>): Result<Plan> {
    if !CanSettle(a) then Err
    else Ok(a.(r := a.r.(active := a.r.active + {a.rrun.inbox[0].id}, pending := left), rrun := Listening))
  }

  predicate CanFinish(a: Plan) {
    && a.irun.Waiting? && a.irun.inbox != [] && a.irun.inbox[0].Done?
    && a.irun.whole !in a.i.revoked
  }

  function FinishStep(a: Plan, left: set<Bytes>): Result<Plan> {
    if !CanFinish(a) then Err
    else Ok(a.(i := a.i.(active := a.i.active + {a.irun.whole}, pending := left), irun := Resting))
  }

  function RevokeStep(s: Side, id: Bytes): Result<Side> {
    if id !in s.active || id in s.revoked then Err
    else Ok(s.(active := s.active - {id}, revoked := s.revoked + {id}))
  }

  function Next(a: Plan, x: Action): Result<Plan> {
    match x
    case Start(now, active, pending, recovery, freshId, staticKey) =>
      StartStep(a, now, active, pending, recovery, freshId, staticKey)
    case Meet(now, active, pending, recovery, _, _, binding) => MeetStep(a, now, active, pending, recovery, binding)
    case Serve(answer) => ServeStep(a, answer)
    case Receive(local) => ReceiveStep(a, local)
    case Settle => SettleStep(a)
    case Finish => FinishStep(a, {})
    case DropInitiator => Ok(a.(irun := Resting))
    case DropResponder => Ok(a.(rrun := Listening))
    case RevokeAtInitiator(_, id) =>
      var side :- RevokeStep(a.i, id);
      Ok(a.(i := side))
    case RevokeAtResponder(_, id) =>
      var side :- RevokeStep(a.r, id);
      Ok(a.(r := side))
    case CutSettle(left) => CutSettleStep(a, left)
    case CutFinish(left) => FinishStep(a, left)
  }

  // ---- What every step keeps ----

  /** At most this one PairID is pending or active at the initiator, or active at the responder. */
  predicate Within(a: Plan, id: Bytes) {
    a.i.pending <= {id} && a.i.active <= {id} && a.r.active <= {id}
  }

  predicate Granted(a: Plan, issue: Issue) {
    Grant(issue.marker, issue.at) in a.grants
  }

  /** The stores: agreement, uniqueness, and where every issue came from. */
  ghost predicate StoresAgree(a: Plan) {
    && a.i.All() <= a.issued.Keys && a.r.All() <= a.issued.Keys && a.issued.Keys <= a.usedIds
    && a.i.active + a.i.revoked <= a.r.active + a.r.revoked
    && a.i.pending <= a.r.All()
    && a.r.active + a.r.revoked <= a.i.All()
    && a.i.active !! a.i.revoked && a.r.active !! a.r.revoked
    && exists id :: Within(a, id)
  }

  predicate IssuesGranted(a: Plan) {
    && (forall p :: p in a.issued ==> Granted(a, a.issued[p]))
    && (forall p :: p in a.issued ==> a.issued[p].binding in a.usedBindings)
  }

  /** Broker grants that reached a pending record never outnumber revocations by more than the pair in progress. */
  predicate SingleApproval(a: Plan) {
    |a.grants| <= |a.r.revoked| + (if a.r.pending + a.r.active != {} then 1 else 0)
  }

  predicate InitiatorRunOk(a: Plan) {
    match a.irun
    case Resting => true
    case Started(_, reconnect, id, _) =>
      && id in a.usedIds
      && (!reconnect ==> id !in a.issued && a.i.pending + a.i.active == {})
    case Asking(_, reconnect, id, binding, inbox) =>
      && binding in a.usedBindings
      && (!reconnect ==> a.i.pending + a.i.active == {})
      && (reconnect ==> forall p :: p in a.issued ==> a.issued[p].binding != binding)
      && AskingInboxOk(a, inbox)
      && (inbox != [] && inbox[0].Whole? ==> inbox[0].id == id)
    case Waiting(_, _, binding, whole, inbox) =>
      && binding in a.usedBindings
      && (inbox == [] || inbox == [Done])
      && (inbox == [] ==> whole in a.i.pending)
      && (inbox == [Done] ==> a.rrun.Listening? && whole in a.r.active + a.r.revoked && a.r.active <= {whole})
  }

  predicate AskingInboxOk(a: Plan, inbox: seq<Note>) {
    || inbox == []
    || (inbox[0].Offer? && inbox == [inbox[0]] && inbox[0].id in a.r.pending && a.r.active == {})
    || (inbox[0].Whole? && inbox == [inbox[0], Done] && a.rrun.Listening?
        && inbox[0].id in a.r.active + a.r.revoked && a.r.active <= {inbox[0].id})
  }

  predicate ResponderRunOk(a: Plan) {
    match a.rrun
    case Listening => true
    case Serving(_, reconnect, id, binding, active, pending) =>
      && id in a.usedIds && binding in a.usedBindings
      && (active.Some? ==> active.value == id && id in a.r.active + a.r.revoked && a.r.active <= {id})
      && (active.None? ==> a.r.active == {} && MayFind(a.r.pending, pending))
      && (!reconnect ==> id !in a.issued && (a.irun.Started? ==> a.irun.id != id))
      && (active.None? && pending.None? ==> !reconnect)
    case Expecting(_, _, binding, inbox) =>
      && a.r.active == {} && binding in a.usedBindings
      && (inbox == [] || (inbox[0].Whole? && inbox == [inbox[0]] && inbox[0].id in a.i.pending))
  }

  /** The two runs, when both are in a session, are in the same one. */
  predicate RunsPaired(a: Plan) {
    (a.irun.Asking? || a.irun.Waiting?) && !a.rrun.Listening? ==>
      && a.irun.binding == a.rrun.binding
      && (a.rrun.Serving? ==> a.irun.Asking? && a.irun.inbox == [] && a.irun.reconnect == a.rrun.reconnect
                              && a.irun.id == a.rrun.id)
      && (a.rrun.Expecting? ==>
            if a.irun.Asking? then a.rrun.inbox == [] && a.irun.inbox != [] && a.irun.inbox[0].Offer?
            else a.irun.inbox == [] && a.rrun.inbox == [Whole(a.irun.whole)])
  }

  ghost predicate Inv(a: Plan) {
    && StoresAgree(a) && IssuesGranted(a) && SingleApproval(a)
    && InitiatorRunOk(a) && ResponderRunOk(a) && RunsPaired(a)
  }

  lemma EmptyPlanInv()
    ensures Inv(EMPTY_PLAN)
  {
    assert Within(EMPTY_PLAN, []);
  }

  lemma StartKeeps(a: Plan, x: Action, b: Plan)
    requires Inv(a) && x.Start? && Permits(a, x) && Next(a, x) == Ok(b)
    ensures Inv(b)
  {
    var id :| Within(a, id);
    assert Within(b, id);
  }

  lemma MeetKeeps(a: Plan, x: Action, b: Plan)
    requires Inv(a) && x.Meet? && Permits(a, x) && Next(a, x) == Ok(b)
    ensures Inv(b)
  {
    var id :| Within(a, id);
    assert Within(b, id);
  }

  /** The responder's pair is active: it sends the record and the acknowledgement at once. */
  lemma SendingActiveKeeps(a: Plan, b: Plan)
    requires Inv(a) && a.rrun.Serving? && a.rrun.active.Some?
    requires b == a.(rrun := Listening, irun := ToInitiator(a.irun, a.rrun.binding, [Whole(a.rrun.active.value), Done]))
    ensures Inv(b)
  {
    var id :| Within(a, id);
    assert Within(b, id);
    assert [] + [Whole(a.rrun.active.value), Done] == [Whole(a.rrun.active.value), Done];
  }

  /** Offering a record that is already filed as pending. */
  lemma OfferingKeeps(a: Plan, offered: Bytes)
    requires Inv(a) && a.rrun.Serving? && a.rrun.active.None?
    requires offered in a.r.pending
    ensures Inv(Offers(a, offered))
  {
    var b := Offers(a, offered);
    var id :| Within(a, id);
    assert Within(b, id);
    assert [] + [Offer(offered)] == [Offer(offered)];
  }

  /** The stores and grants after issuing a record. */
  lemma IssuingKeepsStores(a: Plan, issue: Issue, grants: seq<Grant>)
    requires Inv(a) && a.rrun.Serving? && a.rrun.active.None? && !a.rrun.reconnect
    ensures StoresAgree(Offers(Issues(a, issue), a.rrun.id).(grants := grants))
  {
    var b := Offers(Issues(a, issue), a.rrun.id).(grants := grants);
    var id :| Within(a, id);
    assert Within(b, id);
  }

  lemma IssuingKeepsGrants(a: Plan, issue: Issue, grants: seq<Grant>)
    requires IssuesGranted(a) && a.rrun.Serving? && a.rrun.binding in a.usedBindings && issue.binding == a.rrun.binding
    requires Grant(issue.marker, issue.at) in grants
    requires if a.rrun.pending.Some? then grants == a.grants else |grants| == |a.grants| + 1 && a.grants <= grants
    ensures var b := Offers(Issues(a, issue), a.rrun.id).(grants := grants);
            IssuesGranted(b)
  {
  }

  lemma IssuingKeepsApproval(a: Plan, issue: Issue, grants: seq<Grant>)
    requires Inv(a) && a.rrun.Serving? && a.rrun.active.None?
    requires if a.rrun.pending.Some? then grants == a.grants else |grants| == |a.grants| + 1
    ensures SingleApproval(Offers(Issues(a, issue), a.rrun.id).(grants := grants))
  {
    var b := Offers(Issues(a, issue), a.rrun.id).(grants := grants);
    assert a.rrun.id in b.r.pending + b.r.active;
    assert a.rrun.pending.Some? ==> a.rrun.pending.value in a.r.pending + a.r.active;
    assert a.rrun.pending.None? ==> a.r.pending + a.r.active == {};
  }

  lemma IssuingKeepsRuns(a: Plan, issue: Issue, grants: seq<Grant>)
    requires Inv(a) && a.rrun.Serving? && a.rrun.active.None? && !a.rrun.reconnect
    requires issue.binding == a.rrun.binding
    ensures var b := Offers(Issues(a, issue), a.rrun.id).(grants := grants);
            InitiatorRunOk(b) && ResponderRunOk(b) && RunsPaired(b)
  {
    assert [] + [Offer(a.rrun.id)] == [Offer(a.rrun.id)];
  }

  lemma ServeKeeps(a: Plan, x: Action, b: Plan)
    requires Inv(a) && x.Serve? && Next(a, x) == Ok(b)
    ensures Inv(b)
  {
    var run := a.rrun;
    if run.active.Some? {
      SendingActiveKeeps(a, b);
    } else if run.pending.Some? && run.reconnect {
      OfferingKeeps(a, run.pending.value);
    } else {
      var issue := b.issued[run.id];
      IssuingKeepsStores(a, issue, b.grants);
      IssuingKeepsGrants(a, issue, b.grants);
      IssuingKeepsApproval(a, issue, b.grants);
      IssuingKeepsRuns(a, issue, b.grants);
    }
  }

  lemma ReceiveKeepsStores(a: Plan, x: Action, b: Plan)
    requires Inv(a) && x.Receive? && Permits(a, x) && Next(a, x) == Ok(b)
    ensures StoresAgree(b) && IssuesGranted(b) && SingleApproval(b)
  {
    var id :| Within(a, id);
    assert Within(b, if b.i == a.i then id else a.irun.inbox[0].id);
  }

  lemma ReceivingWholeKeepsRuns(a: Plan, x: Action, b: Plan)
    requires Inv(a) && x.Receive? && Permits(a, x) && Next(a, x) == Ok(b) && a.irun.inbox[0].Whole?
    ensures InitiatorRunOk(b) && ResponderRunOk(b) && RunsPaired(b)
  {
    assert a.irun.inbox[1..] == [Done];
  }

  lemma ReceivingOfferKeepsRuns(a: Plan, local: Option<Bytes>, b: Plan)
    requires InitiatorRunOk(a) && RunsPaired(a)
    requires MayFind(a.i.pending, local) && ReceiveStep(a, local) == Ok(b) && a.irun.inbox[0].Offer?
    ensures InitiatorRunOk(b)
  {
    assert a.irun.inbox[1..] == [];
  }

  lemma ReceivingOfferKeepsPeer(a: Plan, b: Plan)
    requires ResponderRunOk(a) && RunsPaired(a) && a.irun.Asking?
    requires a.irun.inbox != [] && a.irun.inbox[0].Offer? && a.irun.inbox[1..] == []
    requires b.irun == Waiting(a.irun.now, a.irun.id, a.irun.binding, a.irun.inbox[0].id, [])
    requires b.rrun == ToResponder(a.rrun, a.irun.binding, Whole(a.irun.inbox[0].id))
    requires b.i.pending >= a.i.pending + {a.irun.inbox[0].id}
    requires b.r == a.r && b.usedIds == a.usedIds && b.usedBindings == a.usedBindings && b.issued == a.issued
    ensures ResponderRunOk(b) && RunsPaired(b)
  {
    var id := a.irun.inbox[0].id;
    if a.rrun.Listening? {
      assert b.rrun == a.rrun;
    } else {
      assert a.rrun.Expecting? && a.rrun.inbox == [];
      assert [] + [Whole(id)] == [Whole(id)];
      assert b.rrun == a.rrun.(inbox := [Whole(id)]);
    }
  }

  lemma ReceivedOfferKeepsPeer(a: Plan, local: Option<Bytes>, b: Plan)
    requires InitiatorRunOk(a) && ResponderRunOk(a) && RunsPaired(a)
    requires MayFind(a.i.pending, local) && ReceiveStep(a, local) == Ok(b) && a.irun.inbox[0].Offer?
    ensures ResponderRunOk(b) && RunsPaired(b)
  {
    assert a.irun.inbox[1..] == [];
    ReceivingOfferKeepsPeer(a, b);
  }

  lemma SettleKeepsStores(a: Plan, x: Action, b: Plan)
    requires Inv(a) && (x.Settle? || x.CutSettle?) && Permits(a, x) && Next(a, x) == Ok(b)
    ensures StoresAgree(b) && IssuesGranted(b) && SingleApproval(b)
  {
    var id :| Within(a, id);
    assert Within(b, id);
  }

  lemma SettleKeepsRuns(a: Plan, x: Action, b: Plan)
    requires Inv(a) && (x.Settle? || x.CutSettle?) && Permits(a, x) && Next(a, x) == Ok(b)
    ensures InitiatorRunOk(b) && ResponderRunOk(b) && RunsPaired(b)
  {
  }

  lemma ActivatingKeepsStores(a: Plan, id: Bytes, left: set<Bytes>)
    requires StoresAgree(a) && id in a.r.active + a.r.revoked && id !in a.i.revoked && left <= a.i.pending
    ensures StoresAgree(a.(i := a.i.(active := a.i.active + {id}, pending := left)))
  {
    var only :| Within(a, only);
    assert id in a.i.pending + a.i.active;
    assert Within(a.(i := a.i.(active := a.i.active + {id}, pending := left)), only);
  }

  lemma FinishKeepsStores(a: Plan, x: Action, b: Plan)
    requires Inv(a) && (x.Finish? || x.CutFinish?) && Permits(a, x) && Next(a, x) == Ok(b)
    ensures StoresAgree(b)
  {
    assert a.irun.inbox == [Done];
    ActivatingKeepsStores(a, a.irun.whole, b.i.pending);
    assert b == a.(i := b.i, irun := Resting);
    var moved := a.(i := b.i);
    var only :| Within(moved, only);
    assert Within(b, only);
  }

  lemma FinishKeepsRuns(a: Plan, x: Action, b: Plan)
    requires Inv(a) && (x.Finish? || x.CutFinish?) && Permits(a, x) && Next(a, x) == Ok(b)
    ensures IssuesGranted(b) && SingleApproval(b) && InitiatorRunOk(b) && ResponderRunOk(b) && RunsPaired(b)
  {
    assert a.irun.inbox == [Done];
  }

  lemma DropKeeps(a: Plan, x: Action, b: Plan)
    requires Inv(a) && (x.DropInitiator? || x.DropResponder?) && Next(a, x) == Ok(b)
    ensures Inv(b)
  {
    var id :| Within(a, id);
    assert Within(b, id);
  }

  lemma RevokingAtInitiatorKeepsStores(a: Plan, id: Bytes)
    requires StoresAgree(a) && RevokeStep(a.i, id).Ok?
    ensures StoresAgree(a.(i := RevokeStep(a.i, id).value))
  {
    var only :| Within(a, only);
    assert Within(a.(i := RevokeStep(a.i, id).value), only);
  }

  lemma RevokingAtResponderKeepsStores(a: Plan, id: Bytes)
    requires StoresAgree(a) && RevokeStep(a.r, id).Ok?
    ensures StoresAgree(a.(r := RevokeStep(a.r, id).value))
  {
    var only :| Within(a, only);
    assert Within(a.(r := RevokeStep(a.r, id).value), only);
  }

  /** Revoking takes the pair out of progress, and counts. */
  lemma RevokingKeepsApproval(a: Plan, id: Bytes)
    requires SingleApproval(a) && RevokeStep(a.r, id).Ok?
    ensures SingleApproval(a.(r := RevokeStep(a.r, id).value))
  {
    assert |a.r.revoked + {id}| == |a.r.revoked| + 1;
  }

  lemma RevokeKeepsStores(a: Plan, x: Action, b: Plan)
    requires Inv(a) && (x.RevokeAtInitiator? || x.RevokeAtResponder?) && Next(a, x) == Ok(b)
    ensures StoresAgree(b) && IssuesGranted(b) && SingleApproval(b)
  {
    if x.RevokeAtInitiator? {
      RevokingAtInitiatorKeepsStores(a, x.id);
    } else {
      RevokingAtResponderKeepsStores(a, x.id);
      RevokingKeepsApproval(a, x.id);
    }
  }

  lemma RevokeKeepsRuns(a: Plan, x: Action, b: Plan)
    requires Inv(a) && (x.RevokeAtInitiator? || x.RevokeAtResponder?) && Next(a, x) == Ok(b)
    ensures InitiatorRunOk(b) && ResponderRunOk(b) && RunsPaired(b)
  {
  }

  lemma NextKeepsInv(a: Plan, x: Action, b: Plan)
    requires Inv(a) && Permits(a, x) && Next(a, x) == Ok(b)
    ensures Inv(b)
  {
    match x
    case Start(_, _, _, _, _, _) => StartKeeps(a, x, b);
    case Meet(_, _, _, _, _, _, _) => MeetKeeps(a, x, b);
    case Serve(_) => ServeKeeps(a, x, b);
    case Receive(_) =>
      ReceiveKeepsStores(a, x, b);
      if a.irun.inbox[0].Whole? {
        ReceivingWholeKeepsRuns(a, x, b);
      } else {
        ReceivingOfferKeepsRuns(a, x.local, b);
        ReceivedOfferKeepsPeer(a, x.local, b);
      }
    case Settle => SettleKeepsStores(a, x, b); SettleKeepsRuns(a, x, b);
    case CutSettle(_) => SettleKeepsStores(a, x, b); SettleKeepsRuns(a, x, b);
    case Finish => FinishKeepsStores(a, x, b); FinishKeepsRuns(a, x, b);
    case CutFinish(_) => FinishKeepsStores(a, x, b); FinishKeepsRuns(a, x, b);
    case DropInitiator => DropKeeps(a, x, b);
    case DropResponder => DropKeeps(a, x, b);
    case RevokeAtInitiator(_, _) => RevokeKeepsStores(a, x, b); RevokeKeepsRuns(a, x, b);
    case RevokeAtResponder(_, _) => RevokeKeepsStores(a, x, b); RevokeKeepsRuns(a, x, b);
  }
}
