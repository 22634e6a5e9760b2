/** Idempotent dispatch: claim a key, hand the message to the transport, then
    complete or abandon the claim. The store is the reference store the
    repository's own tests use for the contract. */
module Dispatch {
  import opened Wrappers

  /** A validated message; its digest identifies its content and leaves out its ID. */
  datatype Message = Message(id: string, correlationId: string, key: string, digest: string)

  /** An acceptance time of 0 is the unset time. */
  datatype Receipt = Receipt(messageId: string, correlationId: string, transportId: string, acceptedAt: int, duplicate: bool)

  datatype Record = Held(digest: string) | Done(digest: string, receipt: Receipt)
  type Records = map<string, Record>

  datatype Claim = Acquired | DuplicateOf(receipt: Receipt) | DuplicateUnfinished | Conflicting

  // The store

  function BeginClaim(store: Records, key: string, digest: string): Claim {
    if key !in store then Acquired
    else if store[key].digest != digest then Conflicting
    else match store[key]
      case Done(_, receipt) => DuplicateOf(receipt)
      case Held(_) => DuplicateUnfinished
  }

  function Begun(store: Records, key: string, digest: string): Records {
    if key in store then store else store[key := Held(digest)]
  }

  function Completable(store: Records, key: string, digest: string): bool {
    key in store && store[key].digest == digest
  }

  function Abandoned(store: Records, key: string, digest: string): Records {
    if key in store && store[key] == Held(digest) then store - {key} else store
  }

  class DispatchStore {
    var records: Records

    constructor ()
      ensures records == map[]
    { records := map[]; }

    method Begin(key: string, digest: string) returns (claim: Claim)
      modifies this
      ensures claim == BeginClaim(old(records), key, digest)
      ensures records == Begun(old(records), key, digest)
      ensures claim == Acquired <==> key !in old(records)
      ensures claim == Conflicting <==> key in old(records) && old(records)[key].digest != digest
      ensures claim == DuplicateUnfinished <==> key in old(records) && old(records)[key] == Held(digest)
      ensures claim.DuplicateOf? ==> key in old(records) && old(records)[key] == Done(digest, claim.receipt)
      ensures records == if claim == Acquired then old(records)[key := Held(digest)] else old(records)
    {
      if key !in records {
        records := records[key := Held(digest)];
        return Acquired;
      }
      var record := records[key];
      if record.digest != digest { return Conflicting; }
      if record.Done? { return DuplicateOf(record.receipt); }
      return DuplicateUnfinished;
    }

    method Complete(key: string, digest: string, receipt: Receipt) returns (ok: bool)
      modifies this
      ensures ok == Completable(old(records), key, digest)
      ensures ok <==> key in old(records) && old(records)[key].digest == digest
      ensures records == if ok then old(records)[key := Done(digest, receipt)] else old(records)
    {
      ok := key in records && records[key].digest == digest;
      if ok { records := records[key := Done(digest, receipt)]; }
    }

    method Abandon(key: string, digest: string)
      modifies this
      ensures records == Abandoned(old(records), key, digest)
      ensures records == if key in old(records) && old(records)[key] == Held(digest) then old(records) - {key} else old(records)
    {
      if key in records && records[key] == Held(digest) { records := records - {key}; }
    }
  }

  // One dispatcher

  datatype Outcome =
    | Delivered(receipt: Receipt)
    | Duplicate(receipt: Receipt)
    | ReceiptUnavailable
    | KeyConflict
    | StoreFailed
    | DeliveryFailed
    | InvalidReceipt

  datatype Pc =
    | Ready
    | Holding                          // the claim is acquired, the transport not yet called
    | Accepted(receipt: Receipt)       // the transport accepted the message
    | Releasing(answered: bool)        // the claim is about to be abandoned
    | Returned(outcome: Outcome)

  /** A store call can fail before or after it took effect. */
  datatype Fault = NoFault | LostBefore | LostAfter

  predicate ReceiptFits(message: Message, receipt: Receipt) {
    receipt.messageId == message.id && receipt.correlationId == message.correlationId && receipt.acceptedAt != 0
  }

  function AfterBegin(claim: Claim): Pc {
    match claim
    case Acquired => Holding
    case DuplicateOf(receipt) => Returned(Duplicate(receipt.(duplicate := true)))
    case DuplicateUnfinished => Returned(ReceiptUnavailable)
    case Conflicting => Returned(KeyConflict)
  }

  function AfterDelivery(message: Message, answer: Option<Receipt>): Pc {
    match answer
    case None => Releasing(false)
    case Some(receipt) => if ReceiptFits(message, receipt) then Accepted(receipt) else Releasing(true)
  }

  /** Dispatch run by itself, against a store that answers every call. */
  method RunDispatch(store: DispatchStore, message: Message, answer: Option<Receipt>)
    returns (outcome: Outcome, called: bool)
    modifies store
    ensures called <==> message.key !in old(store.records)
    ensures outcome == KeyConflict <==>
      message.key in old(store.records) && old(store.records)[message.key].digest != message.digest
    ensures outcome == ReceiptUnavailable <==>
      message.key in old(store.records) && old(store.records)[message.key] == Held(message.digest)
    ensures outcome.Duplicate? <==>
      message.key in old(store.records) && old(store.records)[message.key].Done? && old(store.records)[message.key].digest == message.digest
    ensures outcome.Duplicate? ==> outcome.receipt == old(store.records)[message.key].receipt.(duplicate := true)
    ensures outcome == DeliveryFailed <==> called && answer.None?
    ensures outcome == InvalidReceipt <==>
      && called && answer.Some?
      && (answer.value.messageId != message.id || answer.value.correlationId != message.correlationId || answer.value.acceptedAt == 0)
    ensures outcome.Delivered? <==>
      && called && answer.Some?
      && answer.value.messageId == message.id && answer.value.correlationId == message.correlationId && answer.value.acceptedAt != 0
    ensures outcome.Delivered? ==> outcome.receipt == answer.value
    ensures store.records ==
      if outcome.Delivered? then old(store.records)[message.key := Done(message.digest, answer.value)] else old(store.records)
  {
    called := false;
    var claim := store.Begin(message.key, message.digest);
    match claim {
      case DuplicateOf(receipt) => outcome := Duplicate(receipt.(duplicate := true)); return;
      case DuplicateUnfinished => outcome := ReceiptUnavailable; return;
      case Conflicting => outcome := KeyConflict; return;
      case Acquired =>
    }
    called := true;
    if answer.None? {
      store.Abandon(message.key, message.digest);
      outcome := DeliveryFailed;
      return;
    }
    if !ReceiptFits(message, answer.value) {
      store.Abandon(message.key, message.digest);
      outcome := InvalidReceipt;
      return;
    }
    var ok := store.Complete(message.key, message.digest, answer.value);
    outcome := if ok then Delivered(answer.value) else StoreFailed;
  }

  // Any number of dispatchers, interleaved at their store and transport calls

  datatype Dispatcher = Dispatcher(message: Message, pc: Pc)

  /** The calls the transport has received, and the claims that were really released. */
  datatype System = System(
    store: Records, dispatchers: map<nat, Dispatcher>,
    calls: seq<Message>, released: seq<string>)

  datatype Action =
    | Start(who: nat, message: Message)
    | Begin(who: nat, fault: Fault)
    | Deliver(who: nat, answer: Option<Receipt>)
    | Complete(who: nat, fault: Fault)
    | Abandon(who: nat, fault: Fault)

  const INITIAL := System(map[], map[], [], [])

  predicate Enabled(s: System, a: Action) {
    match a
    case Start(who, _) => who !in s.dispatchers
    case Begin(who, _) => who in s.dispatchers && s.dispatchers[who].pc == Ready
    case Deliver(who, _) => who in s.dispatchers && s.dispatchers[who].pc == Holding
    case Complete(who, _) => who in s.dispatchers && s.dispatchers[who].pc.Accepted?
    case Abandon(who, _) => who in s.dispatchers && s.dispatchers[who].pc.Releasing?
  }

  function At(s: System, who: nat, pc: Pc): map<nat, Dispatcher>
    requires who in s.dispatchers
  {
    s.dispatchers[who := s.dispatchers[who].(pc := pc)]
  }

  function Step(s: System, a: Action): System
    requires Enabled(s, a)
  {
    match a
    case Start(who, message) => s.(dispatchers := s.dispatchers[who := Dispatcher(message, Ready)])
    case Begin(who, fault) =>
      var m := s.dispatchers[who].message;
      s.(store := if fault == LostBefore then s.store else Begun(s.store, m.key, m.digest),
         dispatchers := At(s, who, if fault == NoFault then AfterBegin(BeginClaim(s.store, m.key, m.digest)) else Returned(StoreFailed)))
    case Deliver(who, answer) =>
      var m := s.dispatchers[who].message;
      s.(calls := s.calls + [m], dispatchers := At(s, who, AfterDelivery(m, answer)))
    case Complete(who, fault) =>
      var m := s.dispatchers[who].message;
      var receipt := s.dispatchers[who].pc.receipt;
      var can := Completable(s.store, m.key, m.digest);
      s.(store := if can && fault != LostBefore then s.store[m.key := Done(m.digest, receipt)] else s.store,
         dispatchers := At(s, who, Returned(if can && fault == NoFault then Delivered(receipt) else StoreFailed)))
    case Abandon(who, fault) =>
      var m := s.dispatchers[who].message;
      var after := if fault == LostBefore then s.store else Abandoned(s.store, m.key, m.digest);
      s.(store := after,
         released := if after != s.store then s.released + [m.key] else s.released,
         dispatchers := At(s, who, Returned(if s.dispatchers[who].pc.answered then InvalidReceipt else DeliveryFailed)))
  }

  /** An action that is not enabled does not happen. */
  function Run(s: System, actions: seq<Action>): System {
    if actions == [] then s
    else
      var before := Run(s, actions[..|actions| - 1]);
      var last := actions[|actions| - 1];
      if Enabled(before, last) then Step(before, last) else before
  }

  predicate HoldsKey(s: System, who: nat, key: string) {
    who in s.dispatchers && s.dispatchers[who].message.key == key
    && (s.dispatchers[who].pc.Holding? || s.dispatchers[who].pc.Accepted? || s.dispatchers[who].pc.Releasing?)
  }

  function CallsFor(calls: seq<Message>, key: string): nat {
    if calls == [] then 0
    else CallsFor(calls[..|calls| - 1], key) + if calls[|calls| - 1].key == key then 1 else 0
  }

  function ReleasesOf(released: seq<string>, key: string): nat {
    if released == [] then 0
    else ReleasesOf(released[..|released| - 1], key) + if released[|released| - 1] == key then 1 else 0
  }

  /** The message the transport received last under the key. */
  function LastCall(calls: seq<Message>, key: string): Option<Message> {
    if calls == [] then None
    else if calls[|calls| - 1].key == key then Some(calls[|calls| - 1])
    else LastCall(calls[..|calls| - 1], key)
  }

  lemma OneMoreCall(calls: seq<Message>, m: Message, key: string)
    ensures CallsFor(calls + [m], key) == CallsFor(calls, key) + if m.key == key then 1 else 0
    ensures LastCall(calls + [m], key) == if m.key == key then Some(m) else LastCall(calls, key)
  {
    assert (calls + [m])[..|calls|] == calls;
  }

  lemma OneMoreRelease(released: seq<string>, k: string, key: string)
    ensures ReleasesOf(released + [k], key) == ReleasesOf(released, key) + if k == key then 1 else 0
  {
    assert (released + [k])[..|released|] == released;
  }

  // What every step keeps

  /** A holder's claim is in the store under its own digest, and is the only one on the key. */
  ghost predicate ExclusiveClaims(s: System) {
    && (forall who, key :: HoldsKey(s, who, key) ==>
          key in s.store && s.store[key] == Held(s.dispatchers[who].message.digest))
    && (forall v, w, key :: HoldsKey(s, v, key) && HoldsKey(s, w, key) ==> v == w)
  }

  ghost predicate AboutToCall(s: System, key: string) {
    exists who :: who in s.dispatchers && s.dispatchers[who].message.key == key && s.dispatchers[who].pc.Holding?
  }

  /** Every claim pays for at most one call: the calls made, and the one a holder
      is about to make, are covered by the present claim and the released ones. */
  ghost predicate CallsPaidFor(s: System) {
    forall key :: Spent(s, key) <= Paid(s, key)
  }

  /** Returned receipts are the stored one, up to the duplicate flag. */
  ghost predicate ReceiptsAgree(s: System) {
    forall who :: who in s.dispatchers ==>
      var m := s.dispatchers[who].message;
      match s.dispatchers[who].pc
      case Returned(Delivered(receipt)) => m.key in s.store && s.store[m.key] == Done(m.digest, receipt) && ReceiptFits(m, receipt)
      case Returned(Duplicate(receipt)) =>
        m.key in s.store && s.store[m.key].Done? && s.store[m.key].digest == m.digest
        && receipt == s.store[m.key].receipt.(duplicate := true)
      case Accepted(receipt) => ReceiptFits(m, receipt) && LastCall(s.calls, m.key) == Some(m)
      case _ => true
  }

  /** A stored receipt answers the last call that was made under its key. */
  ghost predicate ReceiptsEarned(s: System) {
    forall key :: key in s.store && s.store[key].Done? ==> Earned(s, key)
  }

  predicate Earned(s: System, key: string)
    requires key in s.store && s.store[key].Done?
  {
    var last := LastCall(s.calls, key);
    last.Some? && last.value.key == key && last.value.digest == s.store[key].digest && ReceiptFits(last.value, s.store[key].receipt)
  }

  ghost predicate Invariant(s: System) {
    ExclusiveClaims(s) && CallsPaidFor(s) && ReceiptsAgree(s) && ReceiptsEarned(s)
  }

  lemma StepKeepsClaims(s: System, a: Action)
    requires Enabled(s, a) && ExclusiveClaims(s)
    ensures ExclusiveClaims(Step(s, a))
  {
    var t := Step(s, a);
    if !a.Start? && !a.Begin? { assert HoldsKey(s, a.who, s.dispatchers[a.who].message.key); }
    forall who, key | HoldsKey(t, who, key)
      ensures key in t.store && t.store[key] == Held(t.dispatchers[who].message.digest)
      ensures who != a.who ==> HoldsKey(s, who, key)
      ensures who == a.who ==> HoldsKey(s, who, key) || key !in s.store
    {
      if who != a.who { assert HoldsKey(s, who, key); }
    }
  }

  ghost function Paid(s: System, key: string): nat {
    ReleasesOf(s.released, key) + if key in s.store then 1 else 0
  }

  ghost function Spent(s: System, key: string): nat {
    CallsFor(s.calls, key) + if AboutToCall(s, key) then 1 else 0
  }

  lemma StepKeepsPayment(s: System, a: Action)
    requires Enabled(s, a) && ExclusiveClaims(s) && CallsPaidFor(s)
    ensures CallsPaidFor(Step(s, a))
  {
    forall key ensures Spent(Step(s, a), key) <= Paid(Step(s, a), key) {
      assert Spent(s, key) <= Paid(s, key);
      StepSpends(s, a, key);
    }
  }

  lemma CallerOnly(s: System, a: Action, key: string)
    requires Enabled(s, a) && ExclusiveClaims(s)
    requires a.Start? || s.dispatchers[a.who].message.key != key
    ensures AboutToCall(Step(s, a), key) ==> AboutToCall(s, key)
    ensures CallsFor(Step(s, a).calls, key) == CallsFor(s.calls, key)
  {
    var t := Step(s, a);
    if AboutToCall(t, key) {
      var who :| who in t.dispatchers && t.dispatchers[who].message.key == key && t.dispatchers[who].pc.Holding?;
      assert who in s.dispatchers && s.dispatchers[who] == t.dispatchers[who];
    }
    if a.Deliver? { OneMoreCall(s.calls, s.dispatchers[a.who].message, key); }
  }

  lemma NobodyElseCalls(s: System, a: Action, key: string)
    requires Enabled(s, a) && ExclusiveClaims(s) && HoldsKey(s, a.who, key)
    ensures !AboutToCall(Step(s, a), key)
    ensures AboutToCall(s, key) <==> s.dispatchers[a.who].pc.Holding?
  {
    var t := Step(s, a);
    forall who | who in t.dispatchers && t.dispatchers[who].message.key == key
      ensures !t.dispatchers[who].pc.Holding?
    {
      if who != a.who && t.dispatchers[who].pc.Holding? { assert HoldsKey(s, who, key); }
    }
    forall who | who in s.dispatchers && s.dispatchers[who].message.key == key && s.dispatchers[who].pc.Holding?
      ensures who == a.who
    {
      assert HoldsKey(s, who, key);
    }
  }

  lemma BeginSpends(s: System, who: nat, fault: Fault, key: string)
    requires Enabled(s, Begin(who, fault)) && ExclusiveClaims(s) && s.dispatchers[who].message.key == key
    ensures var t := Step(s, Begin(who, fault));
      && (key in s.store ==> key in t.store && (AboutToCall(t, key) ==> AboutToCall(s, key)))
      && (key !in s.store ==> !AboutToCall(s, key) && (AboutToCall(t, key) ==> key in t.store))
  {
    var t := Step(s, Begin(who, fault));
    if AboutToCall(s, key) {
      var w :| w in s.dispatchers && s.dispatchers[w].message.key == key && s.dispatchers[w].pc.Holding?;
      assert HoldsKey(s, w, key);
    }
    if AboutToCall(t, key) {
      var w :| w in t.dispatchers && t.dispatchers[w].message.key == key && t.dispatchers[w].pc.Holding?;
      if w != who { assert s.dispatchers[w] == t.dispatchers[w]; }
    }
  }

  lemma StepSpends(s: System, a: Action, key: string)
    requires Enabled(s, a) && ExclusiveClaims(s) && Spent(s, key) <= Paid(s, key)
    ensures Spent(Step(s, a), key) <= Paid(Step(s, a), key)
  {
    hide AboutToCall, ExclusiveClaims, CallsFor, ReleasesOf;
    var t := Step(s, a);
    if a.Abandon? { OneMoreRelease(s.released, s.dispatchers[a.who].message.key, key); }
    if a.Start? || s.dispatchers[a.who].message.key != key {
      CallerOnly(s, a, key);
    } else if a.Begin? {
      BeginSpends(s, a.who, a.fault, key);
    } else {
      assert HoldsKey(s, a.who, key);
      NobodyElseCalls(s, a, key);
      OneMoreCall(s.calls, s.dispatchers[a.who].message, key);
    }
  }

  /** Only a holder's call changes what was delivered last under a key. */
  lemma StepCalls(s: System, a: Action, key: string)
    requires Enabled(s, a) && ExclusiveClaims(s)
    ensures LastCall(Step(s, a).calls, key) ==
      if a.Deliver? && s.dispatchers[a.who].message.key == key then Some(s.dispatchers[a.who].message) else LastCall(s.calls, key)
    ensures a.Deliver? && s.dispatchers[a.who].message.key == key ==> HoldsKey(s, a.who, key)
  {
    hide LastCall, CallsFor;
    if a.Deliver? { OneMoreCall(s.calls, s.dispatchers[a.who].message, key); }
  }

  lemma StepKeepsReceipts(s: System, a: Action)
    requires Enabled(s, a) && ExclusiveClaims(s) && ReceiptsAgree(s)
    ensures ReceiptsAgree(Step(s, a))
  {
    hide LastCall;
    var t := Step(s, a);
    if !a.Start? && !a.Begin? { assert HoldsKey(s, a.who, s.dispatchers[a.who].message.key); }
    forall key | key in s.store && s.store[key].Done? ensures key in t.store && t.store[key] == s.store[key] {}
    forall who | who in s.dispatchers && who != a.who && s.dispatchers[who].pc.Accepted?
      ensures LastCall(t.calls, s.dispatchers[who].message.key) == LastCall(s.calls, s.dispatchers[who].message.key)
    {
      assert HoldsKey(s, who, s.dispatchers[who].message.key);
      StepCalls(s, a, s.dispatchers[who].message.key);
    }
    if !a.Start? { StepCalls(s, a, s.dispatchers[a.who].message.key); }
  }

  lemma StepKeepsEarned(s: System, a: Action)
    requires Enabled(s, a) && ExclusiveClaims(s) && ReceiptsAgree(s) && ReceiptsEarned(s)
    ensures ReceiptsEarned(Step(s, a))
  {
    hide LastCall;
    var t := Step(s, a);
    forall key | key in t.store && t.store[key].Done? ensures Earned(t, key) {
      StepCalls(s, a, key);
      if key in s.store && s.store[key] == t.store[key] { assert Earned(s, key); }
    }
  }

  lemma {:induction false} RunKeepsInvariant(actions: seq<Action>)
    ensures Invariant(Run(INITIAL, actions))
  {
    if actions != [] {
      var n := |actions| - 1;
      RunKeepsInvariant(actions[..n]);
      var s, a := Run(INITIAL, actions[..n]), actions[n];
      if Enabled(s, a) {
        StepKeepsClaims(s, a);
        StepKeepsPayment(s, a);
        StepKeepsReceipts(s, a);
        StepKeepsEarned(s, a);
      }
    }
  }

  // The theorems

  ghost predicate Reachable(s: System) {
    exists actions :: s == Run(INITIAL, actions)
  }

  /** At most one dispatcher holds a key, and the transport is called for it at
      most once more than its claim has been released. */
  lemma OneHolderAndBoundedCalls(s: System, key: string)
    requires Reachable(s)
    ensures forall v, w :: HoldsKey(s, v, key) && HoldsKey(s, w, key) ==> v == w
    ensures CallsFor(s.calls, key) <= 1 + ReleasesOf(s.released, key)
  {
    var actions :| s == Run(INITIAL, actions);
    RunKeepsInvariant(actions);
    assert Spent(s, key) <= Paid(s, key);
  }

  /** Whatever was returned for a completed key is the same receipt. */
  lemma ReturnedReceiptsAgree(s: System, v: nat, w: nat)
    requires Reachable(s) && v in s.dispatchers && w in s.dispatchers
    requires s.dispatchers[v].message.key == s.dispatchers[w].message.key
    requires s.dispatchers[v].pc.Returned? && (s.dispatchers[v].pc.outcome.Delivered? || s.dispatchers[v].pc.outcome.Duplicate?)
    requires s.dispatchers[w].pc.Returned? && (s.dispatchers[w].pc.outcome.Delivered? || s.dispatchers[w].pc.outcome.Duplicate?)
    ensures s.dispatchers[v].message.digest == s.dispatchers[w].message.digest
    ensures s.dispatchers[v].pc.outcome.receipt.(duplicate := true) == s.dispatchers[w].pc.outcome.receipt.(duplicate := true)
  {
    var actions :| s == Run(INITIAL, actions);
    RunKeepsInvariant(actions);
  }

  /** Every receipt that was returned carries the correlation ID of the message that
      was delivered last under the key and a set acceptance time, and one that was
      returned as delivered names the caller's own message and correlation. */
  lemma ReturnedReceiptFits(s: System, who: nat)
    requires Reachable(s) && who in s.dispatchers && s.dispatchers[who].pc.Returned?
    requires s.dispatchers[who].pc.outcome.Delivered? || s.dispatchers[who].pc.outcome.Duplicate?
    ensures var m, o := s.dispatchers[who].message, s.dispatchers[who].pc.outcome;
      var delivered := LastCall(s.calls, m.key);
      && delivered.Some? && o.receipt.acceptedAt != 0
      && o.receipt.messageId == delivered.value.id && o.receipt.correlationId == delivered.value.correlationId
      && (o.Delivered? ==> o.receipt.messageId == m.id && o.receipt.correlationId == m.correlationId)
  {
    hide Run, LastCall;
    var actions :| s == Run(INITIAL, actions);
    RunKeepsInvariant(actions);
    assert Earned(s, s.dispatchers[who].message.key);
  }

  /** A claimed message that the transport answers with its own IDs and a set time is
      delivered by the next completion that works; any other answer releases it. */
  lemma FittingAnswerIsDelivered(s: System, who: nat, answer: Option<Receipt>)
    requires Reachable(s) && Enabled(s, Deliver(who, answer))
    ensures var m, t := s.dispatchers[who].message, Step(s, Deliver(who, answer));
      && who in t.dispatchers
      && (answer.Some? && answer.value.messageId == m.id && answer.value.correlationId == m.correlationId && answer.value.acceptedAt != 0
          <==> Enabled(t, Complete(who, NoFault)))
      && (Enabled(t, Complete(who, NoFault)) <==> !Enabled(t, Abandon(who, NoFault)))
      && (Enabled(t, Complete(who, NoFault)) ==>
            Step(t, Complete(who, NoFault)).dispatchers[who].pc == Returned(Delivered(answer.value)))
  {
    hide Run, LastCall, CallsFor;
    var actions :| s == Run(INITIAL, actions);
    RunKeepsInvariant(actions);
    assert HoldsKey(s, who, s.dispatchers[who].message.key);
  }

  /** What a claim that is answered tells its caller. */
  lemma ClaimAnswers(s: System, who: nat)
    requires Enabled(s, Begin(who, NoFault))
    ensures var m, pc := s.dispatchers[who].message, Step(s, Begin(who, NoFault)).dispatchers[who].pc;
      && (pc == Holding <==> m.key !in s.store)
      && (pc == Returned(KeyConflict) <==> m.key in s.store && s.store[m.key].digest != m.digest)
      && (pc == Returned(ReceiptUnavailable) <==> m.key in s.store && s.store[m.key] == Held(m.digest))
      && ((pc.Returned? && pc.outcome.Duplicate?) <==> m.key in s.store && s.store[m.key].digest == m.digest && s.store[m.key].Done?)
  {}

  lemma {:induction false} RunAppends(s: System, more: seq<Action>)
    ensures s.calls <= Run(s, more).calls
  {
    if more != [] { RunAppends(s, more[..|more| - 1]); }
  }

  lemma {:induction false} ReachableRun(s: System, more: seq<Action>)
    requires Reachable(s)
    ensures Reachable(Run(s, more))
  {
    var actions :| s == Run(INITIAL, actions);
    if more == [] { return; }
    var n := |more| - 1;
    ReachableRun(s, more[..n]);
    var before :| Run(s, more[..n]) == Run(INITIAL, before);
    assert (before + [more[n]])[..|before|] == before;
    assert Run(s, more) == Run(INITIAL, before + [more[n]]);
  }

  lemma {:induction false} ReleasesGrow(s: System, more: seq<Action>, key: string)
    ensures ReleasesOf(s.released, key) <= ReleasesOf(Run(s, more).released, key)
  {
    if more != [] {
      var n := |more| - 1;
      ReleasesGrow(s, more[..n], key);
      StepReleases(Run(s, more[..n]), more[n], key);
    }
  }

  lemma StepReleases(s: System, a: Action, key: string)
    ensures Enabled(s, a) ==> ReleasesOf(s.released, key) <= ReleasesOf(Step(s, a).released, key)
  {
    hide ReleasesOf;
    if Enabled(s, a) && a.Abandon? { OneMoreRelease(s.released, s.dispatchers[a.who].message.key, key); }
  }

  lemma ClaimedContentStep(s: System, a: Action, key: string)
    requires Enabled(s, a) && ExclusiveClaims(s) && key in s.store
    requires ReleasesOf(Step(s, a).released, key) == ReleasesOf(s.released, key)
    ensures key in Step(s, a).store && Step(s, a).store[key].digest == s.store[key].digest
    ensures a.Deliver? && s.dispatchers[a.who].message.key == key ==> s.dispatchers[a.who].message.digest == s.store[key].digest
    ensures Step(s, a).calls == s.calls + if a.Deliver? then [s.dispatchers[a.who].message] else []
  {
    hide ReleasesOf;
    if !a.Start? && !a.Begin? { assert HoldsKey(s, a.who, s.dispatchers[a.who].message.key); }
    if a.Abandon? { OneMoreRelease(s.released, s.dispatchers[a.who].message.key, key); }
  }

  /** While a key stays claimed, every further call for it carries the claimed content. */
  lemma {:induction false} ContentIsFixedWhileClaimed(s: System, more: seq<Action>, key: string)
    requires Reachable(s) && key in s.store
    requires ReleasesOf(Run(s, more).released, key) == ReleasesOf(s.released, key)
    ensures var t := Run(s, more);
      && key in t.store && t.store[key].digest == s.store[key].digest
      && s.calls <= t.calls
      && forall m :: m in t.calls[|s.calls|..] && m.key == key ==> m.digest == s.store[key].digest
  {
    hide CallsFor, ReleasesOf, Step, ReceiptsAgree, ReceiptsEarned, CallsPaidFor;
    RunAppends(s, more);
    if more == [] { return; }
    var n := |more| - 1;
    RunAppends(s, more[..n]);
    var before, a, after := Run(s, more[..n]), more[n], Run(s, more);
    ReleasesGrow(s, more[..n], key);
    StepReleases(before, a, key);
    ContentIsFixedWhileClaimed(s, more[..n], key);
    ReachableRun(s, more[..n]);
    var actions :| before == Run(INITIAL, actions);
    RunKeepsInvariant(actions);
    if Enabled(before, a) {
      ClaimedContentStep(before, a, key);
      if !a.Deliver? {
        assert after.calls[|s.calls|..] == before.calls[|s.calls|..];
      } else {
        assert after.calls[|s.calls|..] == before.calls[|s.calls|..] + [before.dispatchers[a.who].message];
      }
    }
  }

  lemma UnheldKeyStep(s: System, a: Action, key: string)
    requires Enabled(s, a) && ExclusiveClaims(s) && key in s.store && forall who :: !HoldsKey(s, who, key)
    ensures var t := Step(s, a);
      && key in t.store && t.store[key] == s.store[key]
      && (forall who :: !HoldsKey(t, who, key))
      && CallsFor(t.calls, key) == CallsFor(s.calls, key)
  {
    var t := Step(s, a);
    if !a.Start? && !a.Begin? { assert HoldsKey(s, a.who, s.dispatchers[a.who].message.key); }
    forall who ensures !HoldsKey(t, who, key) { assert !HoldsKey(s, who, key); }
    if a.Deliver? { OneMoreCall(s.calls, s.dispatchers[a.who].message, key); }
  }

  /** A key in the store that nobody holds is settled for good: a completed one
      keeps its receipt, and one whose holder was lost to a store fault stays
      claimed and is never delivered again. */
  lemma {:induction false} UnheldKeyIsFinal(s: System, more: seq<Action>, key: string)
    requires Reachable(s) && key in s.store && forall who :: !HoldsKey(s, who, key)
    ensures var t := Run(s, more);
      && key in t.store && t.store[key] == s.store[key]
      && (forall who :: !HoldsKey(t, who, key))
      && CallsFor(t.calls, key) == CallsFor(s.calls, key)
  {
    if more == [] { return; }
    var n := |more| - 1;
    UnheldKeyIsFinal(s, more[..n], key);
    ReachableRun(s, more[..n]);
    var actions :| Run(s, more[..n]) == Run(INITIAL, actions);
    RunKeepsInvariant(actions);
    if Enabled(Run(s, more[..n]), more[n]) { UnheldKeyStep(Run(s, more[..n]), more[n], key); }
  }

  /** The key is claimed and nobody is left to complete or release the claim. */
  ghost predicate Blocked(s: System, key: string) {
    key in s.store && s.store[key].Held? && forall who :: !HoldsKey(s, who, key)
  }

  /** The one step that turns a key into a blocked one is a store call that fails
      the wrong way: a claim whose answer is lost, or a completion or release that
      never took effect. */
  lemma StepBlocksIff(s: System, a: Action, key: string)
    requires Reachable(s) && Enabled(s, a) && !Blocked(s, key)
    ensures Blocked(Step(s, a), key) <==>
      && !a.Start? && !a.Deliver? && s.dispatchers[a.who].message.key == key
      && (|| (a.Begin? && a.fault == LostAfter && key !in s.store)
          || (a.Complete? && a.fault == LostBefore)
          || (a.Abandon? && a.fault == LostBefore))
  {
    hide Run, CallsFor, ReleasesOf, LastCall, ReceiptsAgree, ReceiptsEarned, CallsPaidFor;
    var actions :| s == Run(INITIAL, actions);
    RunKeepsInvariant(actions);
    var t := Step(s, a);
    if a.Start? || s.dispatchers[a.who].message.key != key {
      OthersStillHold(s, a, key);
    } else if a.Begin? {
      if key !in s.store {
        assert forall w :: HoldsKey(s, w, key) ==> key in s.store;
        forall w | w != a.who ensures !HoldsKey(t, w, key) { assert HoldsKey(t, w, key) ==> HoldsKey(s, w, key); }
        if a.fault == NoFault { assert HoldsKey(t, a.who, key); }
      } else if s.store[key].Held? {
        var w :| HoldsKey(s, w, key);
        assert HoldsKey(t, w, key);
      }
    } else {
      assert HoldsKey(s, a.who, key);
      forall w | w != a.who ensures !HoldsKey(t, w, key) { assert HoldsKey(t, w, key) ==> HoldsKey(s, w, key); }
      if a.Deliver? { assert HoldsKey(t, a.who, key); }
    }
  }

  lemma OthersStillHold(s: System, a: Action, key: string)
    requires Enabled(s, a) && ExclusiveClaims(s) && !Blocked(s, key) && (a.Start? || s.dispatchers[a.who].message.key != key)
    ensures !Blocked(Step(s, a), key)
  {
    var t := Step(s, a);
    assert key in t.store <==> key in s.store;
    if key in s.store && s.store[key].Held? {
      var w :| HoldsKey(s, w, key);
      assert w != a.who ==> HoldsKey(t, w, key);
    }
  }

  /** Asking again for the content under the key finds that there is no receipt. */
  predicate Unavailable(s: System, key: string, digest: string, again: nat) {
    Enabled(s, Begin(again, NoFault)) && s.dispatchers[again].message.key == key && s.dispatchers[again].message.digest == digest
    ==> Step(s, Begin(again, NoFault)).dispatchers[again].pc == Returned(ReceiptUnavailable)
  }

  ghost predicate NeverAnswered(s: System, key: string, digest: string) {
    forall more, again :: Unavailable(Run(s, more), key, digest, again)
  }

  /** A key is lost, every attempt at its content being told for ever that there is
      no receipt, if and only if it is blocked under that content. */
  lemma KeyIsLostIff(s: System, key: string, digest: string)
    requires Reachable(s)
    ensures NeverAnswered(s, key, digest) <==> Blocked(s, key) && s.store[key].digest == digest
  {
    hide Step, Enabled, Run, Unavailable, CallsFor, ReleasesOf, LastCall;
    if Blocked(s, key) && s.store[key].digest == digest {
      forall more, again ensures Unavailable(Run(s, more), key, digest, again) {
        UnheldKeyIsFinal(s, more, key);
        HeldIsUnavailable(Run(s, more), key, digest, again);
      }
    } else {
      var more, again := AnswerExists(s, key, digest);
      assert !Unavailable(Run(s, more), key, digest, again);
    }
  }

  lemma HeldIsUnavailable(s: System, key: string, digest: string, again: nat)
    requires key in s.store && s.store[key] == Held(digest)
    ensures Unavailable(s, key, digest, again)
  {}

  lemma {:induction false} FreshId(ids: set<nat>) returns (n: nat)
    ensures forall i :: i in ids ==> i < n
    decreases ids
  {
    if ids == {} {
      n := 0;
    } else {
      var i :| i in ids;
      var below := FreshId(ids - {i});
      n := if i >= below then i + 1 else below;
      forall j | j in ids ensures j < n { assert j == i || j in ids - {i}; }
    }
  }

  lemma RunOne(s: System, more: seq<Action>, a: Action)
    requires Enabled(Run(s, more), a)
    ensures Run(s, more + [a]) == Step(Run(s, more), a)
  {
    hide Step, Enabled;
    assert (more + [a])[..|more|] == more;
  }

  /** Wherever the key is not blocked under the content, a run goes on to a fresh
      attempt that is answered differently: its holder, if any, first completes. */
  lemma AnswerExists(s: System, key: string, digest: string) returns (more: seq<Action>, again: nat)
    requires Reachable(s) && !(Blocked(s, key) && s.store[key].digest == digest)
    ensures !Unavailable(Run(s, more), key, digest, again)
  {
    hide CallsFor, ReleasesOf, LastCall, ReceiptsAgree, ReceiptsEarned, CallsPaidFor;
    var actions :| s == Run(INITIAL, actions);
    RunKeepsInvariant(actions);
    more := [];
    if key in s.store && s.store[key] == Held(digest) {
      var w :| HoldsKey(s, w, key);
      more := HolderReleases(s, w, key);
    }
    var t := Run(s, more);
    again := FreshId(t.dispatchers.Keys);
    var m := Message("", "", key, digest);
    RunOne(s, more, Start(again, m));
    more := more + [Start(again, m)];
    NotHeldIsAnswered(Run(s, more), key, digest, again);
  }

  lemma NotHeldIsAnswered(s: System, key: string, digest: string, again: nat)
    requires key in s.store ==> s.store[key] != Held(digest)
    requires again in s.dispatchers && s.dispatchers[again].pc == Ready
    requires s.dispatchers[again].message.key == key && s.dispatchers[again].message.digest == digest
    ensures !Unavailable(s, key, digest, again)
  {}

  lemma HolderReleases(s: System, w: nat, key: string) returns (more: seq<Action>)
    requires HoldsKey(s, w, key) && key in s.store && s.store[key] == Held(s.dispatchers[w].message.digest)
    ensures key in Run(s, more).store ==> Run(s, more).store[key].Done?
  {
    more := [];
    assert Run(s, more) == s;
    if s.dispatchers[w].pc.Holding? {
      RunOne(s, more, Deliver(w, None));
      more := more + [Deliver(w, None)];
    }
    var t := Run(s, more);
    if t.dispatchers[w].pc.Accepted? {
      RunOne(s, more, Complete(w, NoFault));
      more := more + [Complete(w, NoFault)];
    } else {
      RunOne(s, more, Abandon(w, NoFault));
      more := more + [Abandon(w, NoFault)];
    }
  }

  /** One claim whose answer is lost is enough. */
  lemma KeyCanBeLost()
    ensures exists s, key :: Reachable(s) && Blocked(s, key) && NeverAnswered(s, key, s.store[key].digest)
  {
    hide Run, CallsFor, ReleasesOf, LastCall, NeverAnswered;
    var begin := Begin(0, LostAfter);
    var s1 := Step(INITIAL, Start(0, Message("m", "c", "k", "content")));
    var s2 := Step(s1, begin);
    EmptyRun();
    ReachableStep(INITIAL, Start(0, Message("m", "c", "k", "content")));
    ReachableStep(s1, begin);
    assert forall who :: !HoldsKey(s1, who, "k");
    StepBlocksIff(s1, begin, "k");
    KeyIsLostIff(s2, "k", s2.store["k"].digest);
  }

  lemma EmptyRun()
    ensures Reachable(INITIAL)
  {
    assert Run(INITIAL, []) == INITIAL;
  }

  /** So whatever the store does to a completion, later attempts at the same content
      are told that there is no receipt if and only if it never took effect. */
  lemma LostCompleteBlocksKey(s: System, who: nat, fault: Fault, more: seq<Action>, again: nat)
    requires Reachable(s) && Enabled(s, Complete(who, fault))
    requires var key := s.dispatchers[who].message.key;
      var t := Run(Step(s, Complete(who, fault)), more);
      && Enabled(t, Begin(again, NoFault)) && t.dispatchers[again].message.key == key
      && t.dispatchers[again].message.digest == s.dispatchers[who].message.digest
    ensures var t := Run(Step(s, Complete(who, fault)), more);
      Step(t, Begin(again, NoFault)).dispatchers[again].pc == Returned(ReceiptUnavailable) <==> fault == LostBefore
  {
    hide CallsFor, ReleasesOf, LastCall, ReceiptsAgree, ReceiptsEarned, CallsPaidFor;
    var a := Complete(who, fault);
    var key := s.dispatchers[who].message.key;
    assert Run(s, [a][..0]) == s;
    assert Run(s, [a]) == Step(s, a);
    ReachableRun(s, [a]);
    var actions :| s == Run(INITIAL, actions);
    RunKeepsInvariant(actions);
    assert HoldsKey(s, who, key);
    assert forall w :: w != who && HoldsKey(Step(s, a), w, key) ==> HoldsKey(s, w, key);
    UnheldKeyIsFinal(Step(s, a), more, key);
  }

  /** A duplicate's receipt names the message delivered last under its key, so it
      names the caller's own message if and only if that one has its ID. */
  lemma DuplicateNamesDeliveredMessage(s: System, who: nat)
    requires Reachable(s) && who in s.dispatchers
    requires s.dispatchers[who].pc.Returned? && s.dispatchers[who].pc.outcome.Duplicate?
    ensures var m, r := s.dispatchers[who].message, s.dispatchers[who].pc.outcome.receipt;
      var delivered := LastCall(s.calls, m.key);
      && delivered.Some? && delivered.value.key == m.key && delivered.value.digest == m.digest
      && (r.messageId == m.id <==> delivered.value.id == m.id)
  {
    hide Run, LastCall;
    var actions :| s == Run(INITIAL, actions);
    RunKeepsInvariant(actions);
    assert Earned(s, s.dispatchers[who].message.key);
  }

  /** It can be told before asking: the receipt to come names the caller's message
      if and only if the message delivered last under the key has its ID. */
  lemma DuplicateForeseen(s: System, who: nat)
    requires Reachable(s) && Enabled(s, Begin(who, NoFault))
    requires var m := s.dispatchers[who].message; m.key in s.store && s.store[m.key].Done? && s.store[m.key].digest == m.digest
    ensures var m := s.dispatchers[who].message;
      var after := Step(s, Begin(who, NoFault)).dispatchers[who].pc;
      && after.Returned? && after.outcome.Duplicate? && LastCall(s.calls, m.key).Some?
      && (after.outcome.receipt.messageId == m.id <==> LastCall(s.calls, m.key).value.id == m.id)
  {
    hide Run, LastCall;
    var actions :| s == Run(INITIAL, actions);
    RunKeepsInvariant(actions);
    assert Earned(s, s.dispatchers[who].message.key);
  }

  lemma DuplicateCanNameAnotherMessage()
    ensures exists s, who ::
      (Reachable(s) && who in s.dispatchers
       && s.dispatchers[who].pc.Returned? && s.dispatchers[who].pc.outcome.Duplicate?
       && s.dispatchers[who].pc.outcome.receipt.messageId != s.dispatchers[who].message.id)
  {
    var m, m' := Message("m1", "c", "k", "content"), Message("m2", "c", "k", "content");
    var r := Receipt("m1", "c", "t", 1, false);
    var s1 := Step(INITIAL, Start(0, m));
    var s2 := Step(s1, Begin(0, NoFault));
    var s3 := Step(s2, Deliver(0, Some(r)));
    var s4 := Step(s3, Complete(0, NoFault));
    var s5 := Step(s4, Start(1, m'));
    var s6 := Step(s5, Begin(1, NoFault));
    assert s6.dispatchers[1].pc == Returned(Duplicate(r.(duplicate := true)));
    EmptyRun();
    ReachableStep(INITIAL, Start(0, m));
    ReachableStep(s1, Begin(0, NoFault));
    ReachableStep(s2, Deliver(0, Some(r)));
    ReachableStep(s3, Complete(0, NoFault));
    ReachableStep(s4, Start(1, m'));
    ReachableStep(s5, Begin(1, NoFault));
  }

  lemma ReachableStep(s: System, a: Action)
    requires Reachable(s) && Enabled(s, a)
    ensures Reachable(Step(s, a))
  {
    assert Run(s, [a][..0]) == s;
    ReachableRun(s, [a]);
  }
}
