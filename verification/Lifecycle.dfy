/** Any number of managers on one database, interleaved step by step: every read, write,
    lock and commit of storage.py is a step of its own, and a process may raise or crash
    between any two of them.

    Signatures are ideal: a public key accepts only byte strings that were signed under it. */
module Lifecycle {
  import opened Text
  import opened Canonical
  import opened Binding
  import opened Receipts
  import opened Storage

  // ---- states ----

  /** What create_admission has put together before it takes a sequence number. */
  datatype Draft = Draft(command: Command, decision: Decision, now: int, nonce: string)

  datatype Purpose = Admitting | Finalizing | Retiring | Returning(key: ReplayKey)

  /** Where a process stands in the operation it is running. */
  datatype Pc =
    | Idle
    | Numbering(draft: Draft)                              // about to BEGIN IMMEDIATE
    | NumberTx(draft: Draft)                               // holds the write lock
    | NumberRead(draft: Draft, n: nat)                     // SELECT done, n is row + 1
    | NumberWritten(draft: Draft, n: nat)                  // UPDATE done, not committed
    | NumberTaken(draft: Draft, n: nat)                    // committed
    | Saving(receipt: Receipt, purpose: Purpose)           // signed, about to be saved
    | Looking(receipt: Receipt, options: Options, consuming: bool)            // before is_consumed
    | Cleared(receipt: Receipt, options: Options, consuming: bool, at: nat)   // is_consumed said no
    | Consuming(receipt: Receipt)                          // validated, about to BEGIN IMMEDIATE
    | ConsumeTx(receipt: Receipt)                          // holds the write lock
    | ConsumeFree(receipt: Receipt)                        // SELECT found no row
    | ConsumeWritten(receipt: Receipt)                     // INSERT done, not committed
    | ConsumeDone(receipt: Receipt)                        // committed, about to sign

  datatype Signed = Signed(key: nat, receipt: Receipt)

  datatype Acceptance = Acceptance(key: ReplayKey, at: nat)

  /** Everything from `signings` on is history: it records what happened and steers nothing. */
  datatype State = State(
    db: Db,
    lock: Option<nat>,
    pcs: map<nat, Pc>,
    nonces: set<string>,             // nonces drawn so far
    signings: set<Signed>,           // what _sign signed, under which key
    origins: map<ReplayKey, Receipt>,// the admission each key began with
    commits: seq<nat>,               // numbers next_sequence committed
    used: seq<nat>,                  // numbers it returned to a caller that went on
    burnt: set<nat>,                 // numbers whose caller failed after the commit
    marks: seq<ReplayKey>,           // keys mark_consumed committed
    successes: seq<ReplayKey>,       // keys consume returned a receipt for
    accepts: seq<Acceptance>)        // keys validate accepted, and |marks| at their look-up

  function PcOf(s: State, p: nat): Pc {
    if p in s.pcs then s.pcs[p] else Idle
  }

  /** A manager process: its signing key and its configuration. */
  datatype Process = Process(key: nat, config: Config)

  datatype World = World(digest: Digest, show: Shown, process: nat -> Process)

  const INITIAL := State(Db(0, map[], {}), None, map[], {}, {}, map[], [], [], {}, [], [], [])

  // ---- steps ----

  /** A step with what it computes or decides: `Guard` says when the process may take it,
      `Computed` that its receipts and decisions are the code's, `After` what it does. */
  datatype Action =
    | StartAdmission(draft: Draft)
    | Lock
    | ReadRow
    | WriteRow
    | Commit
    | SignAdmission(made: Receipt, hex: string)
    | SignFinalized(source: Receipt, response: Value, made: Receipt, hex: string)
    | SignUnavailable(source: Receipt, made: Receipt, hex: string)
    | StartValidate(receipt: Receipt, options: Options, key: nat, now: int)
    | StartConsume(receipt: Receipt, now: int)
    | LookUp
    | Finish(accepted: bool)
    | SignConsumed(made: Receipt, hex: string)
    | SaveRow
    | Fail                          // raise, crash or restart

  predicate HoldsLock(pc: Pc) {
    pc.NumberTx? || pc.NumberRead? || pc.NumberWritten? || pc.ConsumeTx? || pc.ConsumeFree? || pc.ConsumeWritten?
  }

  predicate Guard(s: State, p: nat, a: Action) {
    var pc := PcOf(s, p);
    match a
    case StartAdmission(d) => pc.Idle? && d.nonce !in s.nonces
    case Lock => (pc.Numbering? || pc.Consuming?) && s.lock == None
    case ReadRow => pc.NumberTx? || (pc.ConsumeTx? && HasReplayKey(pc.receipt))
    case WriteRow => pc.NumberRead? || pc.ConsumeFree?
    case Commit => pc.NumberWritten? || (pc.ConsumeWritten? && HasReplayKey(pc.receipt))
    case SignAdmission(_, _) => pc.NumberTaken?
    case SignFinalized(_, _, _, _) => pc.Idle?
    case SignUnavailable(_, _, _) => pc.Idle?
    case StartValidate(_, _, _, _) => pc.Idle?
    case StartConsume(_, _) => pc.Idle?
    case LookUp => pc.Looking? && HasReplayKey(pc.receipt)
    case Finish(_) => pc.Cleared? && HasReplayKey(pc.receipt)
    case SignConsumed(_, _) => pc.ConsumeDone? && HasReplayKey(pc.receipt)
    case SaveRow => pc.Saving? && Storable(pc.receipt) && s.lock == None
    case Fail => true
  }

  /** The bytes of r were signed under the key. */
  ghost predicate SignedBytes(s: State, key: nat, r: Receipt) {
    Signable(r) && exists g | g in s.signings :: g.key == key && Signable(g.receipt) && Payload(g.receipt) == Payload(r)
  }

  /** All checks `validate` makes before the look-up, the signature being ideal. */
  ghost predicate PassesBefore(s: State, key: nat, r: Receipt, o: Options, now: int) {
    Complete(r) && GuardsBefore(Verified, r, o, now).Accepted? && SignedBytes(s, key, r)
  }

  /** The receipt handed to finalize or mark_unavailable was issued earlier, or is a copy. */
  ghost predicate WasIssued(s: State, r: Receipt) {
    exists g | g in s.signings :: AgreeOnSigned(g.receipt, r)
  }

  ghost predicate Computed(w: World, s: State, p: nat, a: Action) {
    var pc, me := PcOf(s, p), w.process(p);
    match a
    case SignAdmission(made, _) =>
      pc.NumberTaken? &&
      made == Admission(w.digest, w.show, me.config, pc.draft.command, pc.draft.decision, pc.draft.now,
        pc.draft.nonce, pc.n)
    case SignFinalized(r, response, made, _) => WasIssued(s, r) && made == Finalized(w.digest, r, response)
    case SignUnavailable(r, made, _) => WasIssued(s, r) && made == WithStatus(r, "unavailable")
    case StartValidate(r, o, key, now) => PassesBefore(s, key, r, o, now)
    case StartConsume(r, now) => PassesBefore(s, me.key, r, ConsumeOptions(me.config), now)
    case Finish(accepted) =>
      pc.Cleared? && Signable(pc.receipt) &&
      (accepted <==> CheckAfter(w.digest, w.show, pc.receipt, pc.options).Accepted?)
    case SignConsumed(made, _) => pc.ConsumeDone? && made == WithStatus(pc.receipt, "consumed")
    case _ => true
  }

  ghost predicate Enabled(w: World, s: State, p: nat, a: Action) {
    Guard(s, p, a) && Computed(w, s, p, a)
  }

  function After(w: World, s: State, p: nat, a: Action): State
    requires Guard(s, p, a)
  {
    var pc := PcOf(s, p);
    match a
    case StartAdmission(d) => Moved(s, p, Numbering(d)).(nonces := s.nonces + {d.nonce})
    case Lock =>
      Moved(s, p, if pc.Numbering? then NumberTx(pc.draft) else ConsumeTx(pc.receipt)).(lock := Some(p))
    case ReadRow =>
      if pc.NumberTx? then Moved(s, p, NumberRead(pc.draft, s.db.sequence + 1))
      else if KeyOf(pc.receipt) in s.db.consumed then Moved(s, p, Idle).(lock := None)  // ROLLBACK, raise
      else Moved(s, p, ConsumeFree(pc.receipt))
    case WriteRow =>
      Moved(s, p, if pc.NumberRead? then NumberWritten(pc.draft, pc.n) else ConsumeWritten(pc.receipt))
    case Commit =>
      if pc.NumberWritten? then AfterNumberCommit(s, p, pc.draft, pc.n) else AfterMarkCommit(s, p, pc.receipt)
    case SignAdmission(made, hex) =>
      var t := AfterSign(s, p, w.process(p).key, made, Admitting, hex).(used := s.used + [pc.n]);
      if HasReplayKey(made) then t.(origins := s.origins[KeyOf(made) := made]) else t
    case SignFinalized(_, _, made, hex) => AfterSign(s, p, w.process(p).key, made, Finalizing, hex)
    case SignUnavailable(_, made, hex) => AfterSign(s, p, w.process(p).key, made, Retiring, hex)
    case StartValidate(r, o, _, _) => Moved(s, p, Looking(r, o, false))
    case StartConsume(r, _) => Moved(s, p, Looking(r, ConsumeOptions(w.process(p).config), true))
    case LookUp =>
      Moved(s, p, if KeyOf(pc.receipt) in s.db.consumed then Idle
                  else Cleared(pc.receipt, pc.options, pc.consuming, |s.marks|))
    case Finish(accepted) =>
      if !accepted then Moved(s, p, Idle)
      else if pc.consuming then Moved(s, p, Consuming(pc.receipt))
      else Moved(s, p, Idle).(accepts := s.accepts + [Acceptance(KeyOf(pc.receipt), pc.at)])
    case SignConsumed(made, hex) =>
      AfterSign(s, p, w.process(p).key, made, Returning(KeyOf(pc.receipt)), hex)
    case SaveRow => AfterSave(s, p, pc.receipt, pc.purpose)
    case Fail => AfterFail(s, p)
  }

  function Moved(s: State, p: nat, pc: Pc): State {
    s.(pcs := s.pcs[p := pc])
  }

  function AfterNumberCommit(s: State, p: nat, d: Draft, n: nat): State {
    Moved(s, p, NumberTaken(d, n)).(db := s.db.(sequence := n), lock := None, commits := s.commits + [n])
  }

  function AfterMarkCommit(s: State, p: nat, r: Receipt): State
    requires HasReplayKey(r)
  {
    Moved(s, p, ConsumeDone(r)).(db := Mark(s.db, KeyOf(r)), lock := None, marks := s.marks + [KeyOf(r)])
  }

  function AfterSign(s: State, p: nat, key: nat, made: Receipt, purpose: Purpose, hex: string): State {
    Moved(s, p, Saving(WithSignature(made, hex), purpose)).(signings := s.signings + {Signed(key, made)})
  }

  function AfterSave(s: State, p: nat, r: Receipt, purpose: Purpose): State
    requires Storable(r)
  {
    Moved(s, p, Idle).(
      db := Save(s.db, r),
      successes := if purpose.Returning? then s.successes + [purpose.key] else s.successes)
  }

  function AfterFail(s: State, p: nat): State {
    var pc := PcOf(s, p);
    Moved(s, p, Idle).(
      lock := if HoldsLock(pc) then None else s.lock,
      burnt := if pc.NumberTaken? then s.burnt + {pc.n} else s.burnt)
  }
}
