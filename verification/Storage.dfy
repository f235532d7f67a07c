/** The durable tables `meta`, `evidence` and `consumed`: what each transaction does to
    them, and the store object whose methods run the transactions. */
module Storage {
  import opened Text
  import opened Json
  import opened Canonical
  import opened Binding
  import opened Receipts

  datatype ReplayKey = ReplayKey(issuer: string, nonce: string)

  datatype RowKey = RowKey(key: ReplayKey, status: string)

  /** Committed contents. An evidence row is the stored dictionary; its other columns are
      fields of it. */
  datatype Db = Db(sequence: nat, evidence: map<RowKey, Receipt>, consumed: set<ReplayKey>)

  predicate HasText(r: Receipt, f: Field) {
    f in r.fields && r.fields[f].Str?
  }

  predicate HasReplayKey(r: Receipt) {
    HasText(r, Issuer) && HasText(r, Nonce)
  }

  function KeyOf(r: Receipt): ReplayKey
    requires HasReplayKey(r)
  {
    ReplayKey(r.fields[Issuer].s, r.fields[Nonce].s)
  }

  /** The columns are NOT NULL and hold scalars; sequence goes through int(). */
  predicate Storable(r: Receipt) {
    && HasReplayKey(r) && HasText(r, ReceiptStatus) && HasText(r, Verdict)
    && Sequence in r.fields && r.fields[Sequence].Int?
    && TraceId in r.fields && !r.fields[TraceId].Null? && !Unhashable(r.fields[TraceId])
  }

  function RowOf(r: Receipt): RowKey
    requires Storable(r)
  {
    RowKey(KeyOf(r), r.fields[ReceiptStatus].s)
  }

  /** INSERT OR REPLACE under the primary key (issuer, nonce, status). */
  function Save(db: Db, r: Receipt): Db
    requires Storable(r)
  {
    db.(evidence := db.evidence[RowOf(r) := r])
  }

  /** The evidence table holds r in its row. */
  predicate Holds(db: Db, r: Receipt) {
    Storable(r) && RowOf(r) in db.evidence && db.evidence[RowOf(r)] == r
  }

  function Mark(db: Db, key: ReplayKey): Db {
    db.(consumed := db.consumed + {key})
  }

  function Numbered(db: Db): Db {
    db.(sequence := db.sequence + 1)
  }

  /** `validate`: the local checks, the replay look-up when there is a store, the rest. */
  function Validate(h: Digest, show: Shown, verify: Verifying, r: Receipt, o: Options,
                    now: int, replay: Option<set<ReplayKey>>): Outcome
  {
    var before := CheckBefore(verify, r, o, now);
    if before.Rejected? then before
    else if replay.Some? && !HasReplayKey(r) then Rejected(TypeError)
    else if replay.Some? && KeyOf(r) in replay.value then Rejected(Replayed)
    else CheckAfter(h, show, r, o)
  }

  /** What `consume` accepts: complete, verified, of this audience, not expired, not spent, an
      allow, and not consumed as far as there is a store to tell. */
  lemma ConsumeAccepts(h: Digest, show: Shown, verify: Verifying, r: Receipt, cfg: Config,
                       now: int, replay: Option<set<ReplayKey>>)
    ensures Validate(h, show, verify, r, ConsumeOptions(cfg), now, replay).Accepted? <==>
      Consumable(verify, r, cfg, now) && (replay.Some? ==> HasReplayKey(r) && KeyOf(r) !in replay.value)
  {
    ValidateStages(h, show, verify, r, ConsumeOptions(cfg), now, replay);
    BeforeAccepts(verify, r, ConsumeOptions(cfg), now);
    if Signable(r) {
      AfterAccepts(h, show, r, ConsumeOptions(cfg));
    }
  }

  lemma ValidateStages(h: Digest, show: Shown, verify: Verifying, r: Receipt, o: Options,
                       now: int, replay: Option<set<ReplayKey>>)
    ensures Validate(h, show, verify, r, o, now, replay).Accepted? <==>
      && CheckBefore(verify, r, o, now).Accepted? && CheckAfter(h, show, r, o).Accepted?
      && (replay.Some? ==> HasReplayKey(r) && KeyOf(r) !in replay.value)
  {
  }

  lemma AcceptedIsConsumable(h: Digest, show: Shown, verify: Verifying, r: Receipt, cfg: Config,
                             now: int, replay: Option<set<ReplayKey>>)
    requires Validate(h, show, verify, r, ConsumeOptions(cfg), now, replay).Accepted?
    ensures Consumable(verify, r, cfg, now)
  {
    ConsumeAccepts(h, show, verify, r, cfg, now, replay);
  }

  predicate Consumable(verify: Verifying, r: Receipt, cfg: Config, now: int) {
    && Complete(r) && CheckSignature(verify, r).Verified?
    && (cfg.audience != "" ==> r.fields[Audience] == Str(cfg.audience))
    && Number(r.fields[ExpiresAt]).Some? && now <= Number(r.fields[ExpiresAt]).value
    && StatusOk(r.fields[ReceiptStatus]) && r.fields[Verdict] == Str("allow")
  }

  /** Retired and consumed copies never validate again, under any options and with any key. */
  lemma SpentIsRefused(h: Digest, show: Shown, sign: Signing, verify: Verifying, r: Receipt, o: Options,
                       now: int, replay: Option<set<ReplayKey>>, status: string)
    requires Signable(r) && status in {"consumed", "unavailable"}
    ensures Validate(h, show, verify, SignedBy(sign, WithStatus(r, status)), o, now, replay).Rejected?
  {
    BeforeAccepts(verify, SignedBy(sign, WithStatus(r, status)), o, now);
  }

  /** Command binding: when a receipt issued for c validates against the command d, d is the same
      call, or its wire form or its parameters collide with c's under the digest; and the two
      tools are spelt alike in any case. */
  lemma ValidatedBindsCommand(h: Digest, show: Shown, verify: Verifying, r: Receipt, o: Options,
                              now: int, replay: Option<set<ReplayKey>>, c: Command)
    requires IssuedFor(h, show, r, c) && o.expectedCommand.Some?
    requires Validate(h, show, verify, r, o, now, replay).Accepted?
    ensures var d := o.expectedCommand.value;
      && (SameCall(c, d) || Collision(h, CanonicalBytes(Wire(c)), CanonicalBytes(Wire(d))))
      && (Equal(c.params, d.params) || Collision(h, CanonicalBytes(c.params), CanonicalBytes(d.params)))
      && show(c.tool) == show(d.tool)
  {
    AcceptedMatches(h, show, verify, r, o, now, replay);
    AcceptedCommand(h, show, r, c, o.expectedCommand.value);
  }

  lemma AcceptedMatches(h: Digest, show: Shown, verify: Verifying, r: Receipt, o: Options,
                        now: int, replay: Option<set<ReplayKey>>)
    requires Validate(h, show, verify, r, o, now, replay).Accepted? && o.expectedCommand.Some?
    ensures Signable(r) && CommandMatches(h, show, r, o.expectedCommand.value)
  {
  }

  /** Replay is refused exactly where there is a store: with one, `validate` accepts what it
      would accept without, save for the keys the store has as consumed. */
  lemma ReplayDecides(h: Digest, show: Shown, verify: Verifying, r: Receipt, o: Options, now: int,
                      consumed: set<ReplayKey>)
    requires HasReplayKey(r)
    ensures Validate(h, show, verify, r, o, now, Some(consumed)).Accepted? <==>
      Validate(h, show, verify, r, o, now, None).Accepted? && KeyOf(r) !in consumed
  {
  }

  /** The store object. A transaction that cannot get the write lock in time raises; that is
      None or false here, and leaves the tables as they were. */
  class SQLiteStore {
    var sequence: nat
    var evidence: map<RowKey, Receipt>
    var consumed: set<ReplayKey>

    function View(): Db
      reads this
    {
      Db(sequence, evidence, consumed)
    }

    constructor ()
      ensures View() == Db(0, map[], {})
    {
      sequence, evidence, consumed := 0, map[], {};
    }

    method NextSequence() returns (n: Option<nat>)
      modifies this
      ensures n == None ==> View() == old(View())
      ensures n.Some? ==> View() == Numbered(old(View())) && n.value == sequence
    {
      var locked: bool := *;
      if !locked {
        return None;
      }
      var row := sequence;
      sequence := row + 1;
      n := Some(row + 1);
    }

    method SaveReceipt(r: Receipt) returns (ok: bool)
      modifies this
      ensures !ok ==> View() == old(View())
      ensures ok ==> Storable(r) && View() == Save(old(View()), r)
    {
      var written: bool := *;
      ok := written && Storable(r);
      if ok {
        evidence := evidence[RowOf(r) := r];
      }
    }

    method IsConsumed(key: ReplayKey) returns (b: bool)
      ensures b <==> key in View().consumed
    {
      b := key in consumed;
    }

    method MarkConsumed(key: ReplayKey) returns (ok: bool)
      modifies this
      ensures !ok ==> View() == old(View())
      ensures ok ==> key !in old(View()).consumed && View() == Mark(old(View()), key)
      ensures key in old(View()).consumed ==> !ok
    {
      var locked: bool := *;
      if !locked || key in consumed {
        return false;
      }
      consumed := consumed + {key};
      ok := true;
    }
  }
}
