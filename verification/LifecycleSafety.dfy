/** What every step of the lifecycle keeps, and what follows for whole runs. */
module LifecycleSafety {
  import opened Text
  import opened Canonical
  import opened Binding
  import opened Receipts
  import opened Storage
  import opened Lifecycle

  // ---- what a step touches ----

  lemma OthersStay(w: World, s: State, p: nat, a: Action)
    requires Guard(s, p, a)
    ensures forall q: nat | q != p :: PcOf(After(w, s, p, a), q) == PcOf(s, q)
  {
  }

  /** Only a commit changes what transactions read, and only inside one. */
  lemma TablesFrame(w: World, s: State, p: nat, a: Action)
    requires Guard(s, p, a)
    ensures var t := After(w, s, p, a);
      HoldsLock(PcOf(s, p)) || (t.db.sequence == s.db.sequence && t.db.consumed == s.db.consumed)
  {
  }

  lemma LockFrame(w: World, s: State, p: nat, a: Action)
    requires Guard(s, p, a)
    ensures HoldsLock(PcOf(s, p)) || s.lock == None || After(w, s, p, a).lock == s.lock
  {
  }

  lemma LockHeld(w: World, s: State, p: nat, a: Action)
    requires Guard(s, p, a) && (HoldsLock(PcOf(s, p)) ==> s.lock == Some(p))
    ensures HoldsLock(PcOf(After(w, s, p, a), p)) ==> After(w, s, p, a).lock == Some(p)
  {
  }

  lemma ViewMoves(w: World, s: State, p: nat, a: Action)
    requires Guard(s, p, a) && TxView(s, PcOf(s, p))
    ensures TxView(After(w, s, p, a), PcOf(After(w, s, p, a), p))
  {
  }

  // ---- the write lock ----

  predicate Distinct<T(==)>(xs: seq<T>) {
    forall i, j | 0 <= i < j < |xs| :: xs[i] != xs[j]
  }

  /** What a process inside a transaction has read is still so. */
  predicate TxView(s: State, pc: Pc) {
    match pc
    case NumberRead(_, n) => n == s.db.sequence + 1
    case NumberWritten(_, n) => n == s.db.sequence + 1
    case ConsumeFree(r) => HasReplayKey(r) && KeyOf(r) !in s.db.consumed
    case ConsumeWritten(r) => HasReplayKey(r) && KeyOf(r) !in s.db.consumed
    case _ => true
  }

  ghost predicate LockInv(s: State) {
    && (forall p: nat :: HoldsLock(PcOf(s, p)) ==> s.lock == Some(p))
    && (forall p: nat :: TxView(s, PcOf(s, p)))
  }

  /** A step of p leaves other processes alone, and changes what a transaction reads or who
      holds the lock only when no other process holds it. */
  lemma OthersUndisturbed(s: State, t: State, p: nat)
    requires LockInv(s)
    requires forall q: nat | q != p :: PcOf(t, q) == PcOf(s, q)
    requires s.lock == None || s.lock == Some(p)
      || (t.lock == s.lock && t.db.sequence == s.db.sequence && t.db.consumed == s.db.consumed)
    requires HoldsLock(PcOf(t, p)) ==> t.lock == Some(p)
    requires TxView(t, PcOf(t, p))
    ensures LockInv(t)
  {
    forall q: nat ensures (HoldsLock(PcOf(t, q)) ==> t.lock == Some(q)) && TxView(t, PcOf(t, q)) {
      assert HoldsLock(PcOf(s, q)) ==> s.lock == Some(q);
      assert TxView(s, PcOf(s, q));
    }
  }

  lemma LockKept(w: World, s: State, p: nat, a: Action)
    requires LockInv(s) && Guard(s, p, a)
    ensures LockInv(After(w, s, p, a))
  {
    assert (HoldsLock(PcOf(s, p)) ==> s.lock == Some(p)) && TxView(s, PcOf(s, p));
    OthersStay(w, s, p, a);
    TablesFrame(w, s, p, a);
    LockFrame(w, s, p, a);
    LockHeld(w, s, p, a);
    ViewMoves(w, s, p, a);
    OthersUndisturbed(s, After(w, s, p, a), p);
  }

  // ---- sequence numbers ----

  ghost predicate Takes(s: State, p: nat, n: nat) {
    PcOf(s, p).NumberTaken? && PcOf(s, p).n == n
  }

  ghost predicate InRange(s: State, n: nat) {
    1 <= n <= s.db.sequence
  }

  ghost predicate NumberInv(s: State) {
    && |s.commits| == s.db.sequence && (forall i | 0 <= i < |s.commits| :: s.commits[i] == i + 1)
    && Distinct(s.used) && (forall n | n in s.used :: InRange(s, n))
    && (forall n | n in s.burnt :: InRange(s, n) && n !in s.used)
    && (forall p, n | Takes(s, p, n) :: InRange(s, n) && n !in s.used && n !in s.burnt)
    && (forall p, q, n | Takes(s, p, n) && Takes(s, q, n) :: p == q)
    && (forall n | InRange(s, n) :: n in s.used || n in s.burnt || exists p :: Takes(s, p, n))
  }

  /** The steps that change the counter, its history or who holds a number. */
  predicate TouchesNumbers(s: State, p: nat, a: Action) {
    (a.Commit? && PcOf(s, p).NumberWritten?) || a.SignAdmission? || (a.Fail? && PcOf(s, p).NumberTaken?)
  }

  lemma CountersFrame(w: World, s: State, p: nat, a: Action)
    requires Guard(s, p, a) && !TouchesNumbers(s, p, a)
    ensures var t := After(w, s, p, a);
      t.commits == s.commits && t.used == s.used && t.burnt == s.burnt && t.db.sequence == s.db.sequence
  {
  }

  lemma HolderFrame(w: World, s: State, p: nat, a: Action)
    requires Guard(s, p, a) && !TouchesNumbers(s, p, a)
    ensures !PcOf(s, p).NumberTaken? && !PcOf(After(w, s, p, a), p).NumberTaken?
  {
  }

  lemma NumberQuiet(s: State, t: State, p: nat)
    requires NumberInv(s) && (forall q: nat | q != p :: PcOf(t, q) == PcOf(s, q))
    requires !PcOf(s, p).NumberTaken? && !PcOf(t, p).NumberTaken?
    requires t.commits == s.commits && t.used == s.used && t.burnt == s.burnt && t.db.sequence == s.db.sequence
    ensures NumberInv(t)
  {
    forall q, n ensures Takes(t, q, n) <==> Takes(s, q, n) {
      assert q != p ==> PcOf(t, q) == PcOf(s, q);
    }
    assert forall n :: InRange(t, n) <==> InRange(s, n);
  }

  lemma NumberKept(w: World, s: State, p: nat, a: Action)
    requires LockInv(s) && NumberInv(s) && Guard(s, p, a)
    ensures NumberInv(After(w, s, p, a))
  {
    var pc := PcOf(s, p);
    assert TxView(s, pc);
    if a.Commit? && pc.NumberWritten? {
      NumberCommitKept(s, p, pc.draft, pc.n);
    } else if a.SignAdmission? {
      NumberUseKept(w, s, p, a);
    } else if a.Fail? && pc.NumberTaken? {
      NumberFailKept(s, p);
    } else {
      OthersStay(w, s, p, a);
      CountersFrame(w, s, p, a);
      HolderFrame(w, s, p, a);
      NumberQuiet(s, After(w, s, p, a), p);
    }
  }

  lemma NumberCommitKept(s: State, p: nat, d: Draft, n: nat)
    requires NumberInv(s) && n == s.db.sequence + 1 && PcOf(s, p).NumberWritten?
    ensures NumberInv(AfterNumberCommit(s, p, d, n))
  {
    var t := AfterNumberCommit(s, p, d, n);
    forall q, m ensures Takes(t, q, m) <==> Takes(s, q, m) || (q == p && m == n) {
      assert q != p ==> PcOf(t, q) == PcOf(s, q);
    }
    assert forall m :: InRange(t, m) <==> InRange(s, m) || m == n;
    forall m | InRange(t, m) ensures m in t.used || m in t.burnt || exists q :: Takes(t, q, m) {
      if m == n {
        assert Takes(t, p, n);
      } else if m !in s.used && m !in s.burnt {
        var q :| Takes(s, q, m);
        assert Takes(t, q, m);
      }
    }
  }

  lemma NumberUseKept(w: World, s: State, p: nat, a: Action)
    requires NumberInv(s) && a.SignAdmission? && Guard(s, p, a)
    ensures NumberInv(After(w, s, p, a))
  {
    var t, k := After(w, s, p, a), PcOf(s, p).n;
    assert Takes(s, p, k);
    assert t.used == s.used + [k] && t.db == s.db && t.burnt == s.burnt && t.commits == s.commits;
    forall q, n ensures Takes(t, q, n) <==> Takes(s, q, n) && q != p {
      assert q != p ==> PcOf(t, q) == PcOf(s, q);
    }
    forall n | InRange(t, n) ensures n in t.used || n in t.burnt || exists q :: Takes(t, q, n) {
      assert InRange(s, n);
      if n !in s.used && n !in s.burnt && n != k {
        var q :| Takes(s, q, n);
        assert Takes(t, q, n);
      }
    }
  }

  lemma NumberFailKept(s: State, p: nat)
    requires NumberInv(s) && PcOf(s, p).NumberTaken?
    ensures NumberInv(AfterFail(s, p))
  {
    var t, k := AfterFail(s, p), PcOf(s, p).n;
    assert Takes(s, p, k);
    forall q, n ensures Takes(t, q, n) <==> Takes(s, q, n) && q != p {
      assert q != p ==> PcOf(t, q) == PcOf(s, q);
    }
    forall n | InRange(t, n) ensures n in t.used || n in t.burnt || exists q :: Takes(t, q, n) {
      assert InRange(s, n);
      if n !in s.used && n !in s.burnt && n != k {
        var q :| Takes(s, q, n);
        assert Takes(t, q, n);
      }
    }
  }

  // ---- replay keys ----

  /** The key a process has consumed but not yet returned a receipt for. */
  function Claim(pc: Pc): Option<ReplayKey> {
    match pc
    case ConsumeDone(r) => if HasReplayKey(r) then Some(KeyOf(r)) else None
    case Saving(_, Returning(k)) => Some(k)
    case _ => None
  }

  ghost predicate Claims(s: State, p: nat, k: ReplayKey) {
    Claim(PcOf(s, p)) == Some(k)
  }

  /** The look-up came before any commit for the key. */
  predicate ReadBefore(s: State, k: ReplayKey, at: nat) {
    at <= |s.marks| && k !in s.marks[..at]
  }

  predicate ClearedInv(s: State, pc: Pc) {
    pc.Cleared? ==> HasReplayKey(pc.receipt) && ReadBefore(s, KeyOf(pc.receipt), pc.at)
  }

  ghost predicate MarkInv(s: State) {
    && (forall k :: k in s.db.consumed <==> k in s.marks)
    && Distinct(s.marks)
    && Distinct(s.successes) && (forall k | k in s.successes :: k in s.marks)
    && (forall p, k | Claims(s, p, k) :: k in s.marks && k !in s.successes)
    && (forall p, q, k | Claims(s, p, k) && Claims(s, q, k) :: p == q)
    && (forall p :: ClearedInv(s, PcOf(s, p)))
    && (forall e | e in s.accepts :: ReadBefore(s, e.key, e.at))
  }

  /** The steps that change the replay table, its history or a claim. */
  predicate TouchesMarks(s: State, p: nat, a: Action) {
    (a.Commit? && PcOf(s, p).ConsumeWritten?) || a.SaveRow? || a.SignConsumed?
  }

  lemma MarksFrame(w: World, s: State, p: nat, a: Action)
    requires Guard(s, p, a) && !TouchesMarks(s, p, a)
    ensures var t := After(w, s, p, a);
      t.db.consumed == s.db.consumed && t.marks == s.marks && t.successes == s.successes
  {
  }

  lemma ClaimsFrame(w: World, s: State, p: nat, a: Action)
    requires Guard(s, p, a) && !TouchesMarks(s, p, a)
    ensures Claim(PcOf(After(w, s, p, a), p)) == None
  {
  }

  lemma ClearedMoves(w: World, s: State, p: nat, a: Action)
    requires Guard(s, p, a) && !TouchesMarks(s, p, a) && ClearedInv(s, PcOf(s, p))
    requires forall k :: k in s.db.consumed <==> k in s.marks
    ensures ClearedInv(After(w, s, p, a), PcOf(After(w, s, p, a), p))
  {
    MarksFrame(w, s, p, a);
    if a.LookUp? && KeyOf(PcOf(s, p).receipt) !in s.db.consumed {
      assert s.marks[..|s.marks|] == s.marks;
    }
  }

  lemma AcceptsFrame(w: World, s: State, p: nat, a: Action)
    requires Guard(s, p, a) && ClearedInv(s, PcOf(s, p))
    ensures forall e | e in After(w, s, p, a).accepts :: e in s.accepts || ReadBefore(s, e.key, e.at)
  {
  }

  lemma MarkKept(w: World, s: State, p: nat, a: Action)
    requires LockInv(s) && MarkInv(s) && Guard(s, p, a)
    ensures MarkInv(After(w, s, p, a))
  {
    if TouchesMarks(s, p, a) {
      MarkTouchedKept(w, s, p, a);
    } else {
      assert ClearedInv(s, PcOf(s, p));
      OthersStay(w, s, p, a);
      MarksFrame(w, s, p, a);
      ClaimsFrame(w, s, p, a);
      ClearedMoves(w, s, p, a);
      AcceptsFrame(w, s, p, a);
      QuietKept(s, After(w, s, p, a), p);
    }
  }

  lemma MarkTouchedKept(w: World, s: State, p: nat, a: Action)
    requires LockInv(s) && MarkInv(s) && Guard(s, p, a) && TouchesMarks(s, p, a)
    ensures MarkInv(After(w, s, p, a))
  {
    var pc := PcOf(s, p);
    assert TxView(s, pc);
    if a.Commit? {
      MarkCommitKept(s, p, pc.receipt);
    } else if a.SaveRow? {
      MarkSaveKept(s, p, pc.receipt, pc.purpose);
    } else {
      MarkSignKept(s, p, w.process(p).key, a.made, a.hex);
    }
  }

  lemma MarkSignKept(s: State, p: nat, key: nat, made: Receipt, hex: string)
    requires MarkInv(s) && PcOf(s, p).ConsumeDone? && HasReplayKey(PcOf(s, p).receipt)
    ensures MarkInv(AfterSign(s, p, key, made, Returning(KeyOf(PcOf(s, p).receipt)), hex))
  {
    var t := AfterSign(s, p, key, made, Returning(KeyOf(PcOf(s, p).receipt)), hex);
    forall q, k ensures Claims(t, q, k) <==> Claims(s, q, k) {
      assert q != p ==> PcOf(t, q) == PcOf(s, q);
    }
    ReadersKept(s, t, p);
  }

  lemma ReadersKept(s: State, t: State, p: nat)
    requires MarkInv(s) && t.marks == s.marks && ClearedInv(t, PcOf(t, p))
    requires forall q | q != p :: PcOf(t, q) == PcOf(s, q)
    ensures forall q :: ClearedInv(t, PcOf(t, q))
  {
    forall q ensures ClearedInv(t, PcOf(t, q)) {
      assert ClearedInv(s, PcOf(s, q));
    }
  }

  /** Steps that leave the replay table and its history alone, save for an acceptance. */
  lemma QuietKept(s: State, t: State, p: nat)
    requires MarkInv(s)
    requires t.db.consumed == s.db.consumed && t.marks == s.marks && t.successes == s.successes
    requires forall q | q != p :: PcOf(t, q) == PcOf(s, q)
    requires Claim(PcOf(t, p)) == None
    requires ClearedInv(t, PcOf(t, p))
    requires forall e | e in t.accepts :: e in s.accepts || ReadBefore(s, e.key, e.at)
    ensures MarkInv(t)
  {
    forall q, k ensures Claims(t, q, k) ==> Claims(s, q, k) {
    }
    ReadersKept(s, t, p);
  }

  lemma MarkCommitKept(s: State, p: nat, r: Receipt)
    requires MarkInv(s) && PcOf(s, p).ConsumeWritten? && HasReplayKey(r) && KeyOf(r) !in s.db.consumed
    ensures MarkInv(AfterMarkCommit(s, p, r))
  {
    var t, key := AfterMarkCommit(s, p, r), KeyOf(r);
    forall q, k ensures Claims(t, q, k) <==> Claims(s, q, k) || (q == p && k == key) {
      assert q != p ==> PcOf(t, q) == PcOf(s, q);
    }
    forall k, at: nat | ReadBefore(s, k, at) ensures ReadBefore(t, k, at) {
      assert t.marks[..at] == s.marks[..at];
    }
    forall q ensures ClearedInv(t, PcOf(t, q)) {
      assert q != p ==> PcOf(t, q) == PcOf(s, q);
      assert ClearedInv(s, PcOf(s, q));
    }
  }

  lemma MarkSaveKept(s: State, p: nat, r: Receipt, purpose: Purpose)
    requires MarkInv(s) && PcOf(s, p) == Saving(r, purpose) && Storable(r)
    ensures MarkInv(AfterSave(s, p, r, purpose))
  {
    var t := AfterSave(s, p, r, purpose);
    if purpose.Returning? {
      assert Claims(s, p, purpose.key);
    }
    forall q, k ensures Claims(t, q, k) <==> Claims(s, q, k) && q != p {
      assert q != p ==> PcOf(t, q) == PcOf(s, q);
    }
    ReadersKept(s, t, p);
  }

  // ---- nonces ----

  function DraftNonce(pc: Pc): Option<string> {
    match pc
    case Numbering(d) => Some(d.nonce)
    case NumberTx(d) => Some(d.nonce)
    case NumberRead(d, _) => Some(d.nonce)
    case NumberWritten(d, _) => Some(d.nonce)
    case NumberTaken(d, _) => Some(d.nonce)
    case _ => None
  }

  ghost predicate Drafts(s: State, p: nat, x: string) {
    DraftNonce(PcOf(s, p)) == Some(x)
  }

  ghost predicate NonceInv(s: State) {
    && (forall p, x | Drafts(s, p, x) :: x in s.nonces)
    && (forall p, q, x | Drafts(s, p, x) && Drafts(s, q, x) :: p == q)
    && (forall k | k in s.origins :: k.nonce in s.nonces)
    && (forall p, x, k | Drafts(s, p, x) && k in s.origins :: k.nonce != x)
  }

  lemma DraftMoves(w: World, s: State, p: nat, a: Action)
    requires Guard(s, p, a)
    ensures var now := DraftNonce(PcOf(After(w, s, p, a), p));
      || now == None || (a.StartAdmission? && now == Some(a.draft.nonce))
      || (now == DraftNonce(PcOf(s, p)) && !a.StartAdmission? && !a.SignAdmission?)
  {
  }

  lemma NoncesFrame(w: World, s: State, p: nat, a: Action)
    requires Guard(s, p, a)
    ensures After(w, s, p, a).nonces == s.nonces + if a.StartAdmission? then {a.draft.nonce} else {}
  {
  }

  lemma OriginsFrame(w: World, s: State, p: nat, a: Action)
    requires Guard(s, p, a)
    ensures After(w, s, p, a).origins ==
      if a.SignAdmission? && HasReplayKey(a.made) then s.origins[KeyOf(a.made) := a.made] else s.origins
  {
  }

  lemma NonceKept(w: World, s: State, p: nat, a: Action)
    requires NonceInv(s) && Guard(s, p, a)
    requires a.SignAdmission? ==> HasReplayKey(a.made) && Drafts(s, p, KeyOf(a.made).nonce)
    ensures NonceInv(After(w, s, p, a))
  {
    OthersStay(w, s, p, a);
    DraftMoves(w, s, p, a);
    NoncesFrame(w, s, p, a);
    OriginsFrame(w, s, p, a);
    NonceFollows(s, After(w, s, p, a), p, a);
  }

  lemma NonceFollows(s: State, t: State, p: nat, a: Action)
    requires NonceInv(s) && (forall q: nat | q != p :: PcOf(t, q) == PcOf(s, q))
    requires var now := DraftNonce(PcOf(t, p));
      || now == None || (a.StartAdmission? && now == Some(a.draft.nonce))
      || (now == DraftNonce(PcOf(s, p)) && !a.StartAdmission? && !a.SignAdmission?)
    requires a.StartAdmission? ==> a.draft.nonce !in s.nonces
    requires t.nonces == s.nonces + if a.StartAdmission? then {a.draft.nonce} else {}
    requires a.SignAdmission? ==> HasReplayKey(a.made) && Drafts(s, p, KeyOf(a.made).nonce)
    requires t.origins == if a.SignAdmission? then s.origins[KeyOf(a.made) := a.made] else s.origins
    ensures NonceInv(t)
  {
    forall q, x | Drafts(t, q, x)
      ensures (Drafts(s, q, x) && !(a.SignAdmission? && q == p)) || (a.StartAdmission? && q == p && x == a.draft.nonce)
    {
      assert q != p ==> PcOf(t, q) == PcOf(s, q);
    }
  }

  // ---- lineage: every receipt descends from one admission ----

  /** The receipt keeps the 19 core fields of the admission of its key, and has status
      consumed only if the key was consumed and the verdict is allow. */
  ghost predicate Lineage(s: State, r: Receipt) {
    && Signable(r) && HasReplayKey(r) && KeyOf(r) in s.origins && SameCore(s.origins[KeyOf(r)], r)
    && (IsText(r, ReceiptStatus, "consumed") ==> KeyOf(r) in s.db.consumed && IsText(r, Verdict, "allow"))
  }

  ghost predicate PcLineage(s: State, pc: Pc) {
    match pc
    case Saving(r, _) => Lineage(s, r)
    case Looking(r, o, consuming) => Lineage(s, r) && (consuming ==> o.requireAuthorizing)
    case Cleared(r, o, consuming, _) => Lineage(s, r) && (consuming ==> o.requireAuthorizing)
    case Consuming(r) => Lineage(s, r) && IsText(r, Verdict, "allow")
    case ConsumeTx(r) => Lineage(s, r) && IsText(r, Verdict, "allow")
    case ConsumeFree(r) => Lineage(s, r) && IsText(r, Verdict, "allow")
    case ConsumeWritten(r) => Lineage(s, r) && IsText(r, Verdict, "allow")
    case ConsumeDone(r) => Lineage(s, r) && IsText(r, Verdict, "allow") && KeyOf(r) in s.db.consumed
    case _ => true
  }

  ghost predicate OriginOk(s: State, k: ReplayKey)
    requires k in s.origins
  {
    var o := s.origins[k];
    && HasReplayKey(o) && KeyOf(o) == k
    && Sequence in o.fields && o.fields[Sequence].Int? && o.fields[Sequence].i >= 0 && o.fields[Sequence].i in s.used
  }

  ghost predicate OriginInv(s: State) {
    && (forall k | k in s.origins :: OriginOk(s, k))
    && (forall j, k | j in s.origins && k in s.origins
          && s.origins[j].fields[Sequence] == s.origins[k].fields[Sequence] :: j == k)
  }

  ghost predicate RowOk(s: State, k: RowKey)
    requires k in s.db.evidence
  {
    var r := s.db.evidence[k];
    Storable(r) && RowOf(r) == k && Lineage(s, r)
  }

  ghost predicate LineageInv(s: State) {
    && (forall g | g in s.signings :: Lineage(s, g.receipt))
    && (forall k | k in s.db.evidence :: RowOk(s, k))
    && (forall p: nat :: PcLineage(s, PcOf(s, p)))
  }

  // ---- how lineage passes from receipt to receipt ----

  lemma CoreSurvives(a: Receipt, r: Receipt, r': Receipt)
    requires SameCore(a, r)
    requires forall f: Field | InCore(f) && f in r.fields :: f in r'.fields && r'.fields[f] == r.fields[f]
    ensures SameCore(a, r')
  {
    forall f: Field | InCore(f) ensures AgreeOn(a, r', f) {
      assert AgreeOn(a, r, f);
    }
  }

  lemma CoreIsTransitive(a: Receipt, b: Receipt, c: Receipt)
    requires SameCore(a, b) && SameCore(b, c)
    ensures SameCore(a, c)
  {
    forall f: Field | InCore(f) ensures AgreeOn(a, c, f) {
      assert AgreeOn(a, b, f) && AgreeOn(b, c, f);
      EqualIsEquivalence(a.fields[f], b.fields[f], c.fields[f]);
    }
  }

  lemma CoreIsSymmetric(a: Receipt, b: Receipt)
    requires SameCore(a, b)
    ensures SameCore(b, a)
  {
    forall f: Field | InCore(f) ensures AgreeOn(b, a, f) {
      assert AgreeOn(a, b, f);
      EqualIsEquivalence(a.fields[f], b.fields[f], b.fields[f]);
    }
  }

  lemma CoreIsReflexive(a: Receipt)
    requires Signable(a)
    ensures SameCore(a, a)
  {
    forall f: Field | InCore(f) ensures AgreeOn(a, a, f) {
      EqualIsReflexive(a.fields[f]);
    }
  }

  lemma AgreeingCore(d: Receipt, r: Receipt)
    requires AgreeOnSigned(d, r)
    ensures SameCore(d, r) && Signable(r)
  {
    forall f: Field | f != Signature ensures f in r.fields && (InCore(f) ==> AgreeOn(d, r, f)) {
      assert AgreeOn(d, r, f);
    }
  }

  lemma AgreeingText(d: Receipt, r: Receipt, f: Field)
    requires AgreeOnSigned(d, r) && f != Signature
    ensures HasText(d, f) || HasText(r, f) ==> f in d.fields && f in r.fields && r.fields[f] == d.fields[f]
  {
    assert AgreeOn(d, r, f);
  }

  /** A copy that agrees on the signed fields has the same lineage. */
  lemma CopyHasLineage(s: State, d: Receipt, r: Receipt)
    requires Lineage(s, d) && AgreeOnSigned(d, r)
    ensures Lineage(s, r) && KeyOf(r) == KeyOf(d)
  {
    AgreeingText(d, r, Issuer);
    AgreeingText(d, r, Nonce);
    AgreeingText(d, r, ReceiptStatus);
    AgreeingText(d, r, Verdict);
    AgreeingCore(d, r);
    CoreIsTransitive(s.origins[KeyOf(d)], d, r);
  }

  lemma StatusKeepsLineage(s: State, r: Receipt, r': Receipt)
    requires Lineage(s, r)
    requires forall f: Field | f != Signature && f in r.fields :: f in r'.fields
    requires forall f: Field | InCore(f) && f in r.fields :: r'.fields[f] == r.fields[f]
    requires IsText(r', ReceiptStatus, "consumed") ==> KeyOf(r) in s.db.consumed && IsText(r, Verdict, "allow")
    ensures Lineage(s, r') && KeyOf(r') == KeyOf(r)
  {
    CoreSurvives(s.origins[KeyOf(r)], r, r');
  }

  lemma IssuedHasLineage(s: State, r: Receipt)
    requires LineageInv(s) && WasIssued(s, r)
    ensures Lineage(s, r)
  {
    var g :| g in s.signings && AgreeOnSigned(g.receipt, r);
    CopyHasLineage(s, g.receipt, r);
  }

  /** What the ideal signature gives: bytes that verify are those of a signed receipt, and
      the receipts agree on all 21 signed fields. */
  lemma VerifiedWasSigned(s: State, key: nat, r: Receipt) returns (g: Signed)
    requires SignedBytes(s, key, r)
    ensures g in s.signings && g.key == key && AgreeOnSigned(g.receipt, r)
  {
    g :| g in s.signings && g.key == key && Signable(g.receipt) && Payload(g.receipt) == Payload(r);
    PayloadBinds(g.receipt, r);
  }

  lemma VerifiedHasLineage(s: State, key: nat, r: Receipt)
    requires LineageInv(s) && SignedBytes(s, key, r)
    ensures Lineage(s, r)
  {
    var g := VerifiedWasSigned(s, key, r);
    CopyHasLineage(s, g.receipt, r);
  }

  // ---- steps keep it ----

  predicate Grows(s: State, t: State) {
    && (forall k | k in s.origins :: k in t.origins && t.origins[k] == s.origins[k])
    && s.db.consumed <= t.db.consumed
  }

  lemma LineageGrows(s: State, t: State, r: Receipt)
    requires Grows(s, t) && Lineage(s, r)
    ensures Lineage(t, r)
  {
  }

  lemma SigningsGrow(s: State, t: State)
    requires LineageInv(s) && Grows(s, t) && t.signings == s.signings
    ensures forall g | g in t.signings :: Lineage(t, g.receipt)
  {
    forall g | g in t.signings ensures Lineage(t, g.receipt) {
      LineageGrows(s, t, g.receipt);
    }
  }

  lemma RowsGrow(s: State, t: State)
    requires LineageInv(s) && Grows(s, t) && t.db.evidence == s.db.evidence
    ensures forall k | k in t.db.evidence :: RowOk(t, k)
  {
    forall k | k in t.db.evidence ensures RowOk(t, k) {
      assert RowOk(s, k);
      LineageGrows(s, t, s.db.evidence[k]);
    }
  }

  /** Steps that sign nothing and save nothing. */
  lemma UnsignedKept(s: State, t: State, p: nat)
    requires LineageInv(s) && Grows(s, t)
    requires t.signings == s.signings && t.db.evidence == s.db.evidence
    requires forall q: nat | q != p :: PcOf(t, q) == PcOf(s, q)
    requires PcLineage(t, PcOf(t, p))
    ensures LineageInv(t)
  {
    SigningsGrow(s, t);
    RowsGrow(s, t);
    OthersLineage(s, t, p);
  }

  lemma OthersLineage(s: State, t: State, p: nat)
    requires LineageInv(s) && Grows(s, t)
    requires forall q: nat | q != p :: PcOf(t, q) == PcOf(s, q)
    requires PcLineage(t, PcOf(t, p))
    ensures forall q: nat :: PcLineage(t, PcOf(t, q))
  {
    forall q: nat ensures PcLineage(t, PcOf(t, q)) {
      assert PcLineage(s, PcOf(s, q));
    }
  }

  lemma SignatureKeepsLineage(s: State, made: Receipt, hex: string)
    requires Lineage(s, made)
    ensures Lineage(s, WithSignature(made, hex))
  {
    StatusKeepsLineage(s, made, WithSignature(made, hex));
  }

  lemma SigningAdded(s: State, t: State, key: nat, made: Receipt)
    requires LineageInv(s) && Grows(s, t) && Lineage(t, made) && t.signings == s.signings + {Signed(key, made)}
    ensures forall g | g in t.signings :: Lineage(t, g.receipt)
  {
    forall g | g in t.signings ensures Lineage(t, g.receipt) {
      if g in s.signings {
        LineageGrows(s, t, g.receipt);
      }
    }
  }

  lemma SignedKept(s: State, t: State, p: nat, key: nat, made: Receipt, purpose: Purpose, hex: string)
    requires LineageInv(s) && Grows(s, t) && Lineage(t, made)
    requires t.signings == s.signings + {Signed(key, made)} && t.db.evidence == s.db.evidence
    requires forall q: nat | q != p :: PcOf(t, q) == PcOf(s, q)
    requires PcOf(t, p) == Saving(WithSignature(made, hex), purpose)
    ensures LineageInv(t)
  {
    SigningAdded(s, t, key, made);
    RowsGrow(s, t);
    SignatureKeepsLineage(t, made, hex);
    OthersLineage(s, t, p);
  }

  lemma SavedRows(s: State, t: State, r: Receipt)
    requires LineageInv(s) && Grows(s, t) && Storable(r) && Lineage(s, r)
    requires t.db.evidence == s.db.evidence[RowOf(r) := r]
    ensures forall k | k in t.db.evidence :: RowOk(t, k)
  {
    forall k | k in t.db.evidence ensures RowOk(t, k) {
      if k == RowOf(r) {
        LineageGrows(s, t, r);
      } else {
        assert RowOk(s, k);
        LineageGrows(s, t, s.db.evidence[k]);
      }
    }
  }

  lemma SavedFollows(s: State, t: State, p: nat, r: Receipt)
    requires LineageInv(s) && Grows(s, t) && Storable(r) && Lineage(s, r)
    requires t.db.evidence == s.db.evidence[RowOf(r) := r] && t.signings == s.signings
    requires (forall q: nat | q != p :: PcOf(t, q) == PcOf(s, q)) && PcOf(t, p).Idle?
    ensures LineageInv(t)
  {
    SigningsGrow(s, t);
    SavedRows(s, t, r);
    OthersLineage(s, t, p);
  }

  lemma SavedKept(s: State, p: nat, r: Receipt, purpose: Purpose)
    requires LineageInv(s) && PcOf(s, p) == Saving(r, purpose) && Storable(r)
    ensures LineageInv(AfterSave(s, p, r, purpose))
  {
    SavingHasLineage(s, p, r, purpose);
    SaveFrame(s, p, r, purpose);
    if !LineageInv(AfterSave(s, p, r, purpose)) {
      SavedFollows(s, AfterSave(s, p, r, purpose), p, r);
    }
  }

  lemma SavingHasLineage(s: State, p: nat, r: Receipt, purpose: Purpose)
    requires LineageInv(s) && PcOf(s, p) == Saving(r, purpose)
    ensures Lineage(s, r)
  {
    assert PcLineage(s, PcOf(s, p));
  }

  lemma SaveFrame(s: State, p: nat, r: Receipt, purpose: Purpose)
    requires Storable(r)
    ensures var t := AfterSave(s, p, r, purpose);
      && Grows(s, t) && t.db.evidence == s.db.evidence[RowOf(r) := r] && t.signings == s.signings
      && (forall q: nat | q != p :: PcOf(t, q) == PcOf(s, q)) && PcOf(t, p).Idle?
  {
  }

  lemma MadeAdmission(w: World, s: State, p: nat, a: Action)
    requires a.SignAdmission? && Enabled(w, s, p, a)
    ensures var made, pc := a.made, PcOf(s, p);
      && pc.NumberTaken? && Complete(made) && IsText(made, Issuer, w.process(p).config.issuer)
      && IsText(made, Nonce, pc.draft.nonce) && HasNumber(made, pc.n) && IsText(made, ReceiptStatus, "admission")
  {
    var d := PcOf(s, p).draft;
    AdmissionFields(w.digest, w.show, w.process(p).config, d.command, d.decision, d.now, d.nonce, PcOf(s, p).n);
  }

  /** The admission's key and number are new. */
  lemma AdmissionIsFresh(s: State, p: nat, made: Receipt)
    requires NumberInv(s) && NonceInv(s) && OriginInv(s)
    requires PcOf(s, p).NumberTaken? && HasReplayKey(made) && KeyOf(made).nonce == PcOf(s, p).draft.nonce
    ensures Drafts(s, p, KeyOf(made).nonce) && KeyOf(made) !in s.origins
    ensures forall k | k in s.origins :: !HasNumber(s.origins[k], PcOf(s, p).n)
  {
    var n := PcOf(s, p).n;
    assert Drafts(s, p, PcOf(s, p).draft.nonce) && Takes(s, p, n);
    forall k | k in s.origins ensures !HasNumber(s.origins[k], n) {
      assert OriginOk(s, k);
    }
  }

  lemma OriginAdded(s: State, t: State, made: Receipt, n: nat)
    requires OriginInv(s) && HasReplayKey(made) && HasNumber(made, n)
    requires forall k | k in s.origins :: !HasNumber(s.origins[k], n)
    requires t.origins == s.origins[KeyOf(made) := made] && t.used == s.used + [n]
    ensures OriginInv(t)
  {
    forall k | k in t.origins ensures OriginOk(t, k) {
      if k != KeyOf(made) {
        assert OriginOk(s, k);
      }
    }
  }

  lemma OriginKept(w: World, s: State, p: nat, a: Action)
    requires OriginInv(s) && Guard(s, p, a) && !a.SignAdmission?
    ensures OriginInv(After(w, s, p, a))
  {
    var t := After(w, s, p, a);
    assert t.origins == s.origins && t.used == s.used;
    forall k | k in t.origins ensures OriginOk(t, k) {
      assert OriginOk(s, k);
    }
  }

  predicate Signs(a: Action) {
    a.SignAdmission? || a.SignFinalized? || a.SignUnavailable? || a.SignConsumed?
  }

  lemma LineageKept(w: World, s: State, p: nat, a: Action)
    requires LockInv(s) && LineageInv(s) && Enabled(w, s, p, a)
    requires a.SignAdmission? ==> HasReplayKey(a.made) && KeyOf(a.made) !in s.origins
    ensures LineageInv(After(w, s, p, a))
  {
    if a.SignAdmission? {
      MadeAdmission(w, s, p, a);
      AdmissionSignedKept(w, s, p, a);
    } else if Signs(a) {
      MadeHasLineage(w, s, p, a);
      CopySignedKept(w, s, p, a);
    } else if a.SaveRow? {
      SavedKept(s, p, PcOf(s, p).receipt, PcOf(s, p).purpose);
    } else {
      UnsignedStepKept(w, s, p, a);
    }
  }

  lemma AdmissionSignedKept(w: World, s: State, p: nat, a: Action)
    requires LineageInv(s) && a.SignAdmission? && Guard(s, p, a)
    requires Complete(a.made) && HasReplayKey(a.made) && KeyOf(a.made) !in s.origins
    requires IsText(a.made, ReceiptStatus, "admission")
    ensures LineageInv(After(w, s, p, a))
  {
    CoreIsReflexive(a.made);
    SignedKept(s, After(w, s, p, a), p, w.process(p).key, a.made, Admitting, a.hex);
  }

  lemma UnsignedStepKept(w: World, s: State, p: nat, a: Action)
    requires LockInv(s) && LineageInv(s) && Enabled(w, s, p, a) && !Signs(a) && !a.SaveRow?
    ensures LineageInv(After(w, s, p, a))
  {
    ReceivedHasLineage(w, s, p, a);
    LineageOfMove(w, s, p, a);
    QuietFrame(w, s, p, a);
    UnsignedKept(s, After(w, s, p, a), p);
  }

  lemma FinalizedIsNotConsumed(r: Receipt, uri: string)
    ensures !IsText(WithResponse(r, uri), ReceiptStatus, "consumed")
  {
    assert "finalized"[0] != "consumed"[0];
  }

  lemma FinalizedHasLineage(s: State, r: Receipt, uri: string)
    requires Lineage(s, r)
    ensures Lineage(s, WithResponse(r, uri))
  {
    FinalizedIsNotConsumed(r, uri);
    StatusKeepsLineage(s, r, WithResponse(r, uri));
  }

  lemma RestatedHasLineage(s: State, r: Receipt, status: string)
    requires Lineage(s, r)
    requires status == "consumed" ==> KeyOf(r) in s.db.consumed && IsText(r, Verdict, "allow")
    ensures Lineage(s, WithStatus(r, status))
  {
    StatusKeepsLineage(s, r, WithStatus(r, status));
  }

  lemma ConsumedHasLineage(s: State, p: nat)
    requires LineageInv(s) && PcOf(s, p).ConsumeDone?
    ensures Lineage(s, WithStatus(PcOf(s, p).receipt, "consumed"))
  {
    assert PcLineage(s, PcOf(s, p));
    RestatedHasLineage(s, PcOf(s, p).receipt, "consumed");
  }

  lemma UnavailableHasLineage(s: State, r: Receipt)
    requires LineageInv(s) && WasIssued(s, r)
    ensures Lineage(s, WithStatus(r, "unavailable"))
  {
    IssuedHasLineage(s, r);
    assert "unavailable"[0] != "consumed"[0];
    RestatedHasLineage(s, r, "unavailable");
  }

  /** Copies made by finalize, mark_unavailable and consume keep the lineage of their source. */
  lemma MadeHasLineage(w: World, s: State, p: nat, a: Action)
    requires LineageInv(s) && Enabled(w, s, p, a) && Signs(a) && !a.SignAdmission?
    ensures Lineage(s, a.made)
  {
    match a
    case SignConsumed(_, _) => ConsumedHasLineage(s, p);
    case SignFinalized(r, response, _, _) =>
      IssuedHasLineage(s, r);
      FinalizedHasLineage(s, r, Sha256Uri(w.digest, response));
    case SignUnavailable(r, _, _) => UnavailableHasLineage(s, r);
  }

  lemma CopySignedKept(w: World, s: State, p: nat, a: Action)
    requires LineageInv(s) && Guard(s, p, a) && Signs(a) && !a.SignAdmission? && Lineage(s, a.made)
    ensures LineageInv(After(w, s, p, a))
  {
    var purpose := if a.SignFinalized? then Finalizing else if a.SignUnavailable? then Retiring
                   else Returning(KeyOf(PcOf(s, p).receipt));
    AnySignedKept(s, p, w.process(p).key, a.made, purpose, a.hex);
  }

  lemma AnySignedKept(s: State, p: nat, key: nat, made: Receipt, purpose: Purpose, hex: string)
    requires LineageInv(s) && Lineage(s, made)
    ensures LineageInv(AfterSign(s, p, key, made, purpose, hex))
  {
    SignedKept(s, AfterSign(s, p, key, made, purpose, hex), p, key, made, purpose, hex);
  }

  /** Receipts a process takes in have lineage, and one it goes on to consume says allow. */
  lemma ReceivedHasLineage(w: World, s: State, p: nat, a: Action)
    requires LineageInv(s) && Enabled(w, s, p, a)
    ensures a.StartValidate? || a.StartConsume? ==> Lineage(s, a.receipt)
    ensures a.Finish? && a.accepted && PcOf(s, p).consuming ==> IsText(PcOf(s, p).receipt, Verdict, "allow")
  {
    assert PcLineage(s, PcOf(s, p));
    if a.StartValidate? {
      VerifiedHasLineage(s, a.key, a.receipt);
    } else if a.StartConsume? {
      VerifiedHasLineage(s, w.process(p).key, a.receipt);
    }
  }

  lemma QuietFrame(w: World, s: State, p: nat, a: Action)
    requires Guard(s, p, a) && !Signs(a) && !a.SaveRow?
    ensures var t := After(w, s, p, a);
      && Grows(s, t) && t.signings == s.signings && t.db.evidence == s.db.evidence
      && forall q: nat | q != p :: PcOf(t, q) == PcOf(s, q)
  {
  }

  lemma LineageOfStart(w: World, s: State, p: nat, a: Action)
    requires Guard(s, p, a) && (a.StartValidate? || a.StartConsume? || a.StartAdmission? || a.Fail?)
    requires a.StartValidate? || a.StartConsume? ==> Lineage(s, a.receipt)
    ensures PcLineage(After(w, s, p, a), PcOf(After(w, s, p, a), p))
  {
  }

  lemma LineageOfLookUp(w: World, s: State, p: nat, a: Action)
    requires Guard(s, p, a) && PcLineage(s, PcOf(s, p)) && (a.LookUp? || a.Finish?)
    requires a.Finish? && a.accepted && PcOf(s, p).consuming ==> IsText(PcOf(s, p).receipt, Verdict, "allow")
    ensures PcLineage(After(w, s, p, a), PcOf(After(w, s, p, a), p))
  {
  }

  lemma LineageOfTransaction(w: World, s: State, p: nat, a: Action)
    requires Guard(s, p, a) && PcLineage(s, PcOf(s, p)) && (a.Lock? || a.ReadRow? || a.WriteRow?)
    ensures PcLineage(After(w, s, p, a), PcOf(After(w, s, p, a), p))
  {
  }

  lemma LineageOfCommit(w: World, s: State, p: nat)
    requires Guard(s, p, Commit) && PcLineage(s, PcOf(s, p))
    ensures PcLineage(After(w, s, p, Commit), PcOf(After(w, s, p, Commit), p))
  {
    if PcOf(s, p).ConsumeWritten? {
      LineageGrows(s, AfterMarkCommit(s, p, PcOf(s, p).receipt), PcOf(s, p).receipt);
    }
  }

  lemma LineageOfMove(w: World, s: State, p: nat, a: Action)
    requires LineageInv(s) && Guard(s, p, a) && !Signs(a) && !a.SaveRow?
    requires a.StartValidate? || a.StartConsume? ==> Lineage(s, a.receipt)
    requires a.Finish? && a.accepted && PcOf(s, p).consuming ==> IsText(PcOf(s, p).receipt, Verdict, "allow")
    ensures PcLineage(After(w, s, p, a), PcOf(After(w, s, p, a), p))
  {
    assert PcLineage(s, PcOf(s, p));
    if a.LookUp? || a.Finish? {
      LineageOfLookUp(w, s, p, a);
    } else if a.Lock? || a.ReadRow? || a.WriteRow? {
      LineageOfTransaction(w, s, p, a);
    } else if a.Commit? {
      LineageOfCommit(w, s, p);
    } else {
      LineageOfStart(w, s, p, a);
    }
  }

  // ---- every reachable state ----

  ghost predicate Inv(s: State) {
    LockInv(s) && NumberInv(s) && MarkInv(s) && NonceInv(s) && OriginInv(s) && LineageInv(s)
  }

  lemma InvInitially()
    ensures Inv(INITIAL)
  {
  }

  lemma FreshnessKept(w: World, s: State, p: nat, a: Action)
    requires NumberInv(s) && NonceInv(s) && OriginInv(s) && Enabled(w, s, p, a)
    ensures NonceInv(After(w, s, p, a)) && OriginInv(After(w, s, p, a))
    ensures a.SignAdmission? ==> HasReplayKey(a.made) && KeyOf(a.made) !in s.origins
  {
    if a.SignAdmission? {
      MadeAdmission(w, s, p, a);
      AdmissionIsFresh(s, p, a.made);
      AdmissionRecorded(w, s, p, a);
      OriginAdded(s, After(w, s, p, a), a.made, PcOf(s, p).n);
    } else {
      OriginKept(w, s, p, a);
    }
    NonceKept(w, s, p, a);
  }

  lemma AdmissionRecorded(w: World, s: State, p: nat, a: Action)
    requires a.SignAdmission? && Guard(s, p, a) && HasReplayKey(a.made)
    ensures var t := After(w, s, p, a);
      t.origins == s.origins[KeyOf(a.made) := a.made] && t.used == s.used + [PcOf(s, p).n]
  {
  }

  /** One step of one process. */
  datatype Step = Step(process: nat, action: Action)

  ghost predicate StepsTo(w: World, s: State, step: Step, t: State) {
    Enabled(w, s, step.process, step.action) && t == After(w, s, step.process, step.action)
  }

  lemma InvKept(w: World, s: State, step: Step, t: State)
    requires Inv(s) && StepsTo(w, s, step, t)
    ensures Inv(t)
  {
    var p, a := step.process, step.action;
    LockKept(w, s, p, a);
    NumberKept(w, s, p, a);
    MarkKept(w, s, p, a);
    FreshnessKept(w, s, p, a);
    LineageKept(w, s, p, a);
  }

  /** A run: any interleaving of enabled steps of any processes. */
  ghost predicate Run(w: World, states: seq<State>, steps: seq<Step>) {
    && |states| == |steps| + 1 && states[0] == INITIAL
    && forall i | 0 <= i < |steps| :: StepsTo(w, states[i], steps[i], states[i + 1])
  }

  lemma NextInv(w: World, states: seq<State>, steps: seq<Step>, i: nat)
    requires Run(w, states, steps) && i < |steps| && Inv(states[i])
    ensures Inv(states[i + 1])
  {
    InvKept(w, states[i], steps[i], states[i + 1]);
  }

  lemma {:induction false} InvAlways(w: World, states: seq<State>, steps: seq<Step>, i: nat)
    requires Run(w, states, steps) && i < |states|
    ensures Inv(states[i])
  {
    if i == 0 {
      InvInitially();
    } else {
      InvAlways(w, states, steps, i - 1);
      NextInv(w, states, steps, i - 1);
    }
  }

  // ---- what holds of whole runs ----

  predicate HistoryWithin(s: State, t: State) {
    && s.db.consumed <= t.db.consumed && s.db.sequence <= t.db.sequence && s.burnt <= t.burnt
    && forall k | k in s.successes :: k in t.successes
  }

  lemma WithinIsTransitive(s: State, t: State, u: State)
    requires HistoryWithin(s, t) && HistoryWithin(t, u)
    ensures HistoryWithin(s, u)
  {
  }

  lemma TablesGrow(w: World, s: State, p: nat, a: Action)
    requires Guard(s, p, a) && TxView(s, PcOf(s, p))
    ensures var t := After(w, s, p, a);
      s.db.consumed <= t.db.consumed && s.db.sequence <= t.db.sequence
  {
  }

  lemma RecordsGrow(w: World, s: State, p: nat, a: Action)
    requires Guard(s, p, a)
    ensures var t := After(w, s, p, a);
      s.burnt <= t.burnt && forall k | k in s.successes :: k in t.successes
  {
  }

  lemma StepGrows(w: World, s: State, step: Step, t: State)
    requires LockInv(s) && StepsTo(w, s, step, t)
    ensures HistoryWithin(s, t)
  {
    assert TxView(s, PcOf(s, step.process));
    TablesGrow(w, s, step.process, step.action);
    RecordsGrow(w, s, step.process, step.action);
  }

  lemma NextGrows(w: World, states: seq<State>, steps: seq<Step>, i: nat)
    requires Run(w, states, steps) && i < |steps|
    ensures HistoryWithin(states[i], states[i + 1])
  {
    InvAlways(w, states, steps, i);
    StepGrows(w, states[i], steps[i], states[i + 1]);
  }

  /** History only grows. */
  lemma {:induction false} HistoryGrows(w: World, states: seq<State>, steps: seq<Step>, i: nat, j: nat)
    requires Run(w, states, steps) && i <= j < |states|
    ensures HistoryWithin(states[i], states[j])
    decreases j
  {
    if i < j {
      HistoryGrows(w, states, steps, i, j - 1);
      NextGrows(w, states, steps, j - 1);
      WithinIsTransitive(states[i], states[j - 1], states[j]);
    }
  }

  /** The step at which a consume for the key saves its receipt and returns it. */
  ghost predicate ConsumeReturns(s: State, step: Step, k: ReplayKey) {
    var pc := PcOf(s, step.process);
    step.action.SaveRow? && pc.Saving? && pc.purpose == Returning(k)
  }

  /** At most one consume succeeds per key, over any number of managers, copies and crashes. */
  lemma ConsumedAtMostOnce(w: World, states: seq<State>, steps: seq<Step>, i: nat, j: nat, k: ReplayKey)
    requires Run(w, states, steps) && i < |steps| && j < |steps|
    requires ConsumeReturns(states[i], steps[i], k) && ConsumeReturns(states[j], steps[j], k)
    ensures i == j
  {
    ReturnedOnce(w, states, steps, i, j, k);
    ReturnedOnce(w, states, steps, j, i, k);
  }

  lemma ReturnedOnce(w: World, states: seq<State>, steps: seq<Step>, i: nat, j: nat, k: ReplayKey)
    requires Run(w, states, steps) && i < |steps| && j < |steps| && ConsumeReturns(states[i], steps[i], k)
    ensures i < j ==> !ConsumeReturns(states[j], steps[j], k)
  {
    if i < j {
      ReturnIsRecorded(w, states[i], steps[i], states[i + 1], k);
      HistoryGrows(w, states, steps, i + 1, j);
      InvAlways(w, states, steps, j);
      ReturnedIsDone(states[j], steps[j], k);
    }
  }

  lemma ReturnedIsDone(s: State, step: Step, k: ReplayKey)
    requires MarkInv(s) && k in s.successes
    ensures !ConsumeReturns(s, step, k)
  {
    assert ConsumeReturns(s, step, k) ==> Claims(s, step.process, k);
  }

  lemma ReturnIsRecorded(w: World, s: State, step: Step, t: State, k: ReplayKey)
    requires StepsTo(w, s, step, t) && ConsumeReturns(s, step, k)
    ensures k in t.successes
  {
  }

  /** The step at which mark_consumed commits the key: where consume takes effect. */
  ghost predicate MarkCommits(s: State, step: Step, k: ReplayKey) {
    var pc := PcOf(s, step.process);
    step.action.Commit? && pc.ConsumeWritten? && HasReplayKey(pc.receipt) && KeyOf(pc.receipt) == k
  }

  /** Once a key is committed it stays consumed: a later look-up, by any process and for any
      copy, rejects, and no second commit for it happens. */
  lemma ConsumedStaysConsumed(w: World, states: seq<State>, steps: seq<Step>, i: nat, j: nat, k: ReplayKey)
    requires Run(w, states, steps) && i < j < |steps| && MarkCommits(states[i], steps[i], k)
    ensures !MarkCommits(states[j], steps[j], k)
    ensures LooksUp(states[j], steps[j], k) ==> PcOf(states[j + 1], steps[j].process).Idle?
  {
    CommitIsRecorded(w, states[i], steps[i], states[i + 1], k);
    HistoryGrows(w, states, steps, i + 1, j);
    InvAlways(w, states, steps, j);
    LateLookUp(w, states[j], steps[j], states[j + 1], k);
  }

  ghost predicate LooksUp(s: State, step: Step, k: ReplayKey) {
    var pc := PcOf(s, step.process);
    step.action.LookUp? && pc.Looking? && HasReplayKey(pc.receipt) && KeyOf(pc.receipt) == k
  }

  lemma CommitIsRecorded(w: World, s: State, step: Step, t: State, k: ReplayKey)
    requires StepsTo(w, s, step, t) && MarkCommits(s, step, k)
    ensures k in t.db.consumed
  {
  }

  lemma LateLookUp(w: World, s: State, step: Step, t: State, k: ReplayKey)
    requires LockInv(s) && StepsTo(w, s, step, t) && k in s.db.consumed
    ensures !MarkCommits(s, step, k)
    ensures LooksUp(s, step, k) ==> PcOf(t, step.process).Idle?
  {
    assert TxView(s, PcOf(s, step.process));
  }

  /** Whoever succeeds committed the key first, and every acceptance by validate read the
      replay table before any commit for its key. */
  lemma SuccessFollowsCommit(w: World, states: seq<State>, steps: seq<Step>, i: nat)
    requires Run(w, states, steps) && i < |states|
    ensures var s := states[i];
      && (forall k | k in s.successes :: k in s.db.consumed)
      && (forall e | e in s.accepts :: e.at <= |s.marks| && e.key !in s.marks[..e.at])
      && (forall k :: k in s.db.consumed <==> k in s.marks) && Distinct(s.marks)
  {
    InvAlways(w, states, steps, i);
    forall e | e in states[i].accepts ensures e.at <= |states[i].marks| && e.key !in states[i].marks[..e.at] {
      assert ReadBefore(states[i], e.key, e.at);
    }
  }

  /** Numbers are committed in the order 1, 2, 3, ... with no gap and no repeat, and each is
      accounted for exactly once: given to a receipt, burnt by a failure after its commit,
      or held by the one process that has just taken it. */
  lemma NumbersAccountedFor(w: World, states: seq<State>, steps: seq<Step>, i: nat, n: nat)
    requires Run(w, states, steps) && i < |states|
    ensures var s := states[i];
      && |s.commits| == s.db.sequence && (forall j | 0 <= j < |s.commits| :: s.commits[j] == j + 1)
      && Distinct(s.used)
      && (1 <= n <= s.db.sequence <==> n in s.used || n in s.burnt || exists p :: Takes(s, p, n))
      && !(n in s.used && n in s.burnt)
      && (forall p | Takes(s, p, n) :: n !in s.used && n !in s.burnt && forall q | Takes(s, q, n) :: q == p)
  {
    InvAlways(w, states, steps, i);
    var s := states[i];
    if 1 <= n <= s.db.sequence {
      assert InRange(s, n);
    }
    if n in s.used || n in s.burnt || exists p :: Takes(s, p, n) {
      assert InRange(s, n);
    }
  }

  /** A failure before the commit burns nothing; one after it burns that number for good. */
  lemma FailureBurns(w: World, states: seq<State>, steps: seq<Step>, i: nat, j: nat)
    requires Run(w, states, steps) && i < |steps| && i < j < |states| && steps[i].action.Fail?
    ensures states[i + 1].db == states[i].db
    ensures var pc := PcOf(states[i], steps[i].process);
      && states[i + 1].burnt == states[i].burnt + (if pc.NumberTaken? then {pc.n} else {})
      && (pc.NumberTaken? ==> pc.n !in states[j].used)
  {
    var pc := PcOf(states[i], steps[i].process);
    FailureIsRecorded(w, states[i], steps[i], states[i + 1]);
    HistoryGrows(w, states, steps, i + 1, j);
    InvAlways(w, states, steps, j);
    assert pc.NumberTaken? ==> pc.n in states[j].burnt;
  }

  lemma FailureIsRecorded(w: World, s: State, step: Step, t: State)
    requires StepsTo(w, s, step, t) && step.action.Fail?
    ensures t.db == s.db
    ensures var pc := PcOf(s, step.process); t.burnt == s.burnt + (if pc.NumberTaken? then {pc.n} else {})
  {
  }

  /** Evidence rows in every reachable state: the number lies in 1..meta.sequence, and a
      consumed row has its replay entry and says allow. */
  lemma RowIsConsistent(w: World, states: seq<State>, steps: seq<Step>, i: nat, j: RowKey)
    requires Run(w, states, steps) && i < |states| && j in states[i].db.evidence
    ensures var db := states[i].db; var a := db.evidence[j];
      && Storable(a) && RowOf(a) == j
      && 1 <= a.fields[Sequence].i <= db.sequence
      && (j.status == "consumed" ==> j.key in db.consumed && IsText(a, Verdict, "allow"))
  {
    InvAlways(w, states, steps, i);
    RowDescends(states[i], j);
  }

  lemma RowDescends(s: State, j: RowKey)
    requires Inv(s) && j in s.db.evidence
    ensures RowOk(s, j) && OriginOk(s, j.key)
    ensures var a := s.db.evidence[j];
      Sequence in a.fields && a.fields[Sequence] == s.origins[j.key].fields[Sequence]
    ensures 1 <= s.origins[j.key].fields[Sequence].i <= s.db.sequence
  {
    RowInInv(s, j);
    OriginInInv(s, j.key);
    SameNumber(s.origins[j.key], s.db.evidence[j]);
  }

  lemma RowInInv(s: State, j: RowKey)
    requires LineageInv(s) && j in s.db.evidence
    ensures RowOk(s, j)
  {
  }

  lemma OriginInInv(s: State, k: ReplayKey)
    requires OriginInv(s) && NumberInv(s) && k in s.origins
    ensures OriginOk(s, k) && 1 <= s.origins[k].fields[Sequence].i <= s.db.sequence
  {
    assert OriginOk(s, k);
    assert InRange(s, s.origins[k].fields[Sequence].i);
  }

  lemma SameNumber(o: Receipt, a: Receipt)
    requires SameCore(o, a) && Sequence in o.fields && o.fields[Sequence].Int?
    ensures Sequence in a.fields && a.fields[Sequence] == o.fields[Sequence]
  {
    assert AgreeOn(o, a, Sequence);
  }

  /** Two rows of one key agree on the 19 core fields, and two rows with one number have one key. */
  lemma RowsAreConsistent(w: World, states: seq<State>, steps: seq<Step>, i: nat, j: RowKey, k: RowKey)
    requires Run(w, states, steps) && i < |states|
    requires j in states[i].db.evidence && k in states[i].db.evidence
    ensures var a, b := states[i].db.evidence[j], states[i].db.evidence[k];
      && (j.key == k.key ==> SameCore(a, b))
      && Sequence in a.fields && Sequence in b.fields
      && (a.fields[Sequence] == b.fields[Sequence] ==> j.key == k.key)
  {
    InvAlways(w, states, steps, i);
    var s := states[i];
    RowDescends(s, j);
    RowDescends(s, k);
    if j.key == k.key {
      CoreIsSymmetric(s.origins[j.key], s.db.evidence[j]);
      CoreIsTransitive(s.db.evidence[j], s.origins[j.key], s.db.evidence[k]);
    }
  }

  /** The step at which `validate`, alone or inside consume, gets past the signature check. */
  ghost predicate SignatureAccepted(w: World, step: Step, key: nat, r: Receipt) {
    match step.action
    case StartValidate(r', _, key', _) => r' == r && key' == key
    case StartConsume(r', _) => r' == r && w.process(step.process).key == key
    case _ => false
  }

  ghost predicate SignsUnder(w: World, step: Step, key: nat, g: Receipt) {
    Signs(step.action) && step.action.made == g && w.process(step.process).key == key
  }

  /** Every receipt whose signature is accepted agrees, on all 21 signed fields, with one that
      an earlier step of the run signed under the same key. */
  lemma AcceptedWasSigned(w: World, states: seq<State>, steps: seq<Step>, j: nat, key: nat, r: Receipt)
    returns (i: nat)
    requires Run(w, states, steps) && j < |steps| && SignatureAccepted(w, steps[j], key, r)
    ensures i < j && Signs(steps[i].action) && w.process(steps[i].process).key == key
    ensures AgreeOnSigned(steps[i].action.made, r)
  {
    assert StepsTo(w, states[j], steps[j], states[j + 1]);
    AcceptedBytes(w, states[j], steps[j], states[j + 1], key, r);
    var g := VerifiedWasSigned(states[j], key, r);
    i := SigningStep(w, states, steps, j, g);
  }

  lemma AcceptedBytes(w: World, s: State, step: Step, t: State, key: nat, r: Receipt)
    requires StepsTo(w, s, step, t) && SignatureAccepted(w, step, key, r)
    ensures SignedBytes(s, key, r)
  {
  }

  lemma {:induction false} SigningStep(w: World, states: seq<State>, steps: seq<Step>, j: nat, g: Signed)
    returns (i: nat)
    requires Run(w, states, steps) && j < |states| && g in states[j].signings
    ensures i < j && SignsUnder(w, steps[i], g.key, g.receipt)
  {
    i := j - 1;
    if g in states[i].signings {
      i := SigningStep(w, states, steps, i, g);
    } else {
      assert StepsTo(w, states[i], steps[i], states[i + 1]);
      SignedByStep(w, states[i], steps[i], states[i + 1], g);
    }
  }

  lemma SignedByStep(w: World, s: State, step: Step, t: State, g: Signed)
    requires StepsTo(w, s, step, t) && g !in s.signings && g in t.signings
    ensures SignsUnder(w, step, g.key, g.receipt)
  {
  }

  // ---- what an accepted receipt was issued for ----

  lemma {:induction false} OriginStep(w: World, states: seq<State>, steps: seq<Step>, j: nat, k: ReplayKey)
    returns (i: nat)
    requires Run(w, states, steps) && j < |states| && k in states[j].origins
    ensures i < j && steps[i].action.SignAdmission? && steps[i].action.made == states[j].origins[k]
    decreases j
  {
    i := j - 1;
    assert StepsTo(w, states[i], steps[i], states[i + 1]);
    OriginsFrame(w, states[i], steps[i].process, steps[i].action);
    if !(steps[i].action.SignAdmission? && HasReplayKey(steps[i].action.made) && k == KeyOf(steps[i].action.made)) {
      i := OriginStep(w, states, steps, i, k);
    }
  }

  lemma StepAt(w: World, states: seq<State>, steps: seq<Step>, i: nat)
    requires Run(w, states, steps) && i < |steps|
    ensures Enabled(w, states[i], steps[i].process, steps[i].action)
  {
    assert StepsTo(w, states[i], steps[i], states[i + 1]);
  }

  /** The command of the process that is about to sign an admission. */
  function CommandAt(s: State, p: nat): Command
    requires PcOf(s, p).NumberTaken?
  {
    PcOf(s, p).draft.command
  }

  lemma AdmissionIsFor(w: World, s: State, p: nat, a: Action)
    requires a.SignAdmission? && Enabled(w, s, p, a)
    ensures PcOf(s, p).NumberTaken? && IssuedFor(w.digest, w.show, a.made, CommandAt(s, p))
  {
    var pc := PcOf(s, p);
    var d := pc.draft;
    AdmissionMatches(w.digest, w.show, w.process(p).config, d.command, d.decision, d.now, d.nonce, pc.n);
  }

  /** A process whose `validate` is about to accept r for the expected command d. */
  ghost predicate AcceptsFor(s: State, step: Step, r: Receipt, d: Command) {
    var pc := PcOf(s, step.process);
    && step.action == Finish(true) && pc.Cleared? && pc.receipt == r && pc.options.expectedCommand == Some(d)
  }

  lemma FinishAccepts(w: World, s: State, p: nat)
    requires Enabled(w, s, p, Finish(true))
    ensures var pc := PcOf(s, p);
      pc.Cleared? && Signable(pc.receipt) && CheckAfter(w.digest, w.show, pc.receipt, pc.options).Accepted?
  {
  }

  lemma AcceptedHasLineage(w: World, states: seq<State>, steps: seq<Step>, j: nat, r: Receipt, d: Command)
    requires Run(w, states, steps) && j < |steps| && AcceptsFor(states[j], steps[j], r, d)
    ensures Lineage(states[j], r)
  {
    InvAlways(w, states, steps, j);
    ClearedHasLineage(states[j], steps[j].process);
  }

  lemma ClearedHasLineage(s: State, p: nat)
    requires LineageInv(s) && PcOf(s, p).Cleared?
    ensures Lineage(s, PcOf(s, p).receipt)
  {
    assert PcLineage(s, PcOf(s, p));
  }

  /** In every run, a receipt accepted for the expected command d goes back to the admission of
      its key, which an earlier step signed for some command c; the receipt has that admission's
      19 core fields, and c and d are the same call and parameters, or the named byte strings
      collide, with the tools spelt alike. */
  lemma AcceptedWasIssuedFor(w: World, states: seq<State>, steps: seq<Step>, j: nat, r: Receipt, d: Command)
    returns (i: nat, c: Command)
    requires Run(w, states, steps) && j < |steps| && AcceptsFor(states[j], steps[j], r, d)
    ensures i < j && steps[i].action.SignAdmission? && SameCore(steps[i].action.made, r)
    ensures PcOf(states[i], steps[i].process).NumberTaken? && c == CommandAt(states[i], steps[i].process)
    ensures SameCall(c, d) || Collision(w.digest, CanonicalBytes(Wire(c)), CanonicalBytes(Wire(d)))
    ensures Equal(c.params, d.params) || Collision(w.digest, CanonicalBytes(c.params), CanonicalBytes(d.params))
    ensures w.show(c.tool) == w.show(d.tool)
  {
    AcceptedHasLineage(w, states, steps, j, r, d);
    StepAt(w, states, steps, j);
    FinishAccepts(w, states[j], steps[j].process);
    ExpectedMatches(w.digest, w.show, r, PcOf(states[j], steps[j].process).options, d);
    i := OriginStep(w, states, steps, j, KeyOf(r));
    StepAt(w, states, steps, i);
    AdmissionIsFor(w, states[i], steps[i].process, steps[i].action);
    c := CommandAt(states[i], steps[i].process);
    CoreKeepsCommand(w.digest, w.show, steps[i].action.made, r, c);
    AcceptedCommand(w.digest, w.show, r, c, d);
  }

  // ---- a consume that nothing interrupts ----

  /** Run without interference, the steps of one consume are exactly the call: one key marked,
      one row saved, one success recorded. */
  lemma UninterruptedConsume(w: World, s: State, p: nat, r: Receipt, now: int, hex: string) returns (t: State)
    requires PcOf(s, p).Idle? && s.lock == None
    requires var me := w.process(p);
      PassesBefore(s, me.key, r, ConsumeOptions(me.config), now)
      && CheckAfter(w.digest, w.show, r, ConsumeOptions(me.config)).Accepted?
    requires HasReplayKey(r) && KeyOf(r) !in s.db.consumed
    requires Storable(WithSignature(WithStatus(r, "consumed"), hex))
    ensures var copy := WithSignature(WithStatus(r, "consumed"), hex);
      && t.db == Save(Mark(s.db, KeyOf(r)), copy) && t.lock == None && PcOf(t, p).Idle?
      && t.successes == s.successes + [KeyOf(r)] && t.marks == s.marks + [KeyOf(r)]
      && t.signings == s.signings + {Signed(w.process(p).key, WithStatus(r, "consumed"))}
  {
    var u := ValidateAlone(w, s, p, r, now);
    var v := MarkAlone(w, u, p, r);
    t := ReturnAlone(w, v, p, r, hex);
  }

  predicate SameRecord(s: State, t: State) {
    t.db == s.db && t.marks == s.marks && t.successes == s.successes && t.signings == s.signings
  }

  lemma ValidateAlone(w: World, s: State, p: nat, r: Receipt, now: int) returns (t: State)
    requires PcOf(s, p).Idle? && HasReplayKey(r) && KeyOf(r) !in s.db.consumed
    requires var me := w.process(p);
      PassesBefore(s, me.key, r, ConsumeOptions(me.config), now)
      && CheckAfter(w.digest, w.show, r, ConsumeOptions(me.config)).Accepted?
    ensures PcOf(t, p) == Consuming(r) && t.lock == s.lock && SameRecord(s, t)
  {
    var u := Do(w, s, p, StartConsume(r, now));
    assert PcOf(u, p) == Looking(r, ConsumeOptions(w.process(p).config), true);
    var v := Do(w, u, p, LookUp);
    assert PcOf(v, p) == Cleared(r, ConsumeOptions(w.process(p).config), true, |s.marks|);
    t := Do(w, v, p, Finish(true));
  }

  lemma MarkAlone(w: World, s: State, p: nat, r: Receipt) returns (t: State)
    requires PcOf(s, p) == Consuming(r) && s.lock == None && HasReplayKey(r) && KeyOf(r) !in s.db.consumed
    ensures PcOf(t, p) == ConsumeDone(r) && t.lock == None && t.db == Mark(s.db, KeyOf(r))
    ensures t.marks == s.marks + [KeyOf(r)] && t.successes == s.successes && t.signings == s.signings
  {
    var u := Do(w, s, p, Lock);
    assert PcOf(u, p) == ConsumeTx(r) && SameRecord(s, u);
    var v := Do(w, u, p, ReadRow);
    assert PcOf(v, p) == ConsumeFree(r) && SameRecord(s, v);
    var x := Do(w, v, p, WriteRow);
    assert PcOf(x, p) == ConsumeWritten(r) && SameRecord(s, x);
    t := Do(w, x, p, Commit);
  }

  lemma ReturnAlone(w: World, s: State, p: nat, r: Receipt, hex: string) returns (t: State)
    requires PcOf(s, p) == ConsumeDone(r) && s.lock == None && HasReplayKey(r)
    requires Storable(WithSignature(WithStatus(r, "consumed"), hex))
    ensures PcOf(t, p).Idle? && t.lock == None && t.db == Save(s.db, WithSignature(WithStatus(r, "consumed"), hex))
    ensures t.marks == s.marks && t.successes == s.successes + [KeyOf(r)]
    ensures t.signings == s.signings + {Signed(w.process(p).key, WithStatus(r, "consumed"))}
  {
    var u := Do(w, s, p, SignConsumed(WithStatus(r, "consumed"), hex));
    assert PcOf(u, p) == Saving(WithSignature(WithStatus(r, "consumed"), hex), Returning(KeyOf(r)));
    t := Do(w, u, p, SaveRow);
  }

  lemma Do(w: World, s: State, p: nat, a: Action) returns (t: State)
    requires Enabled(w, s, p, a)
    ensures t == After(w, s, p, a) && StepsTo(w, s, Step(p, a), t)
  {
    t := After(w, s, p, a);
  }
}
