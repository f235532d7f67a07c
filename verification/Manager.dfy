/** The receipt manager: one process's view of the receipt lifecycle, with or without a store. */
module Manager {
  import opened Text
  import opened Canonical
  import opened Binding
  import opened Receipts
  import opened Storage

  class ReceiptManager {
    const digest: Digest
    const show: Shown
    const sign: Signing
    const verify: Verifying
    const config: Config
    const store: SQLiteStore?
    var sequence: nat
    var consumed: set<ReplayKey>

    /** The dictionaries this manager has signed, in order. */
    ghost var signed: seq<Receipt>

    constructor (digest: Digest, show: Shown, sign: Signing, verify: Verifying, config: Config, store: SQLiteStore?)
      ensures this.digest == digest && this.show == show && this.sign == sign && this.verify == verify
      ensures this.config == config && this.store == store
      ensures sequence == 0 && consumed == {} && signed == []
    {
      this.digest, this.show, this.sign, this.verify := digest, show, sign, verify;
      this.config, this.store := config, store;
      sequence, consumed, signed := 0, {}, [];
    }

    function Tables(): Db
      reads this, store
    {
      if store == null then Db(sequence, map[], consumed) else store.View()
    }

    /** Where `validate` looks replay up: nowhere without a store. */
    function ReplayState(): Option<set<ReplayKey>>
      reads this, store
    {
      if store == null then None else Some(store.consumed)
    }

    /** `_sign`: the payload is signed even when saving the receipt then fails. */
    method Sign(r: Receipt) returns (out: Option<Receipt>)
      modifies this`signed, store
      ensures signed == if Signable(r) then old(signed) + [r] else old(signed)
      ensures out.Some? ==> Signable(r) && out.value == SignedBy(sign, r)
      ensures out.Some? && store != null ==> Storable(out.value) && Tables() == Save(old(Tables()), out.value)
      ensures out.None? || store == null ==> Tables() == old(Tables())
      ensures out.None? && store == null ==> !Signable(r)
    {
      if !Signable(r) {
        return None;
      }
      var s := SignedBy(sign, r);
      signed := signed + [r];
      if store != null {
        var ok := store.SaveReceipt(s);
        if !ok {
          return None;
        }
      }
      out := Some(s);
    }

    method NextSequence() returns (n: Option<nat>)
      modifies this`sequence, store
      ensures n.Some? ==> Tables() == Numbered(old(Tables())) && n.value == Tables().sequence
      ensures n.None? ==> store != null && Tables() == old(Tables())
      ensures store != null ==> sequence == old(sequence)
    {
      if store != null {
        n := store.NextSequence();
      } else {
        sequence := sequence + 1;
        n := Some(sequence);
      }
    }

    /** out is the signed admission under the number after `before`'s, it is the last thing
        signed, and with a store the number is taken and the row saved. */
    ghost predicate Issued(out: Receipt, c: Command, d: Decision, now: int, nonce: string,
                           before: Db, signedBefore: seq<Receipt>)
      reads this, store
    {
      var r := Admission(digest, show, config, c, d, now, nonce, before.sequence + 1);
      && out == SignedBy(sign, r) && signed == signedBefore + [r]
      && (store == null ==> Tables() == Numbered(before))
      && (store != null ==> Storable(out) && Tables() == Save(Numbered(before), out))
    }

    lemma IssuedIsSigned(out: Receipt, c: Command, d: Decision, now: int, nonce: string, before: Db,
                         signedBefore: seq<Receipt>)
      requires Issued(out, c, d, now, nonce, before, signedBefore)
      ensures out == SignedBy(sign, Admission(digest, show, config, c, d, now, nonce, before.sequence + 1))
    {
    }

    lemma IssuedIsSaved(out: Receipt, c: Command, d: Decision, now: int, nonce: string, before: Db,
                        signedBefore: seq<Receipt>)
      requires Issued(out, c, d, now, nonce, before, signedBefore) && store != null
      ensures Storable(out) && Tables() == Save(Numbered(before), out)
    {
    }

    lemma IssuedIsCounted(out: Receipt, c: Command, d: Decision, now: int, nonce: string, before: Db,
                          signedBefore: seq<Receipt>)
      requires Issued(out, c, d, now, nonce, before, signedBefore) && store == null
      ensures Tables() == Numbered(before)
    {
    }

    /** A receipt comes back only after its number is taken and, with a store, its row is
        saved; a failure takes at most the number. */
    method CreateAdmission(c: Command, d: Decision, now: int, nonce: string) returns (out: Option<Receipt>)
      modifies this`sequence, this`signed, store
      ensures out.Some? ==> Issued(out.value, c, d, now, nonce, old(Tables()), old(signed))
      ensures out.None? ==> store != null && (Tables() == old(Tables()) || Tables() == Numbered(old(Tables())))
    {
      var n := NextSequence();
      if n.None? {
        return None;
      }
      assert Tables() == Numbered(old(Tables())) && n.value == old(Tables()).sequence + 1;
      out := Sign(Admission(digest, show, config, c, d, now, nonce, n.value));
    }

    method Finalize(r: Receipt, response: Value) returns (out: Option<Receipt>)
      modifies this`signed, store
      ensures out.Some? ==>
        var f := Finalized(digest, r, response); Signable(f) && out.value == SignedBy(sign, f)
      ensures out.Some? ==> IsFinalizedFrom(digest, r, response, out.value)
      ensures out.Some? && store != null ==> Storable(out.value) && Tables() == Save(old(Tables()), out.value)
      ensures out.None? ==> Tables() == old(Tables())
    {
      out := Sign(Finalized(digest, r, response));
      if out.Some? {
        FinalizedIs(digest, sign, r, response);
      }
    }

    method MarkUnavailable(r: Receipt) returns (out: Option<Receipt>)
      modifies this`signed, store
      ensures out.Some? ==>
        var u := WithStatus(r, "unavailable"); Signable(u) && out.value == SignedBy(sign, u)
      ensures out.Some? ==> IsRestamped(r, out.value, "unavailable")
      ensures out.Some? && store != null ==> Storable(out.value) && Tables() == Save(old(Tables()), out.value)
      ensures out.None? ==> Tables() == old(Tables())
    {
      out := Sign(WithStatus(r, "unavailable"));
      if out.Some? {
        RestampedIs(sign, r, "unavailable");
      }
    }

    /** The loop over the required fields. */
    method HasAllFields(r: Receipt) returns (b: bool)
      ensures b <==> Complete(r)
    {
      for i := 0 to |SIGNING_FIELDS|
        invariant forall k | 0 <= k < i :: SIGNING_FIELDS[k] in r.fields
      {
        if SIGNING_FIELDS[i] !in r.fields {
          return false;
        }
      }
      forall f: Field | f != Signature ensures f in r.fields {
        var i := SignedUnlessSignature(f);
      }
      b := Signature in r.fields;
    }

    /** `validate`, in the order of its guards. */
    method ValidateReceipt(r: Receipt, verify: Verifying, o: Options, now: int) returns (out: Outcome)
      ensures out == Validate(digest, show, verify, r, o, now, ReplayState())
    {
      var complete := HasAllFields(r);
      if !complete {
        return Rejected(MissingField);
      }
      out := GuardsBefore(CheckSignature(verify, r), r, o, now);
      if out.Rejected? {
        return;
      }
      if store != null {
        if !HasReplayKey(r) {
          return Rejected(TypeError);
        }
        var replayed := store.IsConsumed(KeyOf(r));
        if replayed {
          return Rejected(Replayed);
        }
      }
      out := CheckAfter(digest, show, r, o);
    }

    /** The part of `consume` that records the key: false when it raises. */
    method MarkOnce(key: ReplayKey) returns (ok: bool)
      modifies this`consumed, store
      ensures ok ==> key !in old(Tables()).consumed && Tables() == Mark(old(Tables()), key)
      ensures !ok ==> Tables() == old(Tables())
      ensures store == null ==> (ok <==> key !in old(Tables()).consumed)
    {
      if store != null {
        ok := store.MarkConsumed(key);
      } else {
        ok := key !in consumed;
        if ok {
          consumed := consumed + {key};
        }
      }
    }

    /** `consume` succeeds on a receipt that validates and whose key was not consumed, and
        leaves the key consumed; a failure changes nothing, or, when only the final save
        failed, leaves the key consumed all the same. */
    method Consume(r: Receipt, now: int) returns (out: Option<Receipt>)
      modifies this`consumed, this`signed, store
      ensures out.Some? ==>
        && Validate(digest, show, verify, r, ConsumeOptions(config), now, old(ReplayState())).Accepted?
        && Signable(r) && HasReplayKey(r)
        && KeyOf(r) !in old(Tables()).consumed && KeyOf(r) in Tables().consumed
        && out.value == SignedBy(sign, WithStatus(r, "consumed"))
        && if store == null then Tables() == Mark(old(Tables()), KeyOf(r))
           else Storable(out.value) && Tables() == Save(Mark(old(Tables()), KeyOf(r)), out.value)
      ensures out.Some? ==> Consumable(verify, r, config, now) && IsRestamped(r, out.value, "consumed")
      ensures out.None? ==>
        Tables() == old(Tables()) || (HasReplayKey(r) && Tables() == Mark(old(Tables()), KeyOf(r)))
      ensures store == null && HasReplayKey(r) ==>
        (out.Some? <==>
          (KeyOf(r) !in old(consumed)
           && Validate(digest, show, verify, r, ConsumeOptions(config), now, None).Accepted?))
    {
      var checked := ValidateReceipt(r, verify, ConsumeOptions(config), now);
      if checked.Rejected? || !HasReplayKey(r) {
        return None;
      }
      var marked := MarkOnce(KeyOf(r));
      if !marked {
        return None;
      }
      out := Sign(WithStatus(r, "consumed"));
      if out.Some? {
        RestampedIs(sign, r, "consumed");
        AcceptedIsConsumable(digest, show, verify, r, config, now, old(ReplayState()));
      }
    }
  }

  /** Without a store, what consume recorded is invisible to `validate`: a receipt that has just
      been consumed still validates. */
  method ValidateAfterConsume(rm: ReceiptManager, r: Receipt, now: int) returns (copy: Option<Receipt>, again: Outcome)
    requires rm.store == null
    modifies rm
    ensures copy.Some? ==> HasReplayKey(r) && KeyOf(r) in rm.consumed && again.Accepted?
    ensures HasReplayKey(r) ==>
      (copy.Some? <==>
        (KeyOf(r) !in old(rm.consumed)
         && Validate(rm.digest, rm.show, rm.verify, r, ConsumeOptions(rm.config), now, None).Accepted?))
  {
    copy := rm.Consume(r, now);
    again := rm.ValidateReceipt(r, rm.verify, ConsumeOptions(rm.config), now);
  }
}
