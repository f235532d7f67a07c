/** The verifier server's connection handler: it reads a line, answers it, and reads the next;
    anything that raises while a line is being answered becomes a deny body. */
module Server {
  import opened Text
  import opened Json
  import opened Canonical
  import opened Binding
  import opened Receipts
  import opened Storage
  import opened Protocol
  import opened Verifier

  /** The stream reader refuses longer lines, which ends the handler. */
  const LINE_LIMIT: nat := 65536

  /** The lines the handler gets to read. */
  function Readable(lines: seq<string>): seq<string> {
    if lines == [] || |lines[0]| > LINE_LIMIT then [] else [lines[0]] + Readable(lines[1..])
  }

  /** What is left to read after a line. */
  function AfterLine(s: string): (rest: string)
    ensures s != "" ==> |rest| < |s|
  {
    var n := LineEnd(s);
    if n < |s| then s[n + 1..] else ""
  }

  lemma ReadableNext(s: string)
    requires s != ""
    ensures Readable(Lines(s)) ==
      if LineEnd(s) > LINE_LIMIT then [] else [s[..LineEnd(s)]] + Readable(Lines(AfterLine(s)))
  {
    var n := LineEnd(s);
    assert Lines(s) == [s[..n]] + Lines(AfterLine(s));
    assert Lines(s)[1..] == Lines(AfterLine(s));
  }

  /** handled and the lines of rest are the lines of input; output frames the bodies. */
  ghost predicate Progress(input: string, rest: string, handled: seq<string>, output: string, bodies: seq<Json>) {
    Readable(Lines(input)) == handled + Readable(Lines(rest)) && output == Framed(bodies)
  }

  lemma ProgressStep(input: string, rest: string, handled: seq<string>, output: string, bodies: seq<Json>, body: Json)
    requires Progress(input, rest, handled, output, bodies) && rest != "" && LineEnd(rest) <= LINE_LIMIT
    ensures Progress(input, AfterLine(rest), handled + [rest[..LineEnd(rest)]], output + Print(body) + "\n",
      bodies + [body])
  {
    ReadableNext(rest);
    FramedAppend(bodies, body);
  }

  lemma ProgressEnds(input: string, rest: string, handled: seq<string>, output: string, bodies: seq<Json>)
    requires Progress(input, rest, handled, output, bodies) && (rest == "" || LineEnd(rest) > LINE_LIMIT)
    ensures Readable(Lines(input)) == handled && output == Framed(bodies)
  {
    if rest != "" {
      ReadableNext(rest);
    }
    assert Readable(Lines(rest)) == [];
  }

  ghost predicate Denies(body: Json) {
    exists error :: body == DenyBody(error)
  }

  lemma DenyBodyDenies(error: string)
    ensures Denies(DenyBody(error))
  {
  }

  /** One answered line: the body, the receipt of a result, and the tables afterwards. */
  datatype Turn = Turn(body: Json, receipt: Option<Receipt>, after: Db)

  function Bodies(turns: seq<Turn>): (bodies: seq<Json>)
    ensures |bodies| == |turns| && forall i | 0 <= i < |turns| :: bodies[i] == turns[i].body
  {
    seq(|turns|, i requires 0 <= i < |turns| => turns[i].body)
  }

  /** The tables when turn i begins. */
  function Before(start: Db, turns: seq<Turn>, i: nat): Db
    requires i <= |turns|
  {
    if i == 0 then start else turns[i - 1].after
  }

  /** What a turn does to the tables: a receipt handed out has the next number, which is taken,
      and with a store it is saved; a deny takes at most a number. */
  predicate Accounts(stored: bool, before: Db, t: Turn) {
    match t.receipt
    case None => t.after == before || t.after == Numbered(before)
    case Some(r) =>
      HasNumber(r, before.sequence + 1)
      && if stored then Storable(r) && t.after == Save(Numbered(before), r) else t.after == Numbered(before)
  }

  ghost predicate AllAccounted(stored: bool, start: Db, turns: seq<Turn>) {
    forall i | 0 <= i < |turns| :: AccountsAt(stored, start, turns, i)
  }

  predicate AccountsAt(stored: bool, start: Db, turns: seq<Turn>, i: nat)
    requires i < |turns|
  {
    Accounts(stored, Before(start, turns, i), turns[i])
  }

  lemma OneMoreAccount(stored: bool, start: Db, turns: seq<Turn>, t: Turn)
    requires AllAccounted(stored, start, turns) && Accounts(stored, Before(start, turns, |turns|), t)
    ensures AllAccounted(stored, start, turns + [t]) && Before(start, turns + [t], |turns| + 1) == t.after
  {
    var all := turns + [t];
    forall i | 0 <= i < |all| ensures AccountsAt(stored, start, all, i) {
      assert Before(start, all, i) == Before(start, turns, i);
      assert i < |turns| ==> AccountsAt(stored, start, turns, i);
    }
  }

  lemma AccountGrows(stored: bool, start: Db, turns: seq<Turn>, i: nat)
    requires AllAccounted(stored, start, turns) && i < |turns|
    ensures Before(start, turns, i).sequence <= Before(start, turns, i + 1).sequence
  {
    assert AccountsAt(stored, start, turns, i);
  }

  lemma AccountOf(stored: bool, before: Db, t: Turn)
    requires Accounts(stored, before, t) && t.receipt.Some?
    ensures HasNumber(t.receipt.value, before.sequence + 1) && t.after.sequence == before.sequence + 1
    ensures stored ==> Holds(t.after, t.receipt.value)
  {
  }

  lemma {:induction false} TurnsGrow(stored: bool, start: Db, turns: seq<Turn>, i: nat, j: nat)
    requires AllAccounted(stored, start, turns) && i <= j <= |turns|
    ensures Before(start, turns, i).sequence <= Before(start, turns, j).sequence
    decreases j
  {
    if i < j {
      TurnsGrow(stored, start, turns, i, j - 1);
      AccountGrows(stored, start, turns, j - 1);
    }
  }

  /** Over a whole connection the receipts handed out carry distinct numbers, later ones larger,
      and with a store each is in the evidence table before its body is written. */
  lemma HandedOutIsSaved(stored: bool, start: Db, turns: seq<Turn>, i: nat, j: nat)
    requires AllAccounted(stored, start, turns) && i < j < |turns|
    requires turns[i].receipt.Some? && turns[j].receipt.Some?
    ensures var a, b := turns[i].receipt.value, turns[j].receipt.value;
      exists m: nat, n: nat :: m < n && HasNumber(a, m) && HasNumber(b, n)
    ensures stored ==>
      Holds(turns[i].after, turns[i].receipt.value) && Holds(turns[j].after, turns[j].receipt.value)
  {
    assert AccountsAt(stored, start, turns, i) && AccountsAt(stored, start, turns, j);
    AccountOf(stored, Before(start, turns, i), turns[i]);
    AccountOf(stored, Before(start, turns, j), turns[j]);
    TurnsGrow(stored, start, turns, i + 1, j);
  }

  class VerifierServer {
    const verifier: VerifierService
    const loads: Loads
    const errorCode: Decision -> Value

    constructor (verifier: VerifierService, loads: Loads, errorCode: Decision -> Value)
      ensures this.verifier == verifier && this.loads == loads && this.errorCode == errorCode
    {
      this.verifier, this.loads, this.errorCode := verifier, loads, errorCode;
    }

    function Decided(c: Command): Decision {
      Decide(verifier.rules, verifier.config, c)
    }

    /** The admission for c under number n. */
    function Admitted(c: Command, now: int, nonce: string, n: nat): Receipt {
      var rm := verifier.receipts;
      SignedBy(rm.sign, Admission(rm.digest, rm.show, rm.config, c, Decided(c), now, nonce, n))
    }

    /** The turn hands out a result: the admission for c and the body that carries it. */
    ghost predicate Issues(t: Turn, c: Command, now: int, nonce: string) {
      && t.receipt.Some? && Complete(t.receipt.value)
      && (exists n :: t.receipt.value == Admitted(c, now, nonce, n))
      && t.body == OkBody(Decided(c), t.receipt.value, errorCode(Decided(c)))
    }

    ghost predicate Fails(t: Turn) {
      t.receipt == None && Denies(t.body)
    }

    /** t answers line: with the decision on the command that the line decodes to, or with a
        deny, which without a store only an undecodable line gets. */
    ghost predicate Answers(t: Turn, line: string, now: int, nonce: string, trace: string) {
      var c := CommandOf(loads, line, now, trace);
      if c.None? then Fails(t)
      else Issues(t, c.value, now, nonce) || (Fails(t) && verifier.receipts.store != null)
    }

    /** The turns so far. */
    ghost predicate AllAnswered(turns: seq<Turn>, lines: seq<string>,
                                clock: nat -> int, draw: nat -> string, trace: nat -> string)
    {
      |turns| == |lines| &&
      forall i | 0 <= i < |turns| :: Answers(turns[i], lines[i], clock(i), draw(i), trace(i))
    }

    lemma OneMoreAnswer(turns: seq<Turn>, lines: seq<string>, t: Turn, line: string,
                        clock: nat -> int, draw: nat -> string, trace: nat -> string)
      requires AllAnswered(turns, lines, clock, draw, trace)
      requires Answers(t, line, clock(|lines|), draw(|lines|), trace(|lines|))
      ensures AllAnswered(turns + [t], lines + [line], clock, draw, trace)
    {
    }

    lemma IssuedIsAdmitted(r: Receipt, c: Command, now: int, nonce: string, before: Db, signedBefore: seq<Receipt>)
      requires verifier.receipts.Issued(r, c, Decided(c), now, nonce, before, signedBefore)
      ensures Complete(r) && r == Admitted(c, now, nonce, before.sequence + 1)
    {
      verifier.receipts.IssuedIsSigned(r, c, Decided(c), now, nonce, before, signedBefore);
    }

    lemma IssuedMakesTurn(r: Receipt, c: Command, now: int, nonce: string, before: Db, signedBefore: seq<Receipt>)
      requires verifier.receipts.Issued(r, c, Decided(c), now, nonce, before, signedBefore)
      ensures Complete(r)
      ensures forall db :: Issues(Turn(OkBody(Decided(c), r, errorCode(Decided(c))), Some(r), db), c, now, nonce)
    {
      IssuedIsAdmitted(r, c, now, nonce, before, signedBefore);
    }

    lemma AdmittedNumber(c: Command, now: int, nonce: string, n: nat)
      ensures HasNumber(Admitted(c, now, nonce, n), n)
    {
      var rm := verifier.receipts;
      AdmissionNumber(rm.digest, rm.show, rm.config, c, Decided(c), now, nonce, n);
    }

    lemma IssuedIsSavedTurn(r: Receipt, body: Json, c: Command, now: int, nonce: string, before: Db,
                            signedBefore: seq<Receipt>)
      requires verifier.receipts.Issued(r, c, Decided(c), now, nonce, before, signedBefore)
      ensures Accounts(verifier.receipts.store != null, before, Turn(body, Some(r), verifier.receipts.Tables()))
    {
      IssuedIsAdmitted(r, c, now, nonce, before, signedBefore);
      AdmittedNumber(c, now, nonce, before.sequence + 1);
      if verifier.receipts.store != null {
        verifier.receipts.IssuedIsSaved(r, c, Decided(c), now, nonce, before, signedBefore);
      } else {
        verifier.receipts.IssuedIsCounted(r, c, Decided(c), now, nonce, before, signedBefore);
      }
    }

    /** The try block once the command is there: a result leaves with its receipt, which is
        signed and with a store saved by then; a failed create_admission leaves as a deny. */
    method Decision(c: Command, now: int, nonce: string) returns (body: Json, ghost t: Turn)
      modifies verifier.receipts, verifier.receipts.store
      ensures t.body == body && t.after == verifier.receipts.Tables()
      ensures Issues(t, c, now, nonce) || (Fails(t) && verifier.receipts.store != null)
      ensures Accounts(verifier.receipts.store != null, old(verifier.receipts.Tables()), t)
    {
      var message: string := *;
      ghost var before, signedBefore := verifier.receipts.Tables(), verifier.receipts.signed;
      var result := verifier.Verify(c, now, nonce);
      if result.None? {
        DenyBodyDenies(message);
        body := DenyBody(message);
        return body, Turn(body, None, verifier.receipts.Tables());
      }
      IssuedMakesTurn(result.value.receipt, c, now, nonce, before, signedBefore);
      body := OkBody(Decided(c), result.value.receipt, errorCode(Decided(c)));
      IssuedIsSavedTurn(result.value.receipt, body, c, now, nonce, before, signedBefore);
      t := Turn(body, Some(result.value.receipt), verifier.receipts.Tables());
    }

    /** One turn of the loop. */
    method Respond(line: string, now: int, nonce: string, trace: string) returns (body: Json, ghost t: Turn)
      modifies verifier.receipts, verifier.receipts.store
      ensures t.body == body && t.after == verifier.receipts.Tables()
      ensures Answers(t, line, now, nonce, trace)
      ensures Accounts(verifier.receipts.store != null, old(verifier.receipts.Tables()), t)
      ensures CommandOf(loads, line, now, trace).None? ==> t.after == old(verifier.receipts.Tables())
    {
      var c := CommandOf(loads, line, now, trace);
      if c.None? {
        var message: string := *;
        DenyBodyDenies(message);
        body := DenyBody(message);
        return body, Turn(body, None, verifier.receipts.Tables());
      }
      body, t := Decision(c.value, now, nonce);
    }

    /** _handle on everything the peer ever sends: the i-th body answers the i-th line, a bad
        line disturbs no other, and every receipt handed out is accounted for. clock, draw and
        trace give the time, nonce and default trace id of each turn. */
    method Handle(input: string, clock: nat -> int, draw: nat -> string, trace: nat -> string)
      returns (output: string, ghost turns: seq<Turn>)
      modifies verifier.receipts, verifier.receipts.store
      ensures output == Framed(Bodies(turns))
      ensures AllAnswered(turns, Readable(Lines(input)), clock, draw, trace)
      ensures AllAccounted(verifier.receipts.store != null, old(verifier.receipts.Tables()), turns)
      ensures verifier.receipts.Tables() == Before(old(verifier.receipts.Tables()), turns, |turns|)
    {
      var rest := input;
      output, turns := "", [];
      ghost var handled: seq<string> := [];
      ghost var start := verifier.receipts.Tables();
      var turn: nat := 0;
      while rest != "" && LineEnd(rest) <= LINE_LIMIT
        invariant Progress(input, rest, handled, output, Bodies(turns))
        invariant |handled| == turn && AllAnswered(turns, handled, clock, draw, trace)
        invariant AllAccounted(verifier.receipts.store != null, start, turns)
        invariant verifier.receipts.Tables() == Before(start, turns, |turns|)
        decreases |rest|
      {
        var line := rest[..LineEnd(rest)];
        var body, t := Respond(line, clock(turn), draw(turn), trace(turn));
        OneMoreAnswer(turns, handled, t, line, clock, draw, trace);
        OneMoreAccount(verifier.receipts.store != null, start, turns, t);
        OneMoreBody(turns, t);
        ProgressStep(input, rest, handled, output, Bodies(turns), body);
        output := output + Print(body) + "\n";
        turns := turns + [t];
        handled := handled + [line];
        rest := AfterLine(rest);
        turn := turn + 1;
      }
      ProgressEnds(input, rest, handled, output, Bodies(turns));
    }
  }

  lemma OneMoreBody(turns: seq<Turn>, t: Turn)
    ensures Bodies(turns + [t]) == Bodies(turns) + [t.body]
  {
  }
}
