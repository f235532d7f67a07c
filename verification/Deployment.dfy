/** The two step systems as one: connections served by processes of the receipt lifecycle, so
    that a governed call's receipt is numbered, signed and saved by the lifecycle's own steps,
    with every other manager interfering. A step of this system is a step of the line protocol,
    or a step of a lifecycle process; saving an admission's row is both. */
module Deployment {
  import opened Text
  import opened Binding
  import opened Receipts
  import opened Storage
  import opened Protocol
  import L = Lifecycle
  import S = LifecycleSafety
  import E = EndToEnd
  import Verifier

  datatype World = World(life: L.World, talk: E.World)

  /** Both systems compute with one digest and one spelling of tools. */
  ghost predicate Matches(w: World) {
    w.life.digest == w.talk.digest && w.life.show == w.talk.show
  }

  datatype State = State(life: L.State, talk: E.State)

  function Decide(w: World, c: Command): Decision {
    Verifier.Decide(w.talk.rules, w.talk.ruleConfig, c)
  }

  /** Process p is deciding on a command that its connection has read. */
  predicate Serving(s: State, p: nat) {
    p in s.talk.conns && s.talk.conns[p].server.Deciding?
  }

  /** Steps of the protocol. A connection is opened to a process of the server's configuration;
      a line is read, and an exception leaves create_admission, when that process is at rest. */
  ghost predicate TalkStep(w: World, s: State, p: nat, a: E.Action, t: State) {
    && !a.Persist? && !a.SaveElsewhere? && E.Enabled(w.talk, s.talk, p, a)
    && (a.Open? ==> w.life.process(p).config == w.talk.config)
    && (a.ReadLine? || a.Raise? ==> L.PcOf(s.life, p).Idle?)
    && t == State(s.life, E.After(w.talk, s.talk, p, a))
  }

  /** What verify does with the command: the admission it starts is for that command and the
      rules' decision, and is signed with the server's key. */
  ghost predicate AsVerifyDoes(w: World, s: State, p: nat, a: L.Action)
    requires Serving(s, p)
  {
    var c := s.talk.conns[p].server.command;
    match a
    case StartAdmission(d) => d.command == c && d.decision == Decide(w, c)
    case SignAdmission(made, hex) => Signable(made) && hex == SignatureText(w.talk.sign, made)
    case _ => true
  }

  /** The row being saved is the admission that the connection waits for. */
  predicate AnswersCall(s: State, p: nat) {
    var pc := L.PcOf(s.life, p);
    Serving(s, p) && pc.Saving? && pc.purpose.Admitting?
  }

  /** What a saved row is to the connections. */
  function Saved(w: World, s: State, p: nat, r: Receipt): E.Action {
    if AnswersCall(s, p) then E.Persist(Decide(w, s.talk.conns[p].server.command), r) else E.SaveElsewhere(r)
  }

  function TalkAfter(w: World, s: State, p: nat, a: L.Action): E.State {
    if a.SaveRow? && L.PcOf(s.life, p).Saving? && E.Guard(s.talk, p, Saved(w, s, p, L.PcOf(s.life, p).receipt))
    then E.After(w.talk, s.talk, p, Saved(w, s, p, L.PcOf(s.life, p).receipt))
    else s.talk
  }

  ghost predicate LifeStep(w: World, s: State, p: nat, a: L.Action, t: State) {
    && L.Enabled(w.life, s.life, p, a) && (Serving(s, p) ==> AsVerifyDoes(w, s, p, a))
    && t == State(L.After(w.life, s.life, p, a), TalkAfter(w, s, p, a))
  }

  ghost predicate Step(w: World, s: State, t: State) {
    (exists p, a :: TalkStep(w, s, p, a, t)) || (exists p, a :: LifeStep(w, s, p, a, t))
  }

  ghost predicate StepsAt(w: World, states: seq<State>, i: nat) {
    i + 1 < |states| ==> Step(w, states[i], states[i + 1])
  }

  ghost predicate Run(w: World, states: seq<State>) {
    && states != [] && states[0] == State(L.INITIAL, E.State([], map[]))
    && forall i: nat :: StepsAt(w, states, i)
  }

  // ---- what couples the two ----

  function DraftOf(pc: L.Pc): Option<L.Draft> {
    match pc
    case Numbering(d) => Some(d)
    case NumberTx(d) => Some(d)
    case NumberRead(d, _) => Some(d)
    case NumberWritten(d, _) => Some(d)
    case NumberTaken(d, _) => Some(d)
    case _ => None
  }

  predicate DraftFor(w: World, c: Command, d: L.Draft) {
    d.command == c && d.decision == Decide(w, c)
  }

  /** What the process has in hand is for the command its connection has read. */
  ghost predicate InHand(w: World, c: Command, pc: L.Pc) {
    && (DraftOf(pc).Some? ==> DraftFor(w, c, DraftOf(pc).value))
    && (pc.Saving? && pc.purpose.Admitting? ==> E.Decides(w.talk, c, Decide(w, c), pc.receipt))
  }

  ghost predicate CoupledAt(w: World, s: State, p: nat) {
    && (p in s.talk.conns ==> w.life.process(p).config == w.talk.config)
    && (Serving(s, p) ==> InHand(w, s.talk.conns[p].server.command, L.PcOf(s.life, p)))
  }

  ghost predicate Coupled(w: World, s: State) {
    forall p :: CoupledAt(w, s, p)
  }

  // ---- steps of the protocol keep it ----

  lemma TalkOthers(w: World, s: E.State, p: nat, a: E.Action)
    requires E.Guard(s, p, a)
    ensures forall q | q != p ::
      (q in E.After(w.talk, s, p, a).conns <==> q in s.conns)
      && (q in s.conns ==> E.After(w.talk, s, p, a).conns[q] == s.conns[q])
  {
  }

  lemma TalkServes(w: World, s: E.State, p: nat, a: E.Action)
    requires E.Guard(s, p, a) && !a.SaveElsewhere?
    ensures var t := E.After(w.talk, s, p, a);
      p in t.conns && (t.conns[p].server.Deciding? ==>
        a.ReadLine? || (p in s.conns && t.conns[p].server == s.conns[p].server))
  {
  }

  lemma TalkKeptHere(w: World, s: State, p: nat, a: E.Action, t: State)
    requires CoupledAt(w, s, p) && TalkStep(w, s, p, a, t)
    ensures CoupledAt(w, t, p)
  {
    TalkServes(w, s.talk, p, a);
  }

  lemma TalkKeptElsewhere(w: World, s: State, p: nat, a: E.Action, t: State, q: nat)
    requires CoupledAt(w, s, q) && TalkStep(w, s, p, a, t) && q != p
    ensures CoupledAt(w, t, q)
  {
    TalkOthers(w, s.talk, p, a);
  }

  lemma TalkKept(w: World, s: State, p: nat, a: E.Action, t: State)
    requires Coupled(w, s) && TalkStep(w, s, p, a, t)
    ensures Coupled(w, t)
  {
    forall q ensures CoupledAt(w, t, q) {
      assert CoupledAt(w, s, q);
      if q == p {
        TalkKeptHere(w, s, p, a, t);
      } else {
        TalkKeptElsewhere(w, s, p, a, t, q);
      }
    }
  }

  // ---- steps of the lifecycle keep it ----

  lemma DraftMoves(w: L.World, s: L.State, p: nat, a: L.Action)
    requires L.Guard(s, p, a)
    ensures var now := DraftOf(L.PcOf(L.After(w, s, p, a), p));
      || now == None || (a.StartAdmission? && now == Some(a.draft)) || now == DraftOf(L.PcOf(s, p))
  {
  }

  lemma AdmittingIsSigned(w: L.World, s: L.State, p: nat, a: L.Action)
    requires L.Guard(s, p, a)
    ensures var pc := L.PcOf(L.After(w, s, p, a), p);
      pc.Saving? && pc.purpose.Admitting? ==> a.SignAdmission? && pc.receipt == WithSignature(a.made, a.hex)
  {
  }

  lemma SignedInHand(w: World, s: State, p: nat, a: L.Action, c: Command)
    requires Matches(w) && a.SignAdmission? && L.Enabled(w.life, s.life, p, a)
    requires w.life.process(p).config == w.talk.config && InHand(w, c, L.PcOf(s.life, p))
    requires Signable(a.made) && a.hex == SignatureText(w.talk.sign, a.made)
    ensures E.Decides(w.talk, c, Decide(w, c), WithSignature(a.made, a.hex))
  {
    var pc := L.PcOf(s.life, p);
    var d := pc.draft;
    assert DraftFor(w, c, d);
    E.SignedDecides(w.talk, c, WithSignature(a.made, a.hex), d.now, d.nonce, pc.n);
  }

  lemma HandKept(w: World, s: State, p: nat, a: L.Action)
    requires Matches(w) && Serving(s, p) && CoupledAt(w, s, p)
    requires L.Enabled(w.life, s.life, p, a) && AsVerifyDoes(w, s, p, a)
    ensures InHand(w, s.talk.conns[p].server.command, L.PcOf(L.After(w.life, s.life, p, a), p))
  {
    DraftMoves(w.life, s.life, p, a);
    AdmittingIsSigned(w.life, s.life, p, a);
    if a.SignAdmission? {
      SignedInHand(w, s, p, a, s.talk.conns[p].server.command);
    }
  }

  lemma SavingConns(w: World, s: State, p: nat, a: L.Action)
    ensures var t := TalkAfter(w, s, p, a);
      && t.conns.Keys == s.talk.conns.Keys
      && forall q | q in t.conns && t.conns[q].server.Deciding? :: t.conns[q].server == s.talk.conns[q].server
  {
  }

  lemma LifeKept(w: World, s: State, p: nat, a: L.Action, t: State)
    requires Matches(w) && Coupled(w, s) && LifeStep(w, s, p, a, t)
    ensures Coupled(w, t)
  {
    SavingConns(w, s, p, a);
    S.OthersStay(w.life, s.life, p, a);
    forall q ensures CoupledAt(w, t, q) {
      assert CoupledAt(w, s, q);
      if q == p && Serving(s, p) {
        HandKept(w, s, p, a);
      }
    }
  }

  // ---- the protocol is simulated ----

  /** Saving the awaited row is the protocol's Persist step: what the row holds is a signed
      admission for the command under the rules' decision. */
  lemma SaveIsPersist(w: World, s: State, p: nat)
    requires Coupled(w, s) && AnswersCall(s, p)
    ensures E.Enabled(w.talk, s.talk, p, Saved(w, s, p, L.PcOf(s.life, p).receipt))
  {
    assert CoupledAt(w, s, p);
  }

  lemma LifeSimulates(w: World, s: State, p: nat, a: L.Action)
    requires Coupled(w, s)
    ensures TalkAfter(w, s, p, a) == s.talk || E.Step(w.talk, s.talk, TalkAfter(w, s, p, a))
  {
    if a.SaveRow? && L.PcOf(s.life, p).Saving? && AnswersCall(s, p) {
      SaveIsPersist(w, s, p);
    }
    if TalkAfter(w, s, p, a) != s.talk {
      E.Steps(w.talk, s.talk, p, Saved(w, s, p, L.PcOf(s.life, p).receipt));
    }
  }

  /** Every step of the joint system is a step of the protocol, or leaves it alone; and it keeps
      the coupling. */
  lemma StepSimulates(w: World, s: State, t: State)
    requires Matches(w) && Coupled(w, s) && Step(w, s, t)
    ensures Coupled(w, t)
    ensures t.talk == s.talk || E.Step(w.talk, s.talk, t.talk)
  {
    if p, a :| TalkStep(w, s, p, a, t) {
      TalkKept(w, s, p, a, t);
      E.Steps(w.talk, s.talk, p, a);
    } else {
      var p, a :| LifeStep(w, s, p, a, t);
      LifeKept(w, s, p, a, t);
      LifeSimulates(w, s, p, a);
    }
  }

  ghost predicate Sound(w: World, s: State) {
    Coupled(w, s) && E.Inv(w.talk, s.talk)
  }

  lemma SoundAtStart(w: World, states: seq<State>)
    requires Run(w, states)
    ensures Sound(w, states[0])
  {
  }

  lemma SoundKept(w: World, s: State, t: State)
    requires Matches(w) && InvertsPrint(w.talk.loads) && KeepsTexts(w.talk.parse)
    requires Sound(w, s) && Step(w, s, t)
    ensures Sound(w, t)
  {
    StepSimulates(w, s, t);
    if t.talk != s.talk {
      E.StepKeepsInv(w.talk, s.talk, t.talk);
    }
  }

  lemma SoundNext(w: World, states: seq<State>, i: nat)
    requires Matches(w) && InvertsPrint(w.talk.loads) && KeepsTexts(w.talk.parse)
    requires Run(w, states) && i + 1 < |states| && Sound(w, states[i])
    ensures Sound(w, states[i + 1])
  {
    assert StepsAt(w, states, i);
    SoundKept(w, states[i], states[i + 1]);
  }

  /** Every state of every run satisfies the coupling and the protocol's invariant. */
  lemma Simulates(w: World, states: seq<State>, i: nat)
    requires Matches(w) && InvertsPrint(w.talk.loads) && KeepsTexts(w.talk.parse)
    requires Run(w, states) && i < |states|
    ensures Sound(w, states[i])
  {
    SoundAtStart(w, states);
    for j := 0 to i
      invariant Sound(w, states[j])
    {
      SoundNext(w, states, j);
    }
  }

  // ---- where saved receipts come from ----

  lemma TalkSavesNothing(w: World, s: State, p: nat, a: E.Action, t: State)
    requires TalkStep(w, s, p, a, t)
    ensures t.talk.saved == s.talk.saved
  {
    assert s.talk.saved + [] == s.talk.saved;
  }

  lemma OnlySavesSave(w: World, s: State, p: nat, a: L.Action, r: Receipt)
    requires r in TalkAfter(w, s, p, a).saved && r !in s.talk.saved
    ensures a.SaveRow? && L.PcOf(s.life, p).Saving? && L.PcOf(s.life, p).receipt == r
  {
  }

  lemma SaveFills(w: L.World, s: L.State, p: nat)
    requires L.Guard(s, p, L.SaveRow)
    ensures L.After(w, s, p, L.SaveRow).db == Save(s.db, L.PcOf(s, p).receipt)
  {
  }

  lemma LifeSaves(w: World, s: State, p: nat, a: L.Action, t: State, r: Receipt)
    requires LifeStep(w, s, p, a, t) && r in t.talk.saved && r !in s.talk.saved
    ensures Holds(t.life.db, r)
  {
    OnlySavesSave(w, s, p, a, r);
    SaveFills(w.life, s.life, p);
  }

  lemma NewlySaved(w: World, s: State, t: State, r: Receipt)
    requires Step(w, s, t) && r in t.talk.saved && r !in s.talk.saved
    ensures Holds(t.life.db, r)
  {
    if p, a :| TalkStep(w, s, p, a, t) {
      TalkSavesNothing(w, s, p, a, t);
      assert false;
    } else {
      var p, a :| LifeStep(w, s, p, a, t);
      LifeSaves(w, s, p, a, t, r);
    }
  }

  lemma FirstSavedAt(w: World, states: seq<State>, i: nat, r: Receipt)
    requires Run(w, states) && i < |states| && r in states[i].talk.saved
    requires i > 0 ==> r !in states[i - 1].talk.saved
    ensures Holds(states[i].life.db, r)
  {
    if i > 0 {
      assert StepsAt(w, states, i - 1);
      NewlySaved(w, states[i - 1], states[i], r);
    }
  }

  /** What the protocol counts as saved was a committed row of the evidence table. */
  lemma SavedWasCommitted(w: World, states: seq<State>, i: nat, r: Receipt) returns (j: nat)
    requires Run(w, states) && i < |states| && r in states[i].talk.saved
    ensures j <= i && Holds(states[j].life.db, r)
  {
    j := i;
    while j > 0 && r in states[j - 1].talk.saved
      invariant j <= i && r in states[j].talk.saved
    {
      j := j - 1;
    }
    FirstSavedAt(w, states, j, r);
  }

  /** Fail-closed over the real steps: in every run of the joint system, any number of other
      managers taking numbers, signing, saving and consuming meanwhile, when a tool body is
      entered the evidence table has held, at an earlier moment, a signed allow admission for
      that tool and those parameters, and for that caller's agent, context and cost. */
  lemma ToolRunsOnlyOnCommittedRow(w: World, states: seq<State>, i: nat, p: nat) returns (j: nat, r: Receipt)
    requires Matches(w) && InvertsPrint(w.talk.loads) && KeepsTexts(w.talk.parse)
    requires Run(w, states) && i + 1 < |states|
    requires p in states[i + 1].talk.conns && states[i + 1].talk.conns[p].ran
    requires p in states[i].talk.conns ==> !states[i].talk.conns[p].ran
    ensures j <= i && Holds(states[j].life.db, r)
    ensures E.Authorizes(w.talk, r, states[i + 1].talk.conns[p].call)
  {
    Simulates(w, states, i);
    assert StepsAt(w, states, i);
    StepSimulates(w, states[i], states[i + 1]);
    E.EntryIsAuthorized(w.talk, states[i].talk, states[i + 1].talk, p);
    var call := states[i + 1].talk.conns[p].call;
    r :| r in states[i].talk.saved && E.Authorizes(w.talk, r, call);
    j := SavedWasCommitted(w, states, i, r);
  }

  // ---- a call that nothing disturbs ----

  ghost predicate RunsTo(w: World, states: seq<State>, t: State) {
    Run(w, states) && states[|states| - 1] == t
  }

  ghost predicate Reaches(w: World, t: State) {
    exists states :: RunsTo(w, states, t)
  }

  lemma ReachesStart(w: World)
    ensures Reaches(w, State(L.INITIAL, E.State([], map[])))
  {
    assert RunsTo(w, [State(L.INITIAL, E.State([], map[]))], State(L.INITIAL, E.State([], map[])));
  }

  lemma StepsExtend(w: World, states: seq<State>, t: State, i: nat)
    requires StepsAt(w, states, i) && states != [] && Step(w, states[|states| - 1], t)
    ensures StepsAt(w, states + [t], i)
  {
    var all := states + [t];
    if i + 1 < |states| {
      assert all[i] == states[i] && all[i + 1] == states[i + 1];
    } else if i + 1 == |states| {
      assert all[i] == states[|states| - 1] && all[i + 1] == t;
    }
  }

  lemma RunExtends(w: World, states: seq<State>, t: State)
    requires Run(w, states) && Step(w, states[|states| - 1], t)
    ensures Run(w, states + [t])
  {
    assert (states + [t])[0] == states[0];
    forall i: nat ensures StepsAt(w, states + [t], i) {
      assert StepsAt(w, states, i);
      StepsExtend(w, states, t, i);
    }
  }

  lemma EndsThere(w: World, states: seq<State>, t: State)
    requires Run(w, states + [t])
    ensures RunsTo(w, states + [t], t)
  {
  }

  lemma ReachesNext(w: World, s: State, t: State)
    requires Reaches(w, s) && Step(w, s, t)
    ensures Reaches(w, t)
  {
    var states :| RunsTo(w, states, s);
    RunExtends(w, states, t);
    EndsThere(w, states, t);
  }

  /** The state with one connection, served by process 0. */
  function Served(life: L.State, saved: seq<Receipt>, k: E.Conn): State {
    State(life, E.Single(saved, k))
  }

  lemma TalkMoves(w: World, s: State, p: nat, a: E.Action, t: State)
    requires TalkStep(w, s, p, a, t)
    ensures Step(w, s, t)
  {
  }

  lemma ProcessMoves(w: World, s: State, p: nat, a: L.Action, t: State)
    requires LifeStep(w, s, p, a, t)
    ensures Step(w, s, t)
  {
  }

  lemma Opens(w: World, call: E.Call)
    requires E.Sends(call) && w.life.process(0).config == w.talk.config
    ensures Reaches(w, Served(L.INITIAL, [], E.Opened(call)))
  {
    ReachesStart(w);
    E.OpenedAlone(w.talk, [], call);
    E.OpenedIsSingle(w.talk, [], call);
    TalkMoves(w, State(L.INITIAL, E.State([], map[])), 0, E.Open(call), Served(L.INITIAL, [], E.Opened(call)));
    ReachesNext(w, State(L.INITIAL, E.State([], map[])), Served(L.INITIAL, [], E.Opened(call)));
  }

  lemma ClientMoves(w: World, life: L.State, saved: seq<Receipt>, k: E.Conn, a: E.Action)
    requires Reaches(w, Served(life, saved, k)) && E.ClientSide(a) && E.ClientGuard(k, a)
    ensures Reaches(w, Served(life, saved, E.AfterClient(w.talk, k, a)))
  {
    E.ClientEnabled(w.talk, saved, k, a);
    E.SingleMoves(w.talk, saved, k, a);
    assert saved + [] == saved;
    TalkMoves(w, Served(life, saved, k), 0, a, Served(life, saved, E.AfterClient(w.talk, k, a)));
    ReachesNext(w, Served(life, saved, k), Served(life, saved, E.AfterClient(w.talk, k, a)));
  }

  lemma ServerMoves(w: World, life: L.State, saved: seq<Receipt>, k: E.Conn, a: E.Action)
    requires Reaches(w, Served(life, saved, k)) && E.ServerGuard(k, a) && E.ServerComputed(w.talk, k, a)
    requires a.Write? || (a.ReadLine? && L.PcOf(life, 0).Idle?)
    ensures Reaches(w, Served(life, saved, E.AfterServer(k, a)))
  {
    E.ServerEnabled(w.talk, saved, k, a);
    E.SingleMoves(w.talk, saved, k, a);
    assert saved + [] == saved;
    TalkMoves(w, Served(life, saved, k), 0, a, Served(life, saved, E.AfterServer(k, a)));
    ReachesNext(w, Served(life, saved, k), Served(life, saved, E.AfterServer(k, a)));
  }

  lemma LifeMoves(w: World, life: L.State, saved: seq<Receipt>, k: E.Conn, a: L.Action)
    requires Reaches(w, Served(life, saved, k)) && L.Enabled(w.life, life, 0, a) && !a.SaveRow?
    requires k.server.Deciding? && AsVerifyDoes(w, Served(life, saved, k), 0, a)
    ensures Reaches(w, Served(L.After(w.life, life, 0, a), saved, k))
  {
    ProcessMoves(w, Served(life, saved, k), 0, a, Served(L.After(w.life, life, 0, a), saved, k));
    ReachesNext(w, Served(life, saved, k), Served(L.After(w.life, life, 0, a), saved, k));
  }

  lemma PersistGuard(w: E.World, k: E.Conn, d: Decision, r: Receipt)
    requires k.server.Deciding?
    ensures E.Guard(E.Single([], k), 0, E.Persist(d, r))
    ensures E.ConnAfter(w, E.Single([], k), 0, E.Persist(d, r)) == k.(server := E.Persisted(d, r))
  {
  }

  lemma PersistAlone(w: E.World, k: E.Conn, d: Decision, r: Receipt)
    requires k.server.Deciding?
    ensures E.Guard(E.Single([], k), 0, E.Persist(d, r))
    ensures E.After(w, E.Single([], k), 0, E.Persist(d, r)) == E.Single([r], k.(server := E.Persisted(d, r)))
  {
    PersistGuard(w, k, d, r);
    SavesOne(d, r);
    E.MovesTo(w, [], k, E.Persist(d, r), [r], k.(server := E.Persisted(d, r)));
  }

  lemma SavesOne(d: Decision, r: Receipt)
    ensures [] + E.Saves(E.Persist(d, r)) == [r]
  {
  }

  lemma SaveTalks(w: World, s: State, p: nat, r: Receipt)
    requires L.PcOf(s.life, p).Saving? && L.PcOf(s.life, p).receipt == r && E.Guard(s.talk, p, Saved(w, s, p, r))
    ensures TalkAfter(w, s, p, L.SaveRow) == E.After(w.talk, s.talk, p, Saved(w, s, p, r))
  {
  }

  /** The connection that has been told of its saved receipt. */
  function Told(w: World, k: E.Conn, r: Receipt): E.Conn
    requires k.server.Deciding?
  {
    k.(server := E.Persisted(Decide(w, k.server.command), r))
  }

  lemma ServedConn(life: L.State, saved: seq<Receipt>, k: E.Conn)
    ensures 0 in Served(life, saved, k).talk.conns && Served(life, saved, k).talk.conns[0] == k
  {
  }

  lemma AnsweredBySave(w: World, s: State, p: nat, k: E.Conn, r: Receipt)
    requires p in s.talk.conns && s.talk.conns[p] == k && k.server.Deciding?
    requires L.PcOf(s.life, p) == L.Saving(r, L.Admitting)
    ensures Saved(w, s, p, r) == E.Persist(Decide(w, k.server.command), r)
  {
  }

  lemma TellsServed(w: World, life: L.State, k: E.Conn, r: Receipt)
    requires L.PcOf(life, 0) == L.Saving(r, L.Admitting) && k.server.Deciding?
    ensures Saved(w, Served(life, [], k), 0, r) == E.Persist(Decide(w, k.server.command), r)
  {
    ServedConn(life, [], k);
    AnsweredBySave(w, Served(life, [], k), 0, k, r);
  }

  lemma SavedAlone(w: World, life: L.State, k: E.Conn, r: Receipt)
    requires L.PcOf(life, 0) == L.Saving(r, L.Admitting) && k.server.Deciding?
    ensures TalkAfter(w, Served(life, [], k), 0, L.SaveRow) == E.Single([r], Told(w, k, r))
  {
    TellsServed(w, life, k, r);
    PersistAlone(w.talk, k, Decide(w, k.server.command), r);
    SaveTalks(w, Served(life, [], k), 0, r);
  }

  lemma SaveSteps(w: World, life: L.State, k: E.Conn)
    requires L.Enabled(w.life, life, 0, L.SaveRow)
    ensures LifeStep(w, Served(life, [], k), 0, L.SaveRow,
      State(L.After(w.life, life, 0, L.SaveRow), TalkAfter(w, Served(life, [], k), 0, L.SaveRow)))
  {
  }

  lemma SaveMoves(w: World, life: L.State, k: E.Conn, r: Receipt)
    requires Reaches(w, Served(life, [], k)) && L.Enabled(w.life, life, 0, L.SaveRow)
    requires k.server.Deciding? && L.PcOf(life, 0) == L.Saving(r, L.Admitting)
    ensures Reaches(w, Served(L.After(w.life, life, 0, L.SaveRow), [r], Told(w, k, r)))
  {
    var t := Served(L.After(w.life, life, 0, L.SaveRow), [r], Told(w, k, r));
    SaveSteps(w, life, k);
    SavedAlone(w, life, k, r);
    ProcessMoves(w, Served(life, [], k), 0, L.SaveRow, t);
    ReachesNext(w, Served(life, [], k), t);
  }

  /** Process 0 stands at pc, the lock is free and n numbers have been taken. */
  predicate At(s: L.State, pc: L.Pc, n: nat) {
    L.PcOf(s, 0) == pc && s.lock == None && s.db.sequence == n
  }

  lemma Drafts(w: L.World, s: L.State, d: L.Draft)
    requires At(s, L.Idle, 0) && d.nonce !in s.nonces
    ensures L.Enabled(w, s, 0, L.StartAdmission(d)) && At(L.After(w, s, 0, L.StartAdmission(d)), L.Numbering(d), 0)
  {
  }

  lemma Locks(w: L.World, s: L.State, d: L.Draft)
    requires At(s, L.Numbering(d), 0)
    ensures L.Enabled(w, s, 0, L.Lock)
    ensures var t := L.After(w, s, 0, L.Lock); L.PcOf(t, 0) == L.NumberTx(d) && t.db.sequence == 0
  {
  }

  lemma ReadsRow(w: L.World, s: L.State, d: L.Draft)
    requires L.PcOf(s, 0) == L.NumberTx(d) && s.db.sequence == 0
    ensures L.Enabled(w, s, 0, L.ReadRow) && L.PcOf(L.After(w, s, 0, L.ReadRow), 0) == L.NumberRead(d, 1)
  {
  }

  lemma WritesRow(w: L.World, s: L.State, d: L.Draft)
    requires L.PcOf(s, 0) == L.NumberRead(d, 1)
    ensures L.Enabled(w, s, 0, L.WriteRow) && L.PcOf(L.After(w, s, 0, L.WriteRow), 0) == L.NumberWritten(d, 1)
  {
  }

  lemma Commits(w: L.World, s: L.State, d: L.Draft)
    requires L.PcOf(s, 0) == L.NumberWritten(d, 1)
    ensures L.Enabled(w, s, 0, L.Commit) && At(L.After(w, s, 0, L.Commit), L.NumberTaken(d, 1), 1)
  {
  }

  /** A step of process 0 that is not bound to the command. */
  lemma Moves(w: World, life: L.State, k: E.Conn, a: L.Action) returns (next: L.State)
    requires Reaches(w, Served(life, [], k)) && k.server.Deciding? && L.Enabled(w.life, life, 0, a)
    requires a.Lock? || a.ReadRow? || a.WriteRow? || a.Commit?
    ensures next == L.After(w.life, life, 0, a) && Reaches(w, Served(next, [], k))
  {
    LifeMoves(w, life, [], k, a);
    next := L.After(w.life, life, 0, a);
  }

  lemma StartsDraft(w: World, life: L.State, k: E.Conn, d: L.Draft) returns (next: L.State)
    requires Reaches(w, Served(life, [], k)) && k.server.Deciding? && DraftFor(w, k.server.command, d)
    requires At(life, L.Idle, 0) && d.nonce !in life.nonces
    ensures Reaches(w, Served(next, [], k)) && At(next, L.Numbering(d), 0)
  {
    Drafts(w.life, life, d);
    LifeMoves(w, life, [], k, L.StartAdmission(d));
    next := L.After(w.life, life, 0, L.StartAdmission(d));
  }

  lemma TakesNumber(w: World, life: L.State, k: E.Conn, d: L.Draft) returns (taken: L.State)
    requires Reaches(w, Served(life, [], k)) && k.server.Deciding? && At(life, L.Numbering(d), 0)
    ensures Reaches(w, Served(taken, [], k)) && At(taken, L.NumberTaken(d, 1), 1)
  {
    Locks(w.life, life, d);
    var locked := Moves(w, life, k, L.Lock);
    ReadsRow(w.life, locked, d);
    var read := Moves(w, locked, k, L.ReadRow);
    WritesRow(w.life, read, d);
    var written := Moves(w, read, k, L.WriteRow);
    Commits(w.life, written, d);
    taken := Moves(w, written, k, L.Commit);
  }

  /** The admission that process 0 signs for a draft as number 1. */
  function Made(w: World, d: L.Draft): (r: Receipt)
    ensures Complete(r)
  {
    Admission(w.talk.digest, w.talk.show, w.talk.config, d.command, d.decision, d.now, d.nonce, 1)
  }

  function Issued(w: World, d: L.Draft): (r: Receipt)
    ensures Complete(r)
  {
    SignedBy(w.talk.sign, Made(w, d))
  }

  lemma SignedAlone(w: L.World, s: L.State, made: Receipt, hex: string)
    requires L.PcOf(s, 0).NumberTaken? && s.lock == None && s.db.sequence == 1
    ensures At(L.After(w, s, 0, L.SignAdmission(made, hex)), L.Saving(WithSignature(made, hex), L.Admitting), 1)
  {
  }

  lemma Signs(w: World, s: L.State, d: L.Draft)
    requires Matches(w) && w.life.process(0).config == w.talk.config && At(s, L.NumberTaken(d, 1), 1)
    ensures var a := L.SignAdmission(Made(w, d), SignatureText(w.talk.sign, Made(w, d)));
      L.Enabled(w.life, s, 0, a) && At(L.After(w.life, s, 0, a), L.Saving(Issued(w, d), L.Admitting), 1)
  {
    SignedAlone(w.life, s, Made(w, d), SignatureText(w.talk.sign, Made(w, d)));
  }

  lemma SignsAdmission(w: World, life: L.State, k: E.Conn, d: L.Draft) returns (next: L.State)
    requires Matches(w) && w.life.process(0).config == w.talk.config
    requires Reaches(w, Served(life, [], k)) && k.server.Deciding? && At(life, L.NumberTaken(d, 1), 1)
    ensures Reaches(w, Served(next, [], k)) && At(next, L.Saving(Issued(w, d), L.Admitting), 1)
  {
    var a := L.SignAdmission(Made(w, d), SignatureText(w.talk.sign, Made(w, d)));
    Signs(w, life, d);
    LifeMoves(w, life, [], k, a);
    next := L.After(w.life, life, 0, a);
  }

  lemma RowIsHeld(w: L.World, s: L.State, r: Receipt)
    requires At(s, L.Saving(r, L.Admitting), 1) && Storable(r)
    ensures L.Enabled(w, s, 0, L.SaveRow) && Holds(L.After(w, s, 0, L.SaveRow).db, r)
  {
    SaveFills(w, s, 0);
  }

  lemma SavesAdmission(w: World, life: L.State, k: E.Conn, r: Receipt) returns (next: L.State)
    requires Reaches(w, Served(life, [], k)) && k.server.Deciding? && Storable(r)
    requires At(life, L.Saving(r, L.Admitting), 1)
    ensures Reaches(w, Served(next, [r], Told(w, k, r))) && Holds(next.db, r)
  {
    RowIsHeld(w.life, life, r);
    SaveMoves(w, life, k, r);
    next := L.After(w.life, life, 0, L.SaveRow);
  }

  lemma ReachesDecision(w: World, call: E.Call)
    requires InvertsPrint(w.talk.loads) && E.Sends(call) && w.life.process(0).config == w.talk.config
    ensures Reaches(w, Served(L.INITIAL, [], E.DecidingConn(call)))
  {
    var k := E.Opened(call).(delivered := |E.RequestText(call)|);
    Opens(w, call);
    E.DeliveredConn(w.talk, E.Opened(call), |E.RequestText(call)|);
    ClientMoves(w, L.INITIAL, [], E.Opened(call), E.Deliver(|E.RequestText(call)|));
    E.ReadGuard(k, Some(call.command));
    E.WholeRequestIsRead(w.talk, k);
    ServerMoves(w, L.INITIAL, [], k, E.ReadLine(Some(call.command)));
  }

  lemma ReachesSaved(w: World, call: E.Call, d: L.Draft) returns (life: L.State)
    requires Matches(w) && w.life.process(0).config == w.talk.config
    requires DraftFor(w, call.command, d) && Storable(Issued(w, d))
    requires Reaches(w, Served(L.INITIAL, [], E.DecidingConn(call)))
    ensures Reaches(w, Served(life, [Issued(w, d)],
      E.DecidingConn(call).(server := E.Persisted(d.decision, Issued(w, d)))))
    ensures Holds(life.db, Issued(w, d))
  {
    var k := E.DecidingConn(call);
    var started := StartsDraft(w, L.INITIAL, k, d);
    var taken := TakesNumber(w, started, k, d);
    var signed := SignsAdmission(w, taken, k, d);
    life := SavesAdmission(w, signed, k, Issued(w, d));
  }

  lemma ReachesAnswer(w: World, life: L.State, call: E.Call, d: Decision, r: Receipt)
    requires Reaches(w, Served(life, [r], E.DecidingConn(call).(server := E.Persisted(d, r)))) && Complete(r)
    ensures Reaches(w, Served(life, [r], E.AnsweredConn(w.talk, call, d, r)))
  {
    var k := E.DecidingConn(call).(server := E.Persisted(d, r));
    E.BodyIsComputed(w.talk, k, d, r);
    ServerMoves(w, life, [r], k, E.Write(OkBody(d, r, w.talk.errorCode(d))));
  }

  lemma ReachesTool(w: World, life: L.State, call: E.Call, d: Decision, r: Receipt)
    requires KeepsTexts(w.talk.parse) && Complete(r) && d.verdict == "allow"
    requires Reaches(w, Served(life, [r], E.AnsweredConn(w.talk, call, d, r)))
    ensures Reaches(w, Served(life, [r], E.FinishedConn(w.talk, call, d, r)))
  {
    var k := E.AnsweredConn(w.talk, call, d, r);
    var heard := E.AfterClient(w.talk, k, E.Receive(|k.written|));
    ClientMoves(w, life, [r], k, E.Receive(|k.written|));
    E.WholeAnswerRuns(w.talk, call, d, r);
    ClientMoves(w, life, [r], heard, E.RunTool);
  }

  /** There are such runs: for every governed call that the rules allow, and every draft of its
      admission whose row the table can hold, the steps of both systems lead from the empty
      database to a state in which that row is committed and the tool has been entered. */
  lemma AllowedCallRuns(w: World, call: E.Call, d: L.Draft) returns (t: State)
    requires Matches(w) && InvertsPrint(w.talk.loads) && KeepsTexts(w.talk.parse)
    requires w.life.process(0).config == w.talk.config && E.Sends(call)
    requires DraftFor(w, call.command, d) && d.decision.verdict == "allow" && Storable(Issued(w, d))
    ensures Reaches(w, t) && Holds(t.life.db, Issued(w, d))
    ensures 0 in t.talk.conns && t.talk.conns[0].ran && t.talk.conns[0].call == call
  {
    ReachesDecision(w, call);
    var life := ReachesSaved(w, call, d);
    ReachesAnswer(w, life, call, d.decision, Issued(w, d));
    ReachesTool(w, life, call, d.decision, Issued(w, d));
    E.FinishedHasRun(w.talk, call, d.decision, Issued(w, d));
    t := Served(life, [Issued(w, d)], E.FinishedConn(w.talk, call, d.decision, Issued(w, d)));
  }
}
