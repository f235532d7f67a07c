/** load_or_create_seed as a race: any number of processes calling it on one path, each
    file-system call a step of its own, any process failing between two steps. */
module Seed {
  import opened Text

  const LENGTH: nat := 32

  // ---- one undisturbed call ----

  class SeedFile {
    var content: Option<Bytes>     // None while the file does not exist

    constructor (content: Option<Bytes>)
      ensures this.content == content
    {
      this.content := content;
    }

    /** data is what secrets.token_bytes(32) gives. None when the call raises. os.write may
        write less than it was given, and its result is not looked at. */
    method LoadOrCreate(data: Bytes) returns (seed: Option<Bytes>)
      requires |data| == LENGTH
      modifies this
      ensures old(content).Some? ==>
        && content == old(content)
        && seed == if |content.value| == LENGTH then content else None
      ensures old(content).None? && content.Some? ==> content.value <= data
      ensures old(content).None? ==> seed in {None, Some(data)}
      ensures seed.Some? ==> |seed.value| == LENGTH && content.Some? && content.value <= seed.value
    {
      if content.Some? {
        var read := content.value;
        if |read| != LENGTH {
          return None;
        }
        return Some(read);
      }
      var created: bool := *;
      if !created {
        return None;
      }
      content := Some([]);
      var failed, written: nat := *, *;
      if failed > 0 {
        return None;
      }
      content := Some(data[..if written < LENGTH then written else LENGTH]);
      var synced: bool := *;
      seed := if synced then Some(data) else None;
    }
  }

  // ---- the race ----

  datatype Pc = Idle | Reading | Minting | Writing(data: Bytes) | Finishing(data: Bytes)

  /** returned and minted are history: what successful calls gave back, and what was drawn by
      the calls that created the file. */
  datatype State = State(file: Option<Bytes>, pcs: map<nat, Pc>, returned: seq<Bytes>, minted: seq<Bytes>)

  datatype Action =
    | Exists
    | Read
    | Open(data: Bytes)     // O_CREAT | O_EXCL, with the bytes drawn before
    | Write(count: nat)     // how many bytes os.write wrote
    | Return
    | Fail                  // raise or crash

  function PcOf(s: State, p: nat): Pc {
    if p in s.pcs then s.pcs[p] else Idle
  }

  predicate Enabled(s: State, p: nat, a: Action) {
    var pc := PcOf(s, p);
    match a
    case Exists => pc.Idle?
    case Read => pc.Reading? && s.file.Some?
    case Open(data) => pc.Minting? && |data| == LENGTH
    case Write(count) => pc.Writing? && count <= |pc.data|
    case Return => pc.Finishing?
    case Fail => true
  }

  function Moved(s: State, p: nat, pc: Pc): State {
    s.(pcs := s.pcs[p := pc])
  }

  function After(s: State, p: nat, a: Action): State
    requires Enabled(s, p, a)
  {
    var pc := PcOf(s, p);
    match a
    case Exists => Moved(s, p, if s.file.Some? then Reading else Minting)
    case Read =>
      if |s.file.value| == LENGTH then Moved(s, p, Idle).(returned := s.returned + [s.file.value])
      else Moved(s, p, Idle)
    case Open(data) =>
      if s.file.Some? then Moved(s, p, Idle)                        // FileExistsError
      else Moved(s, p, Writing(data)).(file := Some([]), minted := s.minted + [data])
    case Write(count) => Moved(s, p, Finishing(pc.data)).(file := Some(pc.data[..count]))
    case Return => Moved(s, p, Idle).(returned := s.returned + [pc.data])
    case Fail => Moved(s, p, Idle)
  }

  ghost predicate Step(s: State, t: State) {
    exists p, a :: Enabled(s, p, a) && t == After(s, p, a)
  }

  /** A run, from any file an operator may have put there or none. */
  ghost predicate Run(states: seq<State>) {
    && states != []
    && states[0].pcs == map[] && states[0].returned == [] && states[0].minted == []
    && Continues(states)
  }

  ghost predicate Continues(states: seq<State>) {
    forall i | 0 <= i < |states| - 1 :: Step(states[i], states[i + 1])
  }

  /** The 32 bytes that calls may return: what was minted, or what was there before. */
  function Candidate(s: State): Bytes {
    if s.minted != [] then s.minted[0] else if s.file.Some? then s.file.value else []
  }

  ghost predicate Inv(s: State) {
    && |s.minted| <= 1
    && (s.minted != [] ==> |s.minted[0]| == LENGTH && s.file.Some? && s.file.value <= s.minted[0])
    && (s.file.None? ==> s.returned == [] && s.minted == [])
    && (forall i | 0 <= i < |s.returned| :: s.returned[i] == Candidate(s) && |s.returned[i]| == LENGTH)
    && (forall p :: PcOf(s, p).Reading? ==> s.file.Some?)
    && (forall p :: PcOf(s, p).Writing? ==> s.minted == [PcOf(s, p).data] && s.file == Some([]))
    && (forall p :: PcOf(s, p).Finishing? ==> s.minted == [PcOf(s, p).data])
    && (forall p, q :: PcOf(s, p).Writing? && (PcOf(s, q).Writing? || PcOf(s, q).Finishing?) ==> p == q)
    && (forall p :: PcOf(s, p).Writing? ==> s.returned == [])
  }

  lemma InvKept(s: State, p: nat, a: Action)
    requires Inv(s) && Enabled(s, p, a)
    ensures Inv(After(s, p, a))
  {
    var t := After(s, p, a);
    assert forall q | q != p :: PcOf(t, q) == PcOf(s, q);
    match a
    case Read =>
      if s.minted != [] && |s.file.value| == LENGTH {
        assert s.file.value == s.minted[0];
      }
    case Open(data) => assert s.file.None? ==> t.returned == [];
    case _ =>
  }

  lemma {:induction false} InvAlways(states: seq<State>, i: nat)
    requires Run(states) && i < |states|
    ensures Inv(states[i])
  {
    if i > 0 {
      InvAlways(states, i - 1);
      var p, a :| Enabled(states[i - 1], p, a) && states[i] == After(states[i - 1], p, a);
      InvKept(states[i - 1], p, a);
    }
  }

  /** Seed agreement: all calls that ever return give the same 32 bytes, and no second seed is
      minted. */
  lemma SeedsAgree(states: seq<State>, n: nat)
    requires Run(states) && n < |states|
    ensures forall i, j | 0 <= i < |states[n].returned| && 0 <= j < |states[n].returned| ::
      states[n].returned[i] == states[n].returned[j]
    ensures forall i | 0 <= i < |states[n].returned| :: |states[n].returned[i]| == LENGTH
    ensures |states[n].minted| <= 1
  {
    InvAlways(states, n);
  }

  // ---- half-written files ----

  /** The file exists and no call is about to write it. */
  ghost predicate Settled(s: State) {
    s.file.Some? && forall p :: !PcOf(s, p).Writing?
  }

  lemma SettledStep(s: State, p: nat, a: Action)
    requires Inv(s) && Settled(s) && Enabled(s, p, a)
    ensures var t := After(s, p, a);
      Settled(t) && t.file == s.file && t.minted == s.minted
    ensures |s.file.value| != LENGTH && After(s, p, a).returned != s.returned ==> PcOf(s, p).Finishing?
    ensures forall q :: PcOf(After(s, p, a), q).Finishing? ==> PcOf(s, q).Finishing?
  {
    var t := After(s, p, a);
    assert forall q | q != p :: PcOf(t, q) == PcOf(s, q);
  }

  /** What a step leaves of a settled state; a short file lets nobody begin to return. */
  ghost predicate Stays(s: State, t: State) {
    && Settled(s) && Settled(t) && t.file == s.file && t.minted == s.minted
    && (|s.file.value| != LENGTH && NobodyFinishes(s) ==> t.returned == s.returned && NobodyFinishes(t))
  }

  ghost predicate NobodyFinishes(s: State) {
    forall p :: !PcOf(s, p).Finishing?
  }

  lemma SettledNext(s: State, t: State)
    requires Inv(s) && Settled(s) && Step(s, t)
    ensures Stays(s, t)
  {
    var p, a :| Enabled(s, p, a) && t == After(s, p, a);
    SettledStep(s, p, a);
  }

  /** Once settled the file never changes. If it does not hold 32 bytes and the call that cut
      it short is no longer running, no call ever returns again, and none mints a new seed. */
  lemma {:induction false} HalfWrittenStays(states: seq<State>, i: nat, j: nat)
    requires Run(states) && i <= j < |states| && Settled(states[i])
    ensures Settled(states[j]) && states[j].file == states[i].file && states[j].minted == states[i].minted
    ensures |states[i].file.value| != LENGTH && NobodyFinishes(states[i]) ==>
      states[j].returned == states[i].returned && NobodyFinishes(states[j])
    decreases j - i
  {
    if i < j {
      HalfWrittenStays(states, i, j - 1);
      InvAlways(states, j - 1);
      SettledNext(states[j - 1], states[j]);
    }
  }

  /** A call that starts on a settled file and runs undisturbed returns exactly when the file
      holds 32 bytes, and then returns them. */
  lemma SettledCall(s: State, p: nat)
    requires Settled(s) && PcOf(s, p).Idle?
    ensures Enabled(s, p, Exists) && Enabled(After(s, p, Exists), p, Read)
    ensures After(After(s, p, Exists), p, Read).returned ==
      if |s.file.value| == LENGTH then s.returned + [s.file.value] else s.returned
  {
  }

  // ---- what a write decides ----

  /** A call by q that nothing disturbs returns data. */
  ghost predicate Loads(s: State, q: nat, data: Bytes) {
    && Enabled(s, q, Exists) && Enabled(After(s, q, Exists), q, Read)
    && After(After(s, q, Exists), q, Read).returned == s.returned + [data]
  }

  lemma LoadsWhatIsThere(s: State, q: nat, data: Bytes)
    requires s.file.Some? && PcOf(s, q).Idle?
    ensures Loads(s, q, data) <==> |s.file.value| == LENGTH && s.file.value == data
  {
    var t := After(After(s, q, Exists), q, Read);
    if t.returned == s.returned + [data] && |s.file.value| == LENGTH {
      assert (s.returned + [s.file.value])[|s.returned|] == (s.returned + [data])[|s.returned|];
    }
  }

  /** The creator returns its seed however little os.write wrote; another call can load that seed
      exactly when all 32 bytes were written. */
  lemma CreatorReturns(s: State, p: nat, q: nat, data: Bytes, count: nat)
    requires s.file.None? && PcOf(s, p).Minting? && |data| == LENGTH && count <= LENGTH
    requires q != p && PcOf(s, q).Idle?
    ensures Enabled(s, p, Open(data)) && Enabled(After(s, p, Open(data)), p, Write(count))
    ensures var t := After(After(s, p, Open(data)), p, Write(count));
      && Enabled(t, p, Return) && After(t, p, Return).returned == s.returned + [data]
      && (Loads(After(t, p, Return), q, data) <==> count == LENGTH)
  {
    var t := After(After(After(s, p, Open(data)), p, Write(count)), p, Return);
    assert t.file == Some(data[..count]);
    assert data[..LENGTH] == data;
    LoadsWhatIsThere(t, q, data);
  }

  /** The step from states[i] is p's write of the first count bytes of data. */
  ghost predicate Writes(states: seq<State>, i: nat, p: nat, data: Bytes, count: nat) {
    && i + 1 < |states| && PcOf(states[i], p) == Writing(data)
    && Enabled(states[i], p, Write(count)) && states[i + 1] == After(states[i], p, Write(count))
  }

  /** Until the creator of a short file is done nothing returns, and then only its own seed. */
  ghost predicate OnlyCreator(s: State, p: nat, data: Bytes) {
    && (forall q :: PcOf(s, q).Finishing? ==> q == p)
    && (s.returned == [] || (s.returned == [data] && !PcOf(s, p).Finishing?))
  }

  lemma WriteAlone(s: State, p: nat, data: Bytes, count: nat)
    requires Inv(s) && PcOf(s, p) == Writing(data) && Enabled(s, p, Write(count))
    ensures var t := After(s, p, Write(count));
      && Settled(t) && t.file == Some(data[..count]) && t.minted == [data] && OnlyCreator(t, p, data)
    ensures |data| == LENGTH
  {
    var t := After(s, p, Write(count));
    assert PcOf(s, p).Writing?;
    forall q ensures !PcOf(t, q).Writing? && (PcOf(t, q).Finishing? ==> q == p) {
      assert q != p ==> PcOf(t, q) == PcOf(s, q);
    }
  }

  lemma WriteSettles(states: seq<State>, i: nat, p: nat, data: Bytes, count: nat)
    requires Run(states) && Writes(states, i, p, data, count)
    ensures |data| == LENGTH && Settled(states[i + 1]) && states[i + 1].file == Some(data[..count])
    ensures states[i + 1].minted == [data] && OnlyCreator(states[i + 1], p, data)
  {
    InvAlways(states, i);
    WriteAlone(states[i], p, data, count);
  }

  lemma FinisherMinted(s: State, q: nat)
    requires Inv(s) && PcOf(s, q).Finishing?
    ensures s.minted == [PcOf(s, q).data]
  {
  }

  lemma OnlyCreatorKept(s: State, q: nat, a: Action, p: nat, data: Bytes)
    requires Settled(s) && Enabled(s, q, a) && |s.file.value| != LENGTH && OnlyCreator(s, p, data)
    requires a.Return? ==> PcOf(s, q) == Finishing(data)
    ensures OnlyCreator(After(s, q, a), p, data)
  {
    var t := After(s, q, a);
    forall o ensures PcOf(t, o).Finishing? ==> o == p {
      assert o != q ==> PcOf(t, o) == PcOf(s, o);
      assert PcOf(s, o).Finishing? ==> o == p;
      assert !PcOf(s, q).Writing?;
    }
    assert p != q ==> PcOf(t, p) == PcOf(s, p);
  }

  lemma OnlyCreatorNext(states: seq<State>, k: nat, p: nat, data: Bytes)
    requires Run(states) && k + 1 < |states| && Settled(states[k]) && |states[k].file.value| != LENGTH
    requires states[k].minted == [data] && OnlyCreator(states[k], p, data)
    ensures OnlyCreator(states[k + 1], p, data)
  {
    InvAlways(states, k);
    var q, a :| Enabled(states[k], q, a) && states[k + 1] == After(states[k], q, a);
    if a.Return? {
      FinisherMinted(states[k], q);
      assert [PcOf(states[k], q).data][0] == [data][0];
    }
    OnlyCreatorKept(states[k], q, a, p, data);
  }

  lemma {:induction false} OnlyCreatorAlways(states: seq<State>, i: nat, j: nat, p: nat, data: Bytes, count: nat)
    requires Run(states) && Writes(states, i, p, data, count) && count < LENGTH && i < j < |states|
    ensures OnlyCreator(states[j], p, data)
    decreases j
  {
    WriteSettles(states, i, p, data, count);
    if j > i + 1 {
      OnlyCreatorAlways(states, i, j - 1, p, data, count);
      HalfWrittenStays(states, i + 1, j - 1);
      OnlyCreatorNext(states, j - 1, p, data);
    }
  }

  /** A write decides for good. In every later state of the run the file holds what was written,
      and a call can load the seed exactly when that was all 32 bytes. After a short write
      nothing is ever returned but the creator's own seed, once. */
  lemma WriteDecides(states: seq<State>, i: nat, j: nat, p: nat, data: Bytes, count: nat, q: nat)
    requires Run(states) && Writes(states, i, p, data, count) && i < j < |states|
    ensures states[j].file == Some(data[..count]) && states[j].minted == [data]
    ensures PcOf(states[j], q).Idle? ==> (Loads(states[j], q, data) <==> count == LENGTH)
    ensures count < LENGTH ==> states[j].returned == [] || states[j].returned == [data]
  {
    WriteSettles(states, i, p, data, count);
    HalfWrittenStays(states, i + 1, j);
    assert data[..LENGTH] == data;
    if PcOf(states[j], q).Idle? {
      LoadsWhatIsThere(states[j], q, data);
    }
    if count < LENGTH {
      OnlyCreatorAlways(states, i, j, p, data, count);
    }
  }

  /** An input on which it fails: two callers, nothing there, and a write of nothing. */
  lemma ShortWriteStrands(data: Bytes)
    requires |data| == LENGTH
    ensures var s := State(None, map[0 := Minting], [], []);
      var t := After(After(After(s, 0, Open(data)), 0, Write(0)), 0, Return);
      t.returned == [data] && t.file == Some([]) && !Loads(t, 1, data)
  {
    CreatorReturns(State(None, map[0 := Minting], [], []), 0, 1, data, 0);
  }
}
