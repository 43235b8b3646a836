/** The version-token cache as a protocol: readers in any number run `cached` step by step against one shared cache while
    writes replace the token and any entry may expire at any moment. One (namespace, council, parts) is modelled;
    others use other keys. */
module TokenCache {
  import opened Prelude

  /** Where a reader is in `cached` and `version_token`. Tokens are numbered in the order they are drawn; drawing
      never repeats one. */
  datatype Point<V> =
    | Idle
    | Reading                                // before cache.get(token key)
    | Minting(token: nat)                    // drew a token, before cache.add
    | Rereading(token: nat)                  // add lost, before the second get
    | Looking(token: nat)                    // before cache.get(data key)
    | Computing(token: nat)                  // missed, before compute()
    | Storing(token: nat, value: V)          // before cache.set(data key)
    | Returned(value: V, ended: nat)

  /** `began` is the version of the data when the call started. */
  datatype Reader<V> = Reader(at: Point<V>, began: nat)

  /** `history` holds every version of the data, oldest first; `born` records, for the proof, the version at which each
      token was drawn or last put in the token slot. */
  datatype State<D, V> = State(
    history: seq<D>, slot: Option<nat>, entries: map<nat, V>, readers: seq<Reader<V>>, nextToken: nat, born: map<nat, nat>)

  datatype Step<D> =
    | Begin(reader: nat)
    | ReadToken(reader: nat)
    | AddToken(reader: nat)
    | RereadToken(reader: nat)
    | Look(reader: nat)
    | Compute(reader: nat)
    | Store(reader: nat)
    | Write(data: D)
    | ExpireToken
    | ExpireEntry(token: nat)

  function Now<D, V>(s: State<D, V>): int {
    |s.history| - 1
  }

  function MoveTo<D, V>(s: State<D, V>, i: nat, at: Point<V>): State<D, V>
    requires i < |s.readers|
  {
    s.(readers := s.readers[i := s.readers[i].(at := at)])
  }

  /** One step of reader `i`; a step that is not the reader's next one does nothing. `absent` is the value that reads
      back as a miss (None). */
  function Act<D, V(==)>(s: State<D, V>, step: Step<D>, i: nat, compute: D -> V, absent: V): State<D, V>
    requires i < |s.readers| && s.history != []
  {
    var r := s.readers[i];
    match step
    case Begin(_) =>
      if r.at.Idle? || r.at.Returned? then s.(readers := s.readers[i := Reader(Reading, |s.history| - 1)]) else s
    case ReadToken(_) =>
      if !r.at.Reading? then s
      else if s.slot.Some? then MoveTo(s, i, Looking(s.slot.value))
      else MoveTo(s.(nextToken := s.nextToken + 1, born := s.born[s.nextToken := |s.history| - 1]), i, Minting(s.nextToken))
    case AddToken(_) =>
      if !r.at.Minting? then s
      else if s.slot.None? then
        MoveTo(s.(slot := Some(r.at.token), born := s.born[r.at.token := |s.history| - 1]), i, Looking(r.at.token))
      else MoveTo(s, i, Rereading(r.at.token))
    case RereadToken(_) =>
      if !r.at.Rereading? then s
      else MoveTo(s, i, Looking(if s.slot.Some? then s.slot.value else r.at.token))
    case Look(_) =>
      if !r.at.Looking? then s
      else if r.at.token in s.entries && s.entries[r.at.token] != absent then
        MoveTo(s, i, Returned(s.entries[r.at.token], |s.history| - 1))
      else MoveTo(s, i, Computing(r.at.token))
    case Compute(_) =>
      if !r.at.Computing? then s else MoveTo(s, i, Storing(r.at.token, compute(s.history[|s.history| - 1])))
    case Store(_) =>
      if !r.at.Storing? then s
      else MoveTo(s.(entries := s.entries[r.at.token := r.at.value]), i, Returned(r.at.value, |s.history| - 1))
    case _ => s
  }

  function Next<D, V(==)>(s: State<D, V>, step: Step<D>, compute: D -> V, absent: V): State<D, V>
    requires s.history != []
  {
    match step
    case Write(d) =>
      s.(history := s.history + [d], slot := Some(s.nextToken), nextToken := s.nextToken + 1,
         born := s.born[s.nextToken := |s.history|])
    case ExpireToken => s.(slot := None)
    case ExpireEntry(t) => s.(entries := s.entries - {t})
    case _ => if step.reader < |s.readers| then Act(s, step, step.reader, compute, absent) else s
  }

  function Start<D, V>(data: D, readers: nat): State<D, V> {
    State([data], None, map[], seq(readers, _ => Reader(Idle, 0)), 0, map[])
  }

  function Run<D, V(==)>(s: State<D, V>, steps: seq<Step<D>>, compute: D -> V, absent: V): (r: State<D, V>)
    requires s.history != []
    ensures r.history != []
  {
    if steps == [] then s
    else Next(Run(s, steps[..|steps| - 1], compute, absent), steps[|steps| - 1], compute, absent)
  }

  // ---- the invariant ----

  /** `v` is what `compute` gives on some version from `from` to `to`. */
  ghost predicate Seen<D, V>(history: seq<D>, compute: D -> V, v: V, from: nat, to: int) {
    exists m :: from <= m <= to < |history| && m < |history| && compute(history[m]) == v
  }

  function TokenAt<V>(p: Point<V>): Option<nat> {
    match p
    case Minting(t) => Some(t)
    case Rereading(t) => Some(t)
    case Looking(t) => Some(t)
    case Computing(t) => Some(t)
    case Storing(t, _) => Some(t)
    case _ => None
  }

  /** A reader holds only tokens drawn since its call began, or in the slot since then; what it is about to store or has
      returned was computed in its own call or by an entry no older than its token. */
  ghost predicate ReaderOk<D, V>(s: State<D, V>, r: Reader<V>, compute: D -> V) {
    && r.began < |s.history|
    && (TokenAt(r.at).Some? ==> var t := TokenAt(r.at).value; t in s.born && r.began <= s.born[t] < |s.history|)
    && (r.at.Storing? ==> Seen(s.history, compute, r.at.value, s.born[r.at.token], Now(s)))
    && (r.at.Returned? ==> Seen(s.history, compute, r.at.value, r.began, r.at.ended))
  }

  /** A token drawn but not yet added is known to its reader alone. */
  ghost predicate MintOk<D, V>(s: State<D, V>, i: nat)
    requires i < |s.readers|
  {
    s.readers[i].at.Minting? ==>
      && s.readers[i].at.token !in s.entries && s.slot != Some(s.readers[i].at.token)
      && forall j | 0 <= j < |s.readers| && j != i :: TokenAt(s.readers[j].at) != Some(s.readers[i].at.token)
  }

  ghost predicate SlotOk<D, V>(s: State<D, V>, compute: D -> V) {
    && s.history != []
    && (forall t | t in s.born :: t < s.nextToken && s.born[t] < |s.history|)
    && (s.slot.Some? ==> s.slot.value in s.born && s.born[s.slot.value] == Now(s))
    && (forall t | t in s.entries :: t in s.born && Seen(s.history, compute, s.entries[t], s.born[t], Now(s)))
  }

  ghost predicate Inv<D, V>(s: State<D, V>, compute: D -> V) {
    && SlotOk(s, compute)
    && (forall i | 0 <= i < |s.readers| :: ReaderOk(s, s.readers[i], compute))
    && (forall i | 0 <= i < |s.readers| :: MintOk(s, i))
  }

  lemma SeenLater<D, V>(h: seq<D>, d: D, compute: D -> V, v: V, from: nat, to: int)
    requires Seen(h, compute, v, from, to)
    ensures Seen(h + [d], compute, v, from, to) && Seen(h + [d], compute, v, from, to + 1)
  {
    var m :| from <= m <= to < |h| && m < |h| && compute(h[m]) == v;
    assert (h + [d])[m] == h[m];
  }

  lemma SeenFromEarlier<D, V>(h: seq<D>, compute: D -> V, v: V, from: nat, from': nat, to: int)
    requires Seen(h, compute, v, from, to) && from' <= from
    ensures Seen(h, compute, v, from', to)
  {
  }

  lemma SeenNow<D, V>(h: seq<D>, compute: D -> V, from: nat)
    requires from < |h|
    ensures Seen(h, compute, compute(h[|h| - 1]), from, |h| - 1)
  {
    assert from <= |h| - 1;
  }

  lemma WriteKeepsInv<D, V>(s: State<D, V>, d: D, compute: D -> V, absent: V)
    requires Inv(s, compute)
    ensures Inv(Next(s, Write(d), compute, absent), compute)
  {
    var after := Next(s, Write(d), compute, absent);
    forall t | t in after.entries ensures t in after.born && Seen(after.history, compute, after.entries[t], after.born[t], Now(after)) {
      SeenLater(s.history, d, compute, s.entries[t], s.born[t], Now(s));
    }
    forall i | 0 <= i < |after.readers| ensures ReaderOk(after, after.readers[i], compute) && MintOk(after, i) {
      var r := s.readers[i];
      assert ReaderOk(s, r, compute) && MintOk(s, i);
      if r.at.Storing? { SeenLater(s.history, d, compute, r.at.value, s.born[r.at.token], Now(s)); }
      if r.at.Returned? { SeenLater(s.history, d, compute, r.at.value, r.began, r.at.ended); }
    }
  }

  lemma ExpiryKeepsInv<D, V>(s: State<D, V>, step: Step<D>, compute: D -> V, absent: V)
    requires Inv(s, compute) && (step.ExpireToken? || step.ExpireEntry?)
    ensures Inv(Next(s, step, compute, absent), compute)
  {
    var after := Next(s, step, compute, absent);
    forall i | 0 <= i < |after.readers| ensures ReaderOk(after, after.readers[i], compute) && MintOk(after, i) {
      assert ReaderOk(s, s.readers[i], compute) && MintOk(s, i);
    }
  }

  /** Moving reader `i`, drawing no token another reader is minting, keeps the others as they were. */
  lemma OthersKeep<D, V>(s: State<D, V>, after: State<D, V>, i: nat, compute: D -> V)
    requires Inv(s, compute) && i < |s.readers| == |after.readers|
    requires after.history == s.history
    requires forall j | 0 <= j < |s.readers| && j != i :: after.readers[j] == s.readers[j]
    requires forall t | t in s.born :: t in after.born && s.born[t] <= after.born[t] < |s.history|
    requires forall t | t in s.born && after.born[t] != s.born[t] :: forall j | 0 <= j < |s.readers| && j != i :: TokenAt(s.readers[j].at) != Some(t)
    requires forall j | 0 <= j < |s.readers| && j != i && s.readers[j].at.Minting? ::
               var t := s.readers[j].at.token;
               t !in after.entries && after.slot != Some(t) && TokenAt(after.readers[i].at) != Some(t)
    ensures forall j | 0 <= j < |s.readers| && j != i :: ReaderOk(after, after.readers[j], compute) && MintOk(after, j)
  {
    forall j | 0 <= j < |s.readers| && j != i ensures ReaderOk(after, after.readers[j], compute) && MintOk(after, j) {
      assert ReaderOk(s, s.readers[j], compute) && MintOk(s, j);
    }
  }

  /** A token another reader is minting is in no entry, not in the slot and not reader `i`'s. */
  lemma MintedElsewhere<D, V>(s: State<D, V>, i: nat, compute: D -> V)
    requires Inv(s, compute) && i < |s.readers|
    ensures forall j | 0 <= j < |s.readers| && j != i && s.readers[j].at.Minting? ::
              var t := s.readers[j].at.token;
              t < s.nextToken && t !in s.entries && s.slot != Some(t) && TokenAt(s.readers[i].at) != Some(t)
  {
    forall j | 0 <= j < |s.readers| && j != i && s.readers[j].at.Minting?
      ensures s.readers[j].at.token < s.nextToken && s.readers[j].at.token !in s.entries && s.slot != Some(s.readers[j].at.token)
              && TokenAt(s.readers[i].at) != Some(s.readers[j].at.token) {
      assert MintOk(s, j) && ReaderOk(s, s.readers[j], compute);
    }
  }

  lemma BeginKeepsInv<D, V>(s: State<D, V>, i: nat, compute: D -> V, absent: V)
    requires Inv(s, compute) && i < |s.readers|
    ensures Inv(Act(s, Begin(i), i, compute, absent), compute)
  {
    var after := Act(s, Begin(i), i, compute, absent);
    var r := s.readers[i];
    assert ReaderOk(s, r, compute) && MintOk(s, i);
    MintedElsewhere(s, i, compute);
    OthersKeep(s, after, i, compute);
  }

  lemma ReadTokenKeepsInv<D, V>(s: State<D, V>, i: nat, compute: D -> V, absent: V)
    requires Inv(s, compute) && i < |s.readers|
    ensures Inv(Act(s, ReadToken(i), i, compute, absent), compute)
  {
    var after := Act(s, ReadToken(i), i, compute, absent);
    var r := s.readers[i];
    assert ReaderOk(s, r, compute) && MintOk(s, i);
    MintedElsewhere(s, i, compute);
    forall j | 0 <= j < |s.readers| ensures TokenAt(s.readers[j].at) != Some(s.nextToken) {
      assert ReaderOk(s, s.readers[j], compute);
    }
    OthersKeep(s, after, i, compute);
  }

  lemma AddTokenKeepsInv<D, V>(s: State<D, V>, i: nat, compute: D -> V, absent: V)
    requires Inv(s, compute) && i < |s.readers|
    ensures Inv(Act(s, AddToken(i), i, compute, absent), compute)
  {
    var after := Act(s, AddToken(i), i, compute, absent);
    var r := s.readers[i];
    assert ReaderOk(s, r, compute) && MintOk(s, i);
    MintedElsewhere(s, i, compute);
    OthersKeep(s, after, i, compute);
  }

  lemma RereadTokenKeepsInv<D, V>(s: State<D, V>, i: nat, compute: D -> V, absent: V)
    requires Inv(s, compute) && i < |s.readers|
    ensures Inv(Act(s, RereadToken(i), i, compute, absent), compute)
  {
    var after := Act(s, RereadToken(i), i, compute, absent);
    var r := s.readers[i];
    assert ReaderOk(s, r, compute) && MintOk(s, i);
    MintedElsewhere(s, i, compute);
    OthersKeep(s, after, i, compute);
  }

  lemma LookKeepsInv<D, V>(s: State<D, V>, i: nat, compute: D -> V, absent: V)
    requires Inv(s, compute) && i < |s.readers|
    ensures Inv(Act(s, Look(i), i, compute, absent), compute)
  {
    var after := Act(s, Look(i), i, compute, absent);
    var r := s.readers[i];
    assert ReaderOk(s, r, compute) && MintOk(s, i);
    MintedElsewhere(s, i, compute);
    if r.at.Looking? && r.at.token in s.entries {
      SeenFromEarlier(s.history, compute, s.entries[r.at.token], s.born[r.at.token], r.began, Now(s));
    }
    OthersKeep(s, after, i, compute);
  }

  lemma ComputeKeepsInv<D, V>(s: State<D, V>, i: nat, compute: D -> V, absent: V)
    requires Inv(s, compute) && i < |s.readers|
    ensures Inv(Act(s, Compute(i), i, compute, absent), compute)
  {
    var after := Act(s, Compute(i), i, compute, absent);
    var r := s.readers[i];
    assert ReaderOk(s, r, compute) && MintOk(s, i);
    MintedElsewhere(s, i, compute);
    if r.at.Computing? {
      SeenNow(s.history, compute, s.born[r.at.token]);
    }
    OthersKeep(s, after, i, compute);
  }

  lemma StoreKeepsInv<D, V>(s: State<D, V>, i: nat, compute: D -> V, absent: V)
    requires Inv(s, compute) && i < |s.readers|
    ensures Inv(Act(s, Store(i), i, compute, absent), compute)
  {
    var after := Act(s, Store(i), i, compute, absent);
    var r := s.readers[i];
    assert ReaderOk(s, r, compute) && MintOk(s, i);
    MintedElsewhere(s, i, compute);
    if r.at.Storing? {
      SeenFromEarlier(s.history, compute, r.at.value, s.born[r.at.token], r.began, Now(s));
    }
    OthersKeep(s, after, i, compute);
  }

  /** Every step, of any reader or of the world, keeps the invariant. */
  lemma StepKeepsInv<D, V>(s: State<D, V>, step: Step<D>, compute: D -> V, absent: V)
    requires Inv(s, compute)
    ensures Inv(Next(s, step, compute, absent), compute)
  {
    hide Inv, Act;
    match step
    case Write(d) => WriteKeepsInv(s, d, compute, absent);
    case ExpireToken => ExpiryKeepsInv(s, step, compute, absent);
    case ExpireEntry(_) => ExpiryKeepsInv(s, step, compute, absent);
    case Begin(i) => if i < |s.readers| { BeginKeepsInv(s, i, compute, absent); }
    case ReadToken(i) => if i < |s.readers| { ReadTokenKeepsInv(s, i, compute, absent); }
    case AddToken(i) => if i < |s.readers| { AddTokenKeepsInv(s, i, compute, absent); }
    case RereadToken(i) => if i < |s.readers| { RereadTokenKeepsInv(s, i, compute, absent); }
    case Look(i) => if i < |s.readers| { LookKeepsInv(s, i, compute, absent); }
    case Compute(i) => if i < |s.readers| { ComputeKeepsInv(s, i, compute, absent); }
    case Store(i) => if i < |s.readers| { StoreKeepsInv(s, i, compute, absent); }
  }

  lemma {:induction false} RunKeepsInv<D, V>(data: D, readers: nat, steps: seq<Step<D>>, compute: D -> V, absent: V)
    ensures Inv(Run(Start<D, V>(data, readers), steps, compute, absent), compute)
  {
    if steps != [] {
      var n := |steps| - 1;
      RunKeepsInv<D, V>(data, readers, steps[..n], compute, absent);
      StepKeepsInv(Run(Start<D, V>(data, readers), steps[..n], compute, absent), steps[n], compute, absent);
    }
  }

  /** Cached reads are linearizable: in every interleaving of any number of readers, writes and expiries, the value a call
      returns is what `compute` gives on a version of the data that was current at some moment during that call. In
      particular a call that starts after a write never returns what preceded it. */
  lemma CachedReadsAreLinearizable<D, V>(data: D, readers: nat, steps: seq<Step<D>>, compute: D -> V, absent: V, i: nat)
    requires var s := Run(Start<D, V>(data, readers), steps, compute, absent); i < |s.readers| && s.readers[i].at.Returned?
    ensures var s := Run(Start<D, V>(data, readers), steps, compute, absent);
            var r := s.readers[i];
            exists m :: r.began <= m <= r.at.ended < |s.history| && compute(s.history[m]) == r.at.value
  {
    RunKeepsInv<D, V>(data, readers, steps, compute, absent);
    var s := Run(Start<D, V>(data, readers), steps, compute, absent);
    assert ReaderOk(s, s.readers[i], compute);
  }

  /** Two readers that both find the slot empty draw a token each; the second one's add is lost and both go on with the
      first one's. */
  lemma LostAddSharesTheToken<D, V>(s: State<D, V>, i: nat, j: nat, compute: D -> V, absent: V)
    requires s.history != [] && i < |s.readers| && j < |s.readers| && i != j && s.slot == None
    requires s.readers[i].at.Reading? && s.readers[j].at.Reading?
    ensures var s1 := Next(Next(s, ReadToken(i), compute, absent), ReadToken(j), compute, absent);
            var s2 := Next(Next(s1, AddToken(i), compute, absent), AddToken(j), compute, absent);
            var after := Next(s2, RereadToken(j), compute, absent);
            && s1.readers[i].at == Minting(s.nextToken) && s1.readers[j].at == Minting(s.nextToken + 1)
            && after.slot == Some(s.nextToken)
            && after.readers[i].at == Looking(s.nextToken) && after.readers[j].at == Looking(s.nextToken)
  {
  }

  // ---- the functions themselves ----

  /** One call of `cached` with nothing in between: a step that is not the reader's next one does nothing, so the same
      list serves a hit and a miss. */
  function Call<D>(i: nat): seq<Step<D>> {
    [Begin(i), ReadToken(i), AddToken(i), RereadToken(i), Look(i), Compute(i), Store(i)]
  }

  lemma RunNext<D, V>(s: State<D, V>, steps: seq<Step<D>>, k: nat, compute: D -> V, absent: V)
    requires s.history != [] && k < |steps|
    ensures Run(s, steps[..k + 1], compute, absent) == Next(Run(s, steps[..k], compute, absent), steps[k], compute, absent)
  {
    assert steps[..k + 1][..k] == steps[..k];
  }

  /** The token a call uses when nothing interrupts it. */
  function TokenOf<D, V>(s: State<D, V>): nat {
    if s.slot.Some? then s.slot.value else s.nextToken
  }

  ghost predicate Hit<D, V>(s: State<D, V>, token: nat, absent: V) {
    token in s.entries && s.entries[token] != absent
  }

  lemma TokenSteps<D, V>(s: State<D, V>, i: nat, compute: D -> V, absent: V)
    requires s.history != [] && i < |s.readers| && s.readers[i].at.Idle?
    ensures var after := Run(s, Call(i)[..4], compute, absent);
            && i < |after.readers| && after.readers[i].at == Looking(TokenOf(s)) && after.slot == Some(TokenOf(s))
            && after.nextToken == s.nextToken + (if s.slot.Some? then 0 else 1)
            && after.entries == s.entries && after.history == s.history
  {
    hide Run;
    var steps := Call(i);
    assert steps[..0] == [] && Run(s, [], compute, absent) == s by { RunNone(s, compute, absent); }
    RunNext(s, steps, 0, compute, absent);
    RunNext(s, steps, 1, compute, absent);
    RunNext(s, steps, 2, compute, absent);
    RunNext(s, steps, 3, compute, absent);
  }

  lemma RunNone<D, V>(s: State<D, V>, compute: D -> V, absent: V)
    requires s.history != []
    ensures Run(s, [], compute, absent) == s
  {
  }

  lemma LookSteps<D, V>(s: State<D, V>, i: nat, t: nat, compute: D -> V, absent: V)
    requires s.history != [] && i < |s.readers| && s.readers[i].at == Looking(t)
    ensures var looked, now := Next(s, Look(i), compute, absent), s.history[|s.history| - 1];
            var after := Next(Next(looked, Compute(i), compute, absent), Store(i), compute, absent);
            && i < |after.readers| && after.slot == s.slot && after.nextToken == s.nextToken
            && after.entries == (if Hit(s, t, absent) then s.entries else s.entries[t := compute(now)])
            && after.readers[i].at == Returned(if Hit(s, t, absent) then s.entries[t] else compute(now), |s.history| - 1)
  {
  }

  /** What an uninterrupted call leaves behind and returns. */
  lemma CallOutcome<D, V>(s: State<D, V>, i: nat, compute: D -> V, absent: V)
    requires s.history != [] && i < |s.readers| && s.readers[i].at.Idle?
    ensures var after, t, now := Run(s, Call(i), compute, absent), TokenOf(s), s.history[|s.history| - 1];
            && i < |after.readers| && after.slot == Some(t)
            && after.nextToken == s.nextToken + (if s.slot.Some? then 0 else 1)
            && after.entries == (if Hit(s, t, absent) then s.entries else s.entries[t := compute(now)])
            && after.readers[i].at == Returned(if Hit(s, t, absent) then s.entries[t] else compute(now), |s.history| - 1)
  {
    hide Run;
    hide Next;
    hide Act;
    var steps := Call(i);
    TokenSteps(s, i, compute, absent);
    LookSteps(Run(s, steps[..4], compute, absent), i, TokenOf(s), compute, absent);
    RunNext(s, steps, 4, compute, absent);
    RunNext(s, steps, 5, compute, absent);
    RunNext(s, steps, 6, compute, absent);
    assert steps[..7] == steps;
  }

  /** The shared cache: the token slot and the entries under each token. */
  class Cache<V(==)> {
    const absent: V
    var slot: Option<nat>
    var entries: map<nat, V>
    var nextToken: nat

    constructor (absent: V)
      ensures this.absent == absent && slot == None && entries == map[] && nextToken == 0
    {
      this.absent, slot, entries, nextToken := absent, None, map[], 0;
    }

    /** The protocol state's cache is this one. */
    ghost predicate Shows<D>(s: State<D, V>)
      reads this
    {
      s.slot == slot && s.entries == entries && s.nextToken == nextToken
    }

    method DrawToken() returns (token: nat)
      modifies `nextToken
      ensures token == old(nextToken) && nextToken == token + 1
    {
      token := nextToken;
      nextToken := nextToken + 1;
    }

    /** `cache.add`: sets the slot only if it is empty. */
    method Add(token: nat) returns (added: bool)
      modifies `slot
      ensures added == old(slot).None? && slot == if added then Some(token) else old(slot)
    {
      added := slot.None?;
      if added {
        slot := Some(token);
      }
    }

    /** Here nothing comes between the look and the add, so the add is never lost. */
    method VersionToken() returns (token: nat)
      modifies `slot, `nextToken
      ensures slot == Some(token)
      ensures old(slot).Some? ==> slot == old(slot) && nextToken == old(nextToken)
      ensures old(slot).None? ==> token == old(nextToken) && nextToken == token + 1
    {
      if slot.Some? {
        return slot.value;
      }
      token := DrawToken();
      var added := Add(token);
      assert added;
    }

    /** A write's `bump` is the protocol's: whatever was cached is out of reach. */
    method Bump<D>(ghost s: State<D, V>, ghost data: D, ghost compute: D -> V)
      requires Shows(s) && s.history != []
      modifies `slot, `nextToken
      ensures Shows(Next(s, Write(data), compute, absent))
    {
      var token := DrawToken();
      slot := Some(token);
    }

    /** A call that nothing interrupts leaves the cache and returns the value that the protocol's call does. */
    method Cached<D>(data: D, compute: D -> V, ghost s: State<D, V>, ghost i: nat) returns (value: V)
      requires Shows(s) && i < |s.readers| && s.readers[i].at.Idle? && s.history != [] && s.history[|s.history| - 1] == data
      modifies this
      ensures var after := Run(s, Call(i), compute, absent);
              Shows(after) && i < |after.readers| && after.readers[i].at == Returned(value, |s.history| - 1)
    {
      hide Run;
      CallOutcome(s, i, compute, absent);
      var token := VersionToken();
      if token in entries && entries[token] != absent {
        return entries[token];
      }
      value := compute(data);
      entries := entries[token := value];
    }
  }
}
