/**
 * The blue/green search index: a fixed current version, an alias that searches go
 * through, and rebuilds that any number of processes run, and may abandon, at once.
 */
module SearchIndex {
  import opened Common

  type Version = nat

  /** What a unit's document says, apart from its id. */
  datatype Document = Document(body: string)

  type Documents = map<nat, Document>

  /** Where one run of ensureIndex, or of reindexAll, has got to. */
  datatype Phase =
    | Starting
    | IndexMissing
    | IndexReady
    | AliasMissing
    | AliasSeen
    | Loaded(docs: Documents)
    | Filled(docs: Documents)
    | Promoting(docs: Documents, target: Option<Version>)

  /** The indices by version, the versions the alias is bound to, and the processes at work. */
  datatype State = State(indices: map<Version, Documents>, alias: seq<Version>, workers: map<nat, Phase>)

  datatype Step =
    | Start(w: nat)
    | SeeIndex(w: nat)
    | CreateIndex(w: nat)
    | SeeAlias(w: nat)
    | PutAlias(w: nat)
    | Load(w: nat, docs: Documents)
    | Bulk(w: nat)
    | BulkReportsErrors(w: nat, indexed: set<nat>)
    | SeeTarget(w: nat)
    | UpdateAliases(w: nat)
    | Leave(w: nat)
    | IndexUnit(id: nat, doc: Document)
    | RemoveUnit(id: nat)

  predicate At(s: State, w: nat, phase: Phase) {
    w in s.workers && s.workers[w] == phase
  }

  function Goto(s: State, w: nat, phase: Phase): State {
    s.(workers := s.workers[w := phase])
  }

  function Stop(s: State, w: nat): State {
    s.(workers := s.workers - {w})
  }

  /** The version the alias listing names first. */
  function Target(alias: seq<Version>): Option<Version> {
    if alias == [] then None else Some(alias[0])
  }

  function Bound(alias: seq<Version>, v: Version): seq<Version> {
    if v in alias then alias else alias + [v]
  }

  function Unbound(alias: seq<Version>, v: Version): seq<Version> {
    if alias == [] then []
    else (if alias[0] == v then [] else [alias[0]]) + Unbound(alias[1..], v)
  }

  /** The documents that a bulk write got in before it reported errors. */
  function Part(docs: Documents, indexed: set<nat>): Documents {
    docs - (docs.Keys - indexed)
  }

  function Next(current: Version, s: State, step: Step): Option<State> {
    match step
    case Start(w) => if w in s.workers then None else Some(Goto(s, w, Starting))
    case SeeIndex(w) =>
      if !At(s, w, Starting) then None
      else Some(Goto(s, w, if current in s.indices then IndexReady else IndexMissing))
    case CreateIndex(w) =>
      if !At(s, w, IndexMissing) then None
      else if current in s.indices then Some(Stop(s, w))
      else
        var none: Documents := map[];
        Some(Goto(s.(indices := s.indices[current := none]), w, IndexReady))
    case SeeAlias(w) =>
      if !At(s, w, IndexReady) then None
      else Some(Goto(s, w, if s.alias == [] then AliasMissing else AliasSeen))
    case PutAlias(w) =>
      if !At(s, w, AliasMissing) then None
      else Some(Goto(s.(alias := Bound(s.alias, current)), w, AliasSeen))
    case Load(w, docs) =>
      if !At(s, w, AliasSeen) then None else Some(Goto(s, w, Loaded(docs)))
    case Bulk(w) =>
      if w !in s.workers || !s.workers[w].Loaded? || current !in s.indices then None
      else
        var docs := s.workers[w].docs;
        var all: Documents := s.indices[current] + docs;
        Some(Goto(s.(indices := s.indices[current := all]), w, Filled(docs)))
    case BulkReportsErrors(w, indexed) =>
      if w !in s.workers || !s.workers[w].Loaded? || current !in s.indices then None
      else
        var docs := s.workers[w].docs;
        var some: Documents := s.indices[current] + Part(docs, indexed);
        Some(Stop(s.(indices := s.indices[current := some]), w))
    case SeeTarget(w) =>
      if w !in s.workers || !s.workers[w].Filled? then None
      else if Target(s.alias) == Some(current) then Some(Stop(s, w))
      else Some(Goto(s, w, Promoting(s.workers[w].docs, Target(s.alias))))
    case UpdateAliases(w) =>
      if w !in s.workers || !s.workers[w].Promoting? then None
      else
        var target := s.workers[w].target;
        if target.Some? && target.value !in s.alias then Some(Stop(s, w))
        else
          var rest := if target.Some? then Unbound(s.alias, target.value) else s.alias;
          Some(Stop(s.(alias := Bound(rest, current)), w))
    case Leave(w) => Some(Stop(s, w))
    case IndexUnit(id, doc) =>
      if s.alias == [] || s.alias[0] !in s.indices then None
      else
        var docs: Documents := s.indices[s.alias[0]][id := doc];
        Some(s.(indices := s.indices[s.alias[0] := docs]))
    case RemoveUnit(id) =>
      if s.alias == [] || s.alias[0] !in s.indices then None
      else
        var docs: Documents := s.indices[s.alias[0]] - {id};
        Some(s.(indices := s.indices[s.alias[0] := docs]))
  }

  /** What earlier versions left behind: any indices, the alias unbound or bound to one of them. */
  ghost predicate Init(s: State) {
    && s.workers == map[]
    && |s.alias| <= 1
    && forall v :: v in s.alias ==> v in s.indices
  }

  ghost predicate Follows(current: Version, s: State, s': State) {
    exists step :: Next(current, s, step) == Some(s')
  }

  ghost predicate Run(current: Version, trace: seq<State>) {
    && |trace| > 0 && Init(trace[0])
    && forall i :: 0 <= i < |trace| - 1 ==> Follows(current, trace[i], trace[i + 1])
  }

  /** A process past its bulk write: unless the alias already serves the current index, that index has its documents. */
  ghost predicate PhaseOk(current: Version, s: State, phase: Phase) {
    match phase
    case Starting => true
    case IndexMissing => true
    case IndexReady => current in s.indices
    case AliasMissing => current in s.indices && (s.alias == [] || s.alias == [current])
    case AliasSeen => current in s.indices && s.alias != []
    case Loaded(_) => current in s.indices && s.alias != []
    case Filled(docs) => current in s.indices && s.alias != [] && (s.alias == [current] || docs.Keys <= s.indices[current].Keys)
    case Promoting(docs, target) =>
      && current in s.indices && s.alias != [] && target.Some? && target.value != current
      && (s.alias == [current] || docs.Keys <= s.indices[current].Keys)
  }

  ghost predicate Inv(current: Version, s: State) {
    && |s.alias| <= 1
    && (forall v :: v in s.alias ==> v in s.indices)
    && forall w :: w in s.workers ==> PhaseOk(current, s, s.workers[w])
  }

  /** The alias is never unbound, and only ever moves to the current version. */
  ghost predicate AliasForward(current: Version, s: State, s': State) {
    s.alias != [] ==> s'.alias == s.alias || s'.alias == [current]
  }

  lemma StepMovesAlias(current: Version, s: State, step: Step)
    requires Inv(current, s) && Next(current, s, step).Some?
    ensures
      var s' := Next(current, s, step).value;
      && AliasForward(current, s, s')
      && |s'.alias| <= 1
      && (s.alias != [] && s'.alias != s.alias ==>
            && step.UpdateAliases? && step.w in s.workers && s.workers[step.w].Promoting?
            && s'.indices == s.indices && PhaseOk(current, s, s.workers[step.w]))
      && (s.alias == [] ==> s'.alias == [] || s'.alias == [current])
  {
    if step.UpdateAliases? || step.PutAlias? {
      assert PhaseOk(current, s, s.workers[step.w]);
      assert s.alias != [] ==> s.alias[1..] == [] && Unbound(s.alias, s.alias[0]) == [];
      assert [] + [current] == [current];
    }
  }

  lemma StepKeepsInv(current: Version, s: State, step: Step)
    requires Inv(current, s) && Next(current, s, step).Some?
    ensures Inv(current, Next(current, s, step).value)
  {
    var s' := Next(current, s, step).value;
    StepMovesAlias(current, s, step);
    forall w | w in s'.workers ensures PhaseOk(current, s', s'.workers[w]) {
      if w in s.workers {
        assert PhaseOk(current, s, s.workers[w]);
      }
    }
    if step.PutAlias? {
      assert PhaseOk(current, s, s.workers[step.w]);
    }
  }

  lemma {:induction false} RunKeepsInv(current: Version, trace: seq<State>, i: nat)
    requires Run(current, trace) && i < |trace|
    ensures Inv(current, trace[i])
    decreases i
  {
    if i > 0 {
      RunKeepsInv(current, trace, i - 1);
      assert Follows(current, trace[i - 1], trace[i]);
      var step :| Next(current, trace[i - 1], step) == Some(trace[i]);
      StepKeepsInv(current, trace[i - 1], step);
    }
  }

  lemma RunBindsOne(current: Version, trace: seq<State>, i: nat)
    requires Run(current, trace) && i < |trace|
    ensures |trace[i].alias| <= 1 && forall v :: v in trace[i].alias ==> v in trace[i].indices
  {
    RunKeepsInv(current, trace, i);
  }

  lemma RunMovesAlias(current: Version, trace: seq<State>, i: nat)
    requires Run(current, trace) && i + 1 < |trace|
    ensures AliasForward(current, trace[i], trace[i + 1])
  {
    hide Next;
    RunKeepsInv(current, trace, i);
    assert Follows(current, trace[i], trace[i + 1]);
    var step :| Next(current, trace[i], step) == Some(trace[i + 1]);
    StepMovesAlias(current, trace[i], step);
  }

  /**
   * Whatever fails wherever: once bound, the alias is bound to exactly one existing
   * index in every later state, either the one it had or the current one, and once it
   * serves the current one it always does.
   */
  lemma {:induction false} AliasStaysBound(current: Version, trace: seq<State>, i: nat, j: nat)
    requires Run(current, trace) && i <= j < |trace| && trace[i].alias != []
    ensures |trace[j].alias| == 1 && trace[j].alias[0] in trace[j].indices
    ensures trace[j].alias == trace[i].alias || trace[j].alias == [current]
    decreases j
  {
    hide Next, Run, Inv;
    RunBindsOne(current, trace, j);
    if i < j {
      AliasStaysBound(current, trace, i, j - 1);
      RunMovesAlias(current, trace, j - 1);
    }
  }

  /**
   * The alias moves off an older version only by the promotion of a rebuild, and at
   * that moment every document that rebuild loaded is in the current index.
   */
  lemma MovesOnlyWhenFilled(current: Version, trace: seq<State>, i: nat) returns (w: nat)
    requires Run(current, trace) && i + 1 < |trace|
    requires trace[i].alias != [] && trace[i + 1].alias != trace[i].alias
    ensures trace[i + 1].alias == [current]
    ensures w in trace[i].workers && trace[i].workers[w].Promoting?
    ensures current in trace[i + 1].indices && trace[i].workers[w].docs.Keys <= trace[i + 1].indices[current].Keys
  {
    RunKeepsInv(current, trace, i);
    assert Follows(current, trace[i], trace[i + 1]);
    var step :| Next(current, trace[i], step) == Some(trace[i + 1]);
    StepMovesAlias(current, trace[i], step);
    w := step.w;
  }

  /** The documents of an index after some of `docs` were written over it: all of them, or those a bulk write got in. */
  ghost predicate Overwritten(before: Documents, after: Documents, docs: Documents, bulkErrors: Option<set<nat>>) {
    forall id ::
      var written := id in docs && (bulkErrors.None? || id in bulkErrors.value);
      && (id in after <==> id in before || written)
      && (id in after ==> after[id] == if written then docs[id] else before[id])
  }

  // ---- one process ----

  class UnitIndexer {
    const current: Version
    var indices: map<Version, Documents>
    var alias: seq<Version>
    ghost var trace: seq<State>

    constructor (current: Version, indices: map<Version, Documents>, alias: seq<Version>)
      requires |alias| <= 1 && forall v :: v in alias ==> v in indices
      ensures Valid() && this.current == current && this.indices == indices && this.alias == alias
      ensures trace == [State(indices, alias, map[])]
    {
      this.current, this.indices, this.alias := current, indices, alias;
      trace := [State(indices, alias, map[])];
    }

    ghost function Last(): State
      requires |trace| > 0
      reads this
    {
      trace[|trace| - 1]
    }

    ghost predicate Holds(s: State)
      reads this
    {
      s.indices == indices && s.alias == alias
    }

    ghost predicate Valid()
      reads this
    {
      Run(current, trace) && |trace| > 0 && Holds(Last())
    }

    ghost predicate WorkerAt(w: nat, phase: Phase)
      reads this
    {
      |trace| > 0 && At(Last(), w, phase)
    }

    ghost predicate Idle(w: nat)
      reads this
    {
      |trace| > 0 && w !in Last().workers
    }

    ghost method Log(step: Step)
      requires Run(current, trace) && |trace| > 0
      requires Next(current, Last(), step).Some? && Holds(Next(current, Last(), step).value)
      modifies this`trace
      ensures Valid() && old(trace) <= trace && Next(current, old(Last()), step) == Some(Last())
    {
      hide Next;
      var s := Last();
      trace := trace + [Next(current, s, step).value];
      assert Follows(current, s, Last());
    }

    /** Boot: the current index exists afterwards, and an alias that was bound is left where it was. */
    method EnsureIndex(ghost w: nat)
      requires Valid() && Idle(w)
      modifies this
      ensures Valid() && old(trace) <= trace && WorkerAt(w, AliasSeen)
      ensures indices == if current in old(indices) then old(indices) else old(indices)[current := map[]]
      ensures alias == if old(alias) == [] then [current] else old(alias)
    {
      hide Run;
      Log(Start(w));
      Log(SeeIndex(w));
      if current !in indices {
        indices := indices[current := map[]];
        Log(CreateIndex(w));
      }
      BindAlias(w);
    }

    method BindAlias(ghost w: nat)
      requires Valid() && WorkerAt(w, IndexReady)
      modifies this`alias, this`trace
      ensures Valid() && old(trace) <= trace && WorkerAt(w, AliasSeen)
      ensures alias == if old(alias) == [] then [current] else old(alias)
    {
      hide Run;
      Log(SeeAlias(w));
      if alias == [] {
        alias := [current];
        Log(PutAlias(w));
      }
    }

    /**
     * A full rebuild. Without bulk errors the alias ends on the current index, which
     * then holds every loaded document as loaded; with errors the alias keeps serving
     * what it served. No other version's index is written.
     */
    method ReindexAll(docs: Documents, bulkErrors: Option<set<nat>>, ghost w: nat) returns (ok: bool)
      requires Valid() && Idle(w)
      modifies this
      ensures Valid() && old(trace) <= trace && Idle(w)
      ensures ok == bulkErrors.None?
      ensures alias == if ok || old(alias) == [] then [current] else old(alias)
      ensures ok ==> current in indices && forall id :: id in docs ==> id in indices[current] && indices[current][id] == docs[id]
      ensures current in indices && Overwritten(if current in old(indices) then old(indices)[current] else map[], indices[current], docs, bulkErrors)
      ensures forall v :: v != current ==> (v in indices <==> v in old(indices)) && (v in indices ==> indices[v] == old(indices)[v])
    {
      hide Run, Next;
      EnsureIndex(w);
      RunBindsOne(current, trace, |trace| - 1);
      ok := BulkIndex(docs, bulkErrors, w);
      if ok {
        PromoteCurrentIndex(docs, w);
      }
    }

    method BulkIndex(docs: Documents, bulkErrors: Option<set<nat>>, ghost w: nat) returns (ok: bool)
      requires Valid() && WorkerAt(w, AliasSeen) && current in indices
      modifies this`indices, this`trace
      ensures Valid() && old(trace) <= trace
      ensures ok == bulkErrors.None?
      ensures if ok then WorkerAt(w, Filled(docs)) else Idle(w)
      ensures current in indices && Overwritten(old(indices)[current], indices[current], docs, bulkErrors)
      ensures forall v :: v != current ==> (v in indices <==> v in old(indices)) && (v in indices ==> indices[v] == old(indices)[v])
    {
      hide Run;
      Log(Load(w, docs));
      if bulkErrors.Some? {
        var some: Documents := indices[current] + Part(docs, bulkErrors.value);
        indices := indices[current := some];
        Log(BulkReportsErrors(w, bulkErrors.value));
        return false;
      }
      var all: Documents := indices[current] + docs;
      indices := indices[current := all];
      Log(Bulk(w));
      return true;
    }

    /** One atomic swap of the alias, only when it is elsewhere. */
    method PromoteCurrentIndex(docs: Documents, ghost w: nat)
      requires Valid() && WorkerAt(w, Filled(docs)) && |alias| == 1
      modifies this`alias, this`trace
      ensures Valid() && old(trace) <= trace && Idle(w) && alias == [current]
    {
      hide Run;
      var target := Target(alias);
      Log(SeeTarget(w));
      if target == Some(current) {
        return;
      }
      assert alias[1..] == [] && Unbound(alias, alias[0]) == [] && [] + [current] == [current];
      alias := Bound(Unbound(alias, target.value), current);
      Log(UpdateAliases(w));
    }
  }
}
